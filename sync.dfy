/**
  The sync command (spotdl/console/sync.py): parse the query, optionally
  write an m3u playlist, delete the files of the output directory that the
  query no longer produces, then ask for the songs that still need
  downloading.

  The filesystem is a set of existing paths held by a Disk object; writing
  the playlist, logging and requesting downloads are recorded as events.
*/
module Sync {
  import opened Wrappers
  import opened Errors
  import opened Strings
  import opened Types
  import opened Formatter
  import opened Query
  import opened M3u

  /** The downloader attributes sync reads. */
  datatype Settings = Settings(output: string, outputFormat: string, overwrite: string)

  /** What sync does that can be seen from outside, in order. */
  datatype Event =
    | M3uWritten(name: string, content: string)
    | Deleted(path: FilePath)
    | Logged(message: string)
    | DownloadRequested(songs: seq<Song>)

  const NothingToDo := "Nothing to do..."

  /** The files that exist. */
  class Disk {
    var files: set<FilePath>

    constructor (files: set<FilePath>)
      ensures this.files == files
    {
      this.files := files;
    }

    /** `Path.unlink()` of a file that exists. */
    method Unlink(p: FilePath)
      requires p in files
      modifies this
      ensures files == old(files) - {p}
    {
      files := files - {p};
    }
  }

  // ------------------------------------------------------------- old files

  /** `Path(p).parent` */
  function Parent(p: FilePath): FilePath {
    FilePath(p.absolute, if |p.parts| == 0 then [] else p.parts[..|p.parts| - 1])
  }

  /**
    A file the glob of sync.py:33 finds: directly inside the directory,
    named `<something>.<format>`, and not hidden (the star does not match
    a leading dot).
  */
  predicate Globbed(f: FilePath, dir: FilePath, format: string) {
    && f.absolute == dir.absolute
    && |f.parts| == |dir.parts| + 1
    && f.parts[..|dir.parts|] == dir.parts
    && EndsWith(PathName(f), "." + format)
    && !StartsWith(PathName(f), ".")
  }

  /** `old_files`: the existing files of the output template's parent directory. */
  function OldFiles(files: set<FilePath>, s: Settings): (r: set<FilePath>)
    ensures r <= files
    ensures forall f :: f in r ==> Globbed(f, Parent(ParsePath(s.output)), s.outputFormat)
    ensures forall f :: f in files && Globbed(f, Parent(ParsePath(s.output)), s.outputFormat) ==> f in r
  {
    set f | f in files && Globbed(f, Parent(ParsePath(s.output)), s.outputFormat)
  }

  // ------------------------------------------------------------- new files

  /** `create_file_name(song, downloader.output, downloader.output_format)` */
  function Target(song: Song, s: Settings): Result<FilePath, Error> {
    FileName(song, s.output, s.outputFormat, BoolArg(false), NoneArg)
  }

  /** Each song's path in song order, or the first error raised. */
  function Paths(songs: seq<Song>, target: Song -> Result<FilePath, Error>): (r: Result<seq<FilePath>, Error>)
    ensures r.Success? ==> |r.value| == |songs|
    decreases |songs|
  {
    if |songs| == 0 then Success([])
    else
      var paths :- Paths(songs[..|songs| - 1], target);
      var last :- target(songs[|songs| - 1]);
      Success(paths + [last])
  }

  /** `new_files` */
  function NewFiles(songs: seq<Song>, s: Settings): (r: Result<seq<FilePath>, Error>)
    ensures r.Success? ==> |r.value| == |songs|
  {
    Paths(songs, song => Target(song, s))
  }

  /** `to_delete`: the old files no song maps to. */
  function ToDelete(oldFiles: set<FilePath>, newFiles: seq<FilePath>): set<FilePath> {
    oldFiles - set p | p in newFiles
  }

  // ------------------------------------------------------------ scheduling

  /** A song is downloaded when its file is absent, or present and `overwrite` is "force". */
  predicate Wanted(path: FilePath, files: set<FilePath>, overwrite: string) {
    path !in files || overwrite == "force"
  }

  /** `to_download`: the wanted songs, in song order. */
  function Scheduled(songs: seq<Song>, paths: seq<FilePath>, files: set<FilePath>, overwrite: string): seq<Song>
    requires |paths| == |songs|
    decreases |songs|
  {
    if |songs| == 0 then []
    else
      var n := |songs| - 1;
      Scheduled(songs[..n], paths[..n], files, overwrite) + (if Wanted(paths[n], files, overwrite) then [songs[n]] else [])
  }

  /** The "Overwriting" messages logged while scheduling, in song order. */
  function OverwriteLog(songs: seq<Song>, paths: seq<FilePath>, files: set<FilePath>, overwrite: string): seq<Event>
    requires |paths| == |songs|
    decreases |songs|
  {
    if |songs| == 0 then []
    else
      var n := |songs| - 1;
      OverwriteLog(songs[..n], paths[..n], files, overwrite) +
        (if paths[n] in files && overwrite == "force" then [Logged("Overwriting " + songs[n].displayName)] else [])
  }

  /** The last thing sync does: say there is nothing to do, or ask for the downloads. */
  function Finish(scheduled: seq<Song>): Event {
    if |scheduled| == 0 then Logged(NothingToDo) else DownloadRequested(scheduled)
  }

  // ------------------------------------------------------------------ sync

  /** `if m3u_file: create_m3u_file(m3u_file, songs_list, output, output_format, False)` */
  function M3uEvents(m3uFile: Option<string>, songs: seq<Song>, s: Settings): Result<seq<Event>, Error> {
    if m3uFile.Some? && |m3uFile.value| > 0 then
      var content :- M3uContent(songs, s.output, s.outputFormat, false);
      Success([M3uWritten(m3uFile.value, content)])
    else Success([])
  }

  /** The events are Deleted events naming each path of the set once. */
  predicate Enumerates(events: seq<Event>, paths: set<FilePath>) {
    && (forall k :: 0 <= k < |events| ==> events[k].Deleted? && events[k].path in paths)
    && (forall f :: f in paths ==> Deleted(f) in events)
    && (forall j, k :: 0 <= j < k < |events| ==> events[j] != events[k])
  }

  /**
    The end of a sync whose song list, playlist and new file names were all
    built: the playlist event, one Deleted event per file to delete, the
    "Overwriting" messages, then the final event, with the deleted files
    gone from the disk and the scheduling done against what is left.
  */
  ghost predicate Completed(songs: seq<Song>, m3u: seq<Event>, paths: seq<FilePath>, s: Settings,
                            before: set<FilePath>, after: set<FilePath>, events: seq<Event>)
    requires |paths| == |songs|
  {
    var ov := OverwriteLog(songs, paths, after, s.overwrite);
    && after == before - ToDelete(OldFiles(before, s), paths)
    && |events| >= |m3u| + |ov| + 1
    && events[..|m3u|] == m3u
    && Enumerates(events[|m3u|..|events| - |ov| - 1], ToDelete(OldFiles(before, s), paths))
    && events[|events| - |ov| - 1..|events| - 1] == ov
    && events[|events| - 1] == Finish(Scheduled(songs, paths, after, s.overwrite))
  }

  /**
    What sync does, given the files before and after it ran: the events it
    produces and the error it lets escape. Errors from parsing the query,
    from the playlist and from `new_files` escape before anything is
    deleted.
  */
  ghost predicate SyncSpec(c: Catalog, query: seq<string>, s: Settings, m3uFile: Option<string>,
                           before: set<FilePath>, after: set<FilePath>, events: seq<Event>, raised: Option<Error>) {
    match ParsedQuery(c, query)
    case Failure(e) => raised == Some(e) && events == [] && after == before
    case Success(songs) =>
      match M3uEvents(m3uFile, songs, s)
      case Failure(e) => raised == Some(e) && events == [] && after == before
      case Success(m3u) =>
        match NewFiles(songs, s)
        case Failure(e) => raised == Some(e) && events == m3u && after == before
        case Success(paths) => raised == None && Completed(songs, m3u, paths, s, before, after, events)
  }

  /** sync */
  method Sync(c: Catalog, query: seq<string>, s: Settings, m3uFile: Option<string>, disk: Disk)
    returns (events: seq<Event>, raised: Option<Error>)
    modifies disk
    ensures SyncSpec(c, query, s, m3uFile, old(disk.files), disk.files, events, raised)
  {
    var parsed := ParseQuery(c, query);
    if parsed.Failure? {
      return [], Some(parsed.error);
    }
    var songs := parsed.value;
    var m3u := [];
    if m3uFile.Some? && |m3uFile.value| > 0 {
      var written, content := CreateM3uFile(m3uFile.value, songs, s.output, s.outputFormat, false);
      if content.Failure? {
        return [], Some(content.error);
      }
      m3u := [M3uWritten(m3uFile.value, content.value)];
    }
    assert M3uEvents(m3uFile, songs, s) == Success(m3u);
    var newFiles := NewFiles(songs, s);
    if newFiles.Failure? {
      return m3u, Some(newFiles.error);
    }
    events := DeleteAndDownload(songs, m3u, newFiles.value, s, disk);
    raised := None;
  }

  /** Everything sync does once the new file names are known. */
  method DeleteAndDownload(songs: seq<Song>, m3u: seq<Event>, paths: seq<FilePath>, s: Settings, disk: Disk)
    returns (events: seq<Event>)
    requires |paths| == |songs|
    modifies disk
    ensures Completed(songs, m3u, paths, s, old(disk.files), disk.files, events)
  {
    var oldFiles := OldFiles(disk.files, s);
    var toDelete := ToDelete(oldFiles, paths);
    var deleted := Unlinks(disk, toDelete);
    var overwriting, toDownload := ScheduleDownloads(songs, paths, s, disk);
    var last := if |toDownload| == 0 then Logged(NothingToDo) else DownloadRequested(toDownload);
    events := m3u + deleted + overwriting + [last];
    Pieces(m3u, deleted, overwriting, last);
  }

  lemma Pieces(a: seq<Event>, b: seq<Event>, c: seq<Event>, e: Event)
    ensures var all := a + b + c + [e];
      && all[..|a|] == a
      && all[|a|..|all| - |c| - 1] == b
      && all[|all| - |c| - 1..|all| - 1] == c
      && all[|all| - 1] == e
  {
    var all := a + b + c + [e];
    assert all[..|a|] == a;
    assert all[|a|..|all| - |c| - 1] == b;
    assert all[|all| - |c| - 1..|all| - 1] == c;
  }

  /**
    The scheduling loop: each song's path is checked against the files
    that exist now. The source computes the path again with the same
    arguments; create_file_name is deterministic, so that is the path
    `new_files` already holds for the song.
  */
  method ScheduleDownloads(songs: seq<Song>, paths: seq<FilePath>, s: Settings, disk: Disk)
    returns (logged: seq<Event>, toDownload: seq<Song>)
    requires |paths| == |songs|
    ensures toDownload == Scheduled(songs, paths, disk.files, s.overwrite)
    ensures logged == OverwriteLog(songs, paths, disk.files, s.overwrite)
  {
    toDownload := [];
    logged := [];
    var i := 0;
    while i < |songs|
      invariant 0 <= i <= |songs|
      invariant toDownload == Scheduled(songs[..i], paths[..i], disk.files, s.overwrite)
      invariant logged == OverwriteLog(songs[..i], paths[..i], disk.files, s.overwrite)
    {
      var song := songs[i];
      assert songs[..i + 1][..i] == songs[..i] && paths[..i + 1][..i] == paths[..i];
      if paths[i] in disk.files {
        if s.overwrite == "force" {
          logged := logged + [Logged("Overwriting " + song.displayName)];
          toDownload := toDownload + [song];
        }
      } else {
        toDownload := toDownload + [song];
      }
      i := i + 1;
    }
    assert songs[..i] == songs && paths[..i] == paths;
  }

  /** The deletion loop: unlink every file of the set, in some order, recording each. */
  method Unlinks(disk: Disk, toDelete: set<FilePath>) returns (deleted: seq<Event>)
    requires toDelete <= disk.files
    modifies disk
    ensures disk.files == old(disk.files) - toDelete
    ensures Enumerates(deleted, toDelete)
  {
    var remaining := toDelete;
    deleted := [];
    while remaining != {}
      invariant remaining <= toDelete
      invariant disk.files == old(disk.files) - (toDelete - remaining)
      invariant Enumerates(deleted, toDelete - remaining)
      decreases |remaining|
    {
      var f :| f in remaining;
      disk.Unlink(f);
      deleted := deleted + [Deleted(f)];
      remaining := remaining - {f};
    }
  }
}
