/** What the sync command (spotdl/console/sync.py) guarantees. */
module SyncFacts {
  import opened Wrappers
  import opened Errors
  import opened Types
  import opened Formatter
  import opened Query
  import opened M3u
  import opened Sync

  // ------------------------------------------------------------- new files

  /** The paths exist exactly when each song has one; they are then the songs' paths in order. */
  lemma {:induction false} PathsMeaning(songs: seq<Song>, target: Song -> Result<FilePath, Error>)
    ensures Paths(songs, target).Success? <==> forall i :: 0 <= i < |songs| ==> target(songs[i]).Success?
    ensures Paths(songs, target).Success? ==>
      forall i :: 0 <= i < |songs| ==> target(songs[i]) == Success(Paths(songs, target).value[i])
    ensures Paths(songs, target).Failure? ==>
      exists i :: 0 <= i < |songs| && target(songs[i]) == Failure(Paths(songs, target).error) &&
        forall j :: 0 <= j < i ==> target(songs[j]).Success?
    decreases |songs|
  {
    if |songs| > 0 {
      var init := songs[..|songs| - 1];
      assert forall i :: 0 <= i < |init| ==> init[i] == songs[i];
      PathsMeaning(init, target);
    }
  }

  /**
    `new_files` holds every song's target path, in song order, and raises
    the error of the first song whose name cannot be built.
  */
  lemma NewFilesMeaning(songs: seq<Song>, s: Settings)
    ensures NewFiles(songs, s).Success? <==> forall i :: 0 <= i < |songs| ==> Target(songs[i], s).Success?
    ensures NewFiles(songs, s).Success? ==>
      forall i :: 0 <= i < |songs| ==> Target(songs[i], s) == Success(NewFiles(songs, s).value[i])
    ensures NewFiles(songs, s).Failure? ==>
      exists i :: 0 <= i < |songs| && Target(songs[i], s) == Failure(NewFiles(songs, s).error) &&
        forall j :: 0 <= j < i ==> Target(songs[j], s).Success?
  {
    PathsMeaning(songs, song => Target(song, s));
  }

  // -------------------------------------------------------------- deletion

  /** The files deleted are the old files that are not new files: no new file is ever deleted. */
  lemma ToDeleteMeaning(oldFiles: set<FilePath>, paths: seq<FilePath>)
    ensures forall f :: f in ToDelete(oldFiles, paths) <==> f in oldFiles && f !in paths
    ensures forall i :: 0 <= i < |paths| ==> paths[i] !in ToDelete(oldFiles, paths)
  {
  }

  /**
    After a sync that got as far as deleting, a file is gone exactly when it
    was one of the matching files of the output directory and no song's
    target path; every other file, each song's target among them, is
    where it was.
  */
  lemma SyncDeletes(c: Catalog, query: seq<string>, s: Settings, m3uFile: Option<string>,
                    before: set<FilePath>, after: set<FilePath>, events: seq<Event>, raised: Option<Error>,
                    songs: seq<Song>, m3u: seq<Event>, paths: seq<FilePath>)
    requires SyncSpec(c, query, s, m3uFile, before, after, events, raised)
    requires ParsedQuery(c, query) == Success(songs) && M3uEvents(m3uFile, songs, s) == Success(m3u)
    requires NewFiles(songs, s) == Success(paths)
    ensures forall f :: f in before && f !in after <==>
      f in before && Globbed(f, Parent(ParsePath(s.output)), s.outputFormat) && f !in paths
    ensures after <= before
    ensures forall i :: 0 <= i < |paths| ==> (paths[i] in after <==> paths[i] in before)
  {
    assert Completed(songs, m3u, paths, s, before, after, events);
  }

  /** An error from parsing, the playlist or `new_files` leaves every file in place. */
  lemma SyncErrorKeepsFiles(c: Catalog, query: seq<string>, s: Settings, m3uFile: Option<string>,
                            before: set<FilePath>, after: set<FilePath>, events: seq<Event>, raised: Option<Error>)
    requires SyncSpec(c, query, s, m3uFile, before, after, events, raised)
    ensures raised.Some? ==> after == before && forall k :: 0 <= k < |events| ==> events[k].M3uWritten?
  {
  }

  /**
    When a playlist name is given, the first thing sync does is write the
    playlist of the whole song list, before any file is deleted.
  */
  lemma SyncWritesM3uFirst(c: Catalog, query: seq<string>, s: Settings, name: string,
                           before: set<FilePath>, after: set<FilePath>, events: seq<Event>, raised: Option<Error>,
                           songs: seq<Song>, content: string)
    requires SyncSpec(c, query, s, Some(name), before, after, events, raised)
    requires |name| > 0 && ParsedQuery(c, query) == Success(songs)
    requires M3uContent(songs, s.output, s.outputFormat, false) == Success(content)
    ensures |events| > 0 && events[0] == M3uWritten(name, content)
  {
    var m3u := [M3uWritten(name, content)];
    assert M3uEvents(Some(name), songs, s) == Success(m3u);
    var paths := NewFiles(songs, s);
    if paths.Success? {
      CompletedStartsWith(songs, m3u, paths.value, s, before, after, events);
      assert events[..|m3u|] == m3u;
      assert events[0] == events[..|m3u|][0];
    } else {
      assert events == m3u;
    }
  }

  lemma CompletedStartsWith(songs: seq<Song>, m3u: seq<Event>, paths: seq<FilePath>, s: Settings,
                            before: set<FilePath>, after: set<FilePath>, events: seq<Event>)
    requires |paths| == |songs| && Completed(songs, m3u, paths, s, before, after, events)
    ensures |events| >= |m3u| && events[..|m3u|] == m3u
  {
  }

  /** A playlist that cannot be built stops sync before it deletes anything. */
  lemma SyncM3uFails(c: Catalog, query: seq<string>, s: Settings, name: string,
                     before: set<FilePath>, after: set<FilePath>, events: seq<Event>, raised: Option<Error>,
                     songs: seq<Song>, e: Error)
    requires SyncSpec(c, query, s, Some(name), before, after, events, raised)
    requires |name| > 0 && ParsedQuery(c, query) == Success(songs)
    requires M3uContent(songs, s.output, s.outputFormat, false) == Failure(e)
    ensures raised == Some(e) && events == [] && after == before
  {
    assert M3uEvents(Some(name), songs, s) == Failure(e);
  }

  // ------------------------------------------------------------ scheduling

  /**
    `to_download` is the subsequence of the songs whose paths are wanted:
    it picks songs at increasing positions, and a position is picked
    exactly when the path there is absent, or present with overwrite
    "force".
  */
  lemma ScheduledIndices(songs: seq<Song>, paths: seq<FilePath>, files: set<FilePath>, overwrite: string)
    returns (idx: seq<nat>)
    requires |paths| == |songs|
    ensures |idx| == |Scheduled(songs, paths, files, overwrite)|
    ensures forall k :: 0 <= k < |idx| ==> idx[k] < |songs| && Scheduled(songs, paths, files, overwrite)[k] == songs[idx[k]]
    ensures forall j, k :: 0 <= j < k < |idx| ==> idx[j] < idx[k]
    ensures forall i :: 0 <= i < |songs| ==> (i in idx <==> Wanted(paths[i], files, overwrite))
  {
    idx := WantedIndices(paths, files, overwrite);
    WantedIndicesMeaning(paths, files, overwrite);
    ScheduledPicks(songs, paths, files, overwrite);
  }

  /** The positions of the wanted paths, in order. */
  function WantedIndices(paths: seq<FilePath>, files: set<FilePath>, overwrite: string): seq<nat>
    decreases |paths|
  {
    if |paths| == 0 then []
    else
      var n := |paths| - 1;
      WantedIndices(paths[..n], files, overwrite) + (if Wanted(paths[n], files, overwrite) then [n] else [])
  }

  /** The wanted positions increase, and a position is one exactly when its path is wanted. */
  lemma {:induction false} WantedIndicesMeaning(paths: seq<FilePath>, files: set<FilePath>, overwrite: string)
    ensures forall k :: 0 <= k < |WantedIndices(paths, files, overwrite)| ==> WantedIndices(paths, files, overwrite)[k] < |paths|
    ensures forall j, k :: 0 <= j < k < |WantedIndices(paths, files, overwrite)| ==>
      WantedIndices(paths, files, overwrite)[j] < WantedIndices(paths, files, overwrite)[k]
    ensures forall i :: 0 <= i < |paths| ==> (i in WantedIndices(paths, files, overwrite) <==> Wanted(paths[i], files, overwrite))
    decreases |paths|
  {
    if |paths| > 0 {
      var n := |paths| - 1;
      var init := paths[..n];
      WantedIndicesMeaning(init, files, overwrite);
      var front := WantedIndices(init, files, overwrite);
      assert n !in front;
      forall i | 0 <= i < n
        ensures i in WantedIndices(paths, files, overwrite) <==> Wanted(paths[i], files, overwrite)
      {
        assert init[i] == paths[i];
      }
    }
  }

  /** The scheduled songs are the songs at the wanted positions. */
  lemma {:induction false} ScheduledPicks(songs: seq<Song>, paths: seq<FilePath>, files: set<FilePath>, overwrite: string)
    requires |paths| == |songs|
    ensures |Scheduled(songs, paths, files, overwrite)| == |WantedIndices(paths, files, overwrite)|
    ensures forall k :: 0 <= k < |WantedIndices(paths, files, overwrite)| ==>
      WantedIndices(paths, files, overwrite)[k] < |songs| &&
      Scheduled(songs, paths, files, overwrite)[k] == songs[WantedIndices(paths, files, overwrite)[k]]
    decreases |songs|
  {
    WantedIndicesMeaning(paths, files, overwrite);
    if |songs| > 0 {
      var n := |songs| - 1;
      ScheduledPicks(songs[..n], paths[..n], files, overwrite);
      var front := WantedIndices(paths[..n], files, overwrite);
      WantedIndicesMeaning(paths[..n], files, overwrite);
      forall k | 0 <= k < |front|
        ensures Scheduled(songs, paths, files, overwrite)[k] == songs[front[k]]
      {
        assert songs[..n][front[k]] == songs[front[k]];
      }
    }
  }

  /** A song whose file does not exist is always downloaded. */
  lemma AbsentScheduled(songs: seq<Song>, paths: seq<FilePath>, files: set<FilePath>, overwrite: string, i: nat)
    requires |paths| == |songs| && i < |songs| && paths[i] !in files
    ensures exists k :: 0 <= k < |Scheduled(songs, paths, files, overwrite)| && Scheduled(songs, paths, files, overwrite)[k] == songs[i]
  {
    var idx := ScheduledIndices(songs, paths, files, overwrite);
    var k :| 0 <= k < |idx| && idx[k] == i;
  }

  /** With overwrite "force" every song is downloaded, in song order. */
  lemma {:induction false} ForceSchedulesAll(songs: seq<Song>, paths: seq<FilePath>, files: set<FilePath>)
    requires |paths| == |songs|
    ensures Scheduled(songs, paths, files, "force") == songs
    decreases |songs|
  {
    if |songs| > 0 {
      var n := |songs| - 1;
      ForceSchedulesAll(songs[..n], paths[..n], files);
      assert songs[..n] + [songs[n]] == songs;
    }
  }

  /**
    Without "force", `to_download` is the subsequence of the songs whose
    files do not exist.
  */
  lemma NoForceSkipsExisting(songs: seq<Song>, paths: seq<FilePath>, files: set<FilePath>, overwrite: string)
    returns (idx: seq<nat>)
    requires |paths| == |songs| && overwrite != "force"
    ensures |idx| == |Scheduled(songs, paths, files, overwrite)|
    ensures forall k :: 0 <= k < |idx| ==> idx[k] < |songs| && Scheduled(songs, paths, files, overwrite)[k] == songs[idx[k]]
    ensures forall j, k :: 0 <= j < k < |idx| ==> idx[j] < idx[k]
    ensures forall i :: 0 <= i < |songs| ==> (i in idx <==> paths[i] !in files)
  {
    idx := ScheduledIndices(songs, paths, files, overwrite);
  }

  /** One "Overwriting" message per existing file, and none without "force". */
  lemma {:induction false} OverwriteLogCount(songs: seq<Song>, paths: seq<FilePath>, files: set<FilePath>, overwrite: string)
    requires |paths| == |songs|
    ensures |OverwriteLog(songs, paths, files, overwrite)| ==
      (if overwrite == "force" then |set i | 0 <= i < |songs| && paths[i] in files| else 0)
    decreases |songs|
  {
    if |songs| > 0 {
      var n := |songs| - 1;
      OverwriteLogCount(songs[..n], paths[..n], files, overwrite);
      var front := set i | 0 <= i < n && paths[..n][i] in files;
      var all := set i | 0 <= i < |songs| && paths[i] in files;
      assert all == front + (if paths[n] in files then {n} else {});
    }
  }

  /**
    "Nothing to do..." is logged, and no download requested, exactly when
    no song is wanted.
  */
  lemma NothingToDoIff(songs: seq<Song>, paths: seq<FilePath>, files: set<FilePath>, overwrite: string)
    requires |paths| == |songs|
    ensures Finish(Scheduled(songs, paths, files, overwrite)) == Logged(NothingToDo) <==>
      forall i :: 0 <= i < |songs| ==> !Wanted(paths[i], files, overwrite)
    ensures !Finish(Scheduled(songs, paths, files, overwrite)).DownloadRequested? <==>
      forall i :: 0 <= i < |songs| ==> !Wanted(paths[i], files, overwrite)
  {
    var idx := ScheduledIndices(songs, paths, files, overwrite);
    if |idx| > 0 {
      assert idx[0] in idx;
    }
  }

  /**
    Deleting never changes what is scheduled: the scheduling loop looks
    only at the songs' own paths, and none of them is deleted.
  */
  lemma {:induction false} ScheduledAfterDeletion(songs: seq<Song>, paths: seq<FilePath>, files: set<FilePath>,
                                                   toDelete: set<FilePath>, overwrite: string)
    requires |paths| == |songs|
    requires forall i :: 0 <= i < |paths| ==> paths[i] !in toDelete
    ensures Scheduled(songs, paths, files - toDelete, overwrite) == Scheduled(songs, paths, files, overwrite)
    ensures OverwriteLog(songs, paths, files - toDelete, overwrite) == OverwriteLog(songs, paths, files, overwrite)
    decreases |songs|
  {
    if |songs| > 0 {
      var n := |songs| - 1;
      ScheduledAfterDeletion(songs[..n], paths[..n], files, toDelete, overwrite);
    }
  }
}
