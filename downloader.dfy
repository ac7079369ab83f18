/**
  The downloader's side of the progress accounting
  (spotdl/download/downloader.py): the handler it builds, and the calls it
  makes into the handler and the trackers while a run of songs downloads.
  Only the path on which every download, conversion and tagging step
  succeeds is modelled; what the providers return for a song (its URL,
  whether lyrics were found) is an input.
*/
module Downloader {
  import opened Wrappers
  import opened Errors
  import opened Types
  import opened Progress

  /**
    The downloader's handler: `ProgressHandler(NAME_TO_LEVEL[log_level],
    simple_tui)`, then the "Downloader initialized" debug message. A name
    outside NAME_TO_LEVEL raises KeyError; every name in it gives a level
    the handler accepts, so ProgressHandlerError cannot come from here.
  */
  method NewDownloaderHandler(logLevelName: string, simpleTui: bool) returns (r: Result<ProgressHandler, Error>)
    ensures r.Failure? <==> logLevelName !in NameToLevel
    ensures r.Failure? ==> r.error == KeyError
    ensures r.Success? ==> fresh(r.value) && r.value.Valid() && r.value.logLevel == NameToLevel[logLevelName]
    ensures r.Success? ==> r.value.simpleTui == simpleTui && r.value.songs == [] && r.value.reported == []
    ensures r.Success? ==> r.value.songCount == 0 && r.value.overallTotal == 100 && r.value.overallProgress == 0
    ensures r.Success? ==> r.value.overallCompletedTasks == 0 && r.value.previousOverall == 0
    ensures r.Success? ==> !r.value.hasOverallTask
    ensures r.Success? ==> r.value.shown == Emitted(Debug, NameToLevel[logLevelName], "Downloader initialized")
  {
    if logLevelName !in NameToLevel {
      return Failure(KeyError);
    }
    NamedLevelsAccepted(logLevelName);
    var made := NewProgressHandler(NameToLevel[logLevelName], simpleTui);
    var h := made.value;
    h.DebugMessage("Downloader initialized");
    return Success(h);
  }

  /** The debug message of a song without lyrics. */
  function LyricsMessage(song: Song): string {
    "No lyrics found for " + song.name + " - " + song.artist
  }

  /** The message logged once a song is downloaded from the URL. */
  function DownloadedMessage(song: Song, url: string): string {
    "Downloaded \"" + song.displayName + "\": " + url
  }

  /**
    What one successful download shows, given the handler's previous and
    completed counts before it: the three tracker updates, the lyrics
    message between conversion and completion when no lyrics were found,
    and the closing "Downloaded" line.
  */
  function SongLog(simpleTui: bool, level: int, song: Song, url: string, lyricsFound: bool,
                   previous: int, completed: int, songCount: int): seq<Message>
  {
    UpdateLog(simpleTui, level, song, "Converting", previous, completed, songCount) +
    UpdateLog(simpleTui, level, song, "Tagging", completed, completed, songCount) +
    (if lyricsFound then [] else Emitted(Debug, level, LyricsMessage(song))) +
    UpdateLog(simpleTui, level, song, "Done", completed, completed + 1, songCount) +
    Emitted(Info, level, DownloadedMessage(song, url))
  }

  /** `previous_overall` after k successful downloads: simple mode records the completed count. */
  function PreviousAfter(simpleTui: bool, previous: int, completed: int, k: nat): int {
    if simpleTui && k > 0 then completed + k else previous
  }

  /** What each download of a run shows, song by song, given the counts when the run started. */
  function SongLogs(simpleTui: bool, level: int, songs: seq<Song>, urls: seq<string>, lyricsFound: seq<bool>,
                    previous: int, completed: int): (r: seq<seq<Message>>)
    requires |urls| == |songs| && |lyricsFound| == |songs|
  {
    seq(|songs|, k requires 0 <= k < |songs| =>
      SongLog(simpleTui, level, songs[k], urls[k], lyricsFound[k],
              PreviousAfter(simpleTui, previous, completed, k), completed + k, |songs|))
  }

  /** The first k logs, one after another. */
  function Concat(logs: seq<seq<Message>>, k: nat): seq<Message>
    requires k <= |logs|
  {
    if k == 0 then [] else Concat(logs, k - 1) + logs[k - 1]
  }

  /**
    download_song_async when every step succeeds: a fresh tracker goes
    through download, conversion and completion with the default statuses,
    the lyrics message comes before completion when no lyrics were found,
    and the handler logs the song's URL. `url` and `lyricsFound` stand for
    what the audio and lyrics providers returned. No update is rejected;
    the song adds 100 to the overall progress and counts as finished once,
    only this tracker's slot changes, and rich mode removes its task.
  */
  method DownloadOne(t: SongTracker, url: string, lyricsFound: bool)
    requires t.Valid() && t.progress == 0 && t.oldProgress == 0 && !t.taskRemoved
    modifies t, t.parent
    ensures t.Valid() && t.status == "Done" && t.progress == 100 && t.oldProgress == 100
    ensures t.taskRemoved == !t.parent.simpleTui
    ensures t.parent.reported == old(t.parent.reported)[t.slot := 100]
    ensures t.parent.overallProgress == old(t.parent.overallProgress) + 100
    ensures t.parent.overallCompletedTasks == old(t.parent.overallCompletedTasks) + 1
    ensures t.parent.shown == old(t.parent.shown) +
      SongLog(t.parent.simpleTui, t.parent.logLevel, t.song, url, lyricsFound,
              old(t.parent.previousOverall), old(t.parent.overallCompletedTasks), t.parent.songCount)
    ensures t.parent.previousOverall ==
      PreviousAfter(t.parent.simpleTui, old(t.parent.previousOverall), old(t.parent.overallCompletedTasks), 1)
    ensures t.parent.SettingsKept()
  {
    var h := t.parent;
    ghost var simple, level, n, c := h.simpleTui, h.logLevel, h.songCount, h.overallCompletedTasks;
    ghost var converting := UpdateLog(simple, level, t.song, "Converting", h.previousOverall, c, n);
    ghost var tagging := UpdateLog(simple, level, t.song, "Tagging", c, c, n);
    ghost var lyrics := if lyricsFound then [] else Emitted(Debug, level, LyricsMessage(t.song));
    ghost var done := UpdateLog(simple, level, t.song, "Done", c, c + 1, n);
    ghost var downloaded := Emitted(Info, level, DownloadedMessage(t.song, url));
    Convert(t);
    ghost var s2 := h.shown;
    if !lyricsFound {
      h.DebugMessage(LyricsMessage(t.song));
    }
    assert h.shown == s2 + lyrics;
    Finish(t, url);
    ConcatFive(old(h.shown), converting, tagging, lyrics, done, downloaded);
  }

  /** Regrouping a concatenation, given to the solver rather than searched for. */
  lemma ConcatAssoc<T>(a: seq<T>, b: seq<T>, c: seq<T>)
    ensures a + b + c == a + (b + c)
  {
  }

  /** The same for a log made of five parts. */
  lemma ConcatFive<T>(s: seq<T>, a: seq<T>, b: seq<T>, c: seq<T>, d: seq<T>, e: seq<T>)
    ensures s + a + b + c + d + e == s + (a + b + c + d + e)
  {
  }

  /** The download and conversion steps of download_song_async (75, then 95). */
  method Convert(t: SongTracker)
    requires t.Valid() && t.progress == 0 && t.oldProgress == 0 && !t.taskRemoved
    modifies t, t.parent
    ensures t.Valid() && t.status == "Tagging" && t.progress == 95 && t.oldProgress == 95 && !t.taskRemoved
    ensures t.parent.reported == old(t.parent.reported)[t.slot := 95]
    ensures t.parent.overallProgress == old(t.parent.overallProgress) + 95
    ensures t.parent.overallCompletedTasks == old(t.parent.overallCompletedTasks)
    ensures t.parent.shown == old(t.parent.shown) +
      UpdateLog(t.parent.simpleTui, t.parent.logLevel, t.song, "Converting",
                old(t.parent.previousOverall), t.parent.overallCompletedTasks, t.parent.songCount) +
      UpdateLog(t.parent.simpleTui, t.parent.logLevel, t.song, "Tagging",
                t.parent.overallCompletedTasks, t.parent.overallCompletedTasks, t.parent.songCount)
    ensures t.parent.simpleTui ==> t.parent.previousOverall == t.parent.overallCompletedTasks
    ensures !t.parent.simpleTui ==> t.parent.previousOverall == old(t.parent.previousOverall)
    ensures t.parent.SettingsKept()
  {
    var e1 := t.NotifyDownloadComplete("Converting");
    var e2 := t.NotifyConversionComplete("Tagging");
  }

  /** The completion step of download_song_async and its "Downloaded" line. */
  method Finish(t: SongTracker, url: string)
    requires t.Valid() && t.progress == 95 && t.oldProgress == 95 && !t.taskRemoved
    modifies t, t.parent
    ensures t.Valid() && t.status == "Done" && t.progress == 100 && t.oldProgress == 100
    ensures t.taskRemoved == !t.parent.simpleTui
    ensures t.parent.reported == old(t.parent.reported)[t.slot := 100]
    ensures t.parent.overallProgress == old(t.parent.overallProgress) + 5
    ensures t.parent.overallCompletedTasks == old(t.parent.overallCompletedTasks) + 1
    ensures t.parent.shown == old(t.parent.shown) +
      UpdateLog(t.parent.simpleTui, t.parent.logLevel, t.song, "Done",
                old(t.parent.previousOverall), t.parent.overallCompletedTasks, t.parent.songCount) +
      Emitted(Info, t.parent.logLevel, DownloadedMessage(t.song, url))
    ensures t.parent.simpleTui ==> t.parent.previousOverall == t.parent.overallCompletedTasks
    ensures !t.parent.simpleTui ==> t.parent.previousOverall == old(t.parent.previousOverall)
    ensures t.parent.SettingsKept()
  {
    var e3 := t.NotifyComplete("Done");
    t.parent.LogMessage(DownloadedMessage(t.song, url));
  }

  /**
    The trackers of a download run, every song's created before any of
    them reports; each takes the next slot of `reported`. A tracker is
    created inside the `threads`-wide semaphore, so this order can happen
    only when there are no more songs than `threads`; for a longer run it
    is an assumption of the model.
  */
  method NewTrackers(h: ProgressHandler, songs: seq<Song>) returns (trackers: seq<SongTracker>)
    requires h.Valid()
    modifies h
    ensures h.Valid() && |trackers| == |songs|
    ensures h.reported == old(h.reported) + seq(|songs|, _ => 0)
    ensures h.overallProgress == old(h.overallProgress)
    ensures h.overallCompletedTasks == old(h.overallCompletedTasks)
    ensures h.shown == old(h.shown) && h.previousOverall == old(h.previousOverall)
    ensures h.SettingsKept()
    ensures forall j :: 0 <= j < |trackers| ==>
      fresh(trackers[j]) && trackers[j].parent == h && trackers[j].song == songs[j] &&
      trackers[j].slot == |old(h.reported)| + j && trackers[j].progress == 0 &&
      trackers[j].oldProgress == 0 && trackers[j].status == "" && !trackers[j].taskRemoved
  {
    trackers := [];
    while |trackers| < |songs|
      invariant h.Valid() && |trackers| <= |songs|
      invariant h.reported == old(h.reported) + seq(|trackers|, _ => 0)
      invariant h.overallProgress == old(h.overallProgress)
      invariant h.overallCompletedTasks == old(h.overallCompletedTasks)
      invariant h.shown == old(h.shown) && h.previousOverall == old(h.previousOverall)
      invariant h.SettingsKept()
      invariant forall j :: 0 <= j < |trackers| ==>
        fresh(trackers[j]) && trackers[j].parent == h && trackers[j].song == songs[j] &&
        trackers[j].slot == |old(h.reported)| + j && trackers[j].progress == 0 &&
        trackers[j].oldProgress == 0 && trackers[j].status == "" && !trackers[j].taskRemoved
    {
      var t := h.NewTracker(songs[|trackers|]);
      trackers := trackers + [t];
      assert h.reported == old(h.reported) + seq(|trackers|, _ => 0);
    }
  }

  /**
    download_multiple_songs: the song count is set, the trackers are
    created, and each song is downloaded while the others' trackers are
    live. `urls` and `lyricsFound` stand for what the providers returned
    for each song. The overall progress grows by 100 per song, every song
    counts as finished exactly once, every tracker stays valid through the
    others' updates, and the messages are those of the songs in order.
  */
  method DownloadSongs(h: ProgressHandler, songs: seq<Song>, urls: seq<string>, lyricsFound: seq<bool>)
    returns (trackers: seq<SongTracker>)
    requires h.Valid() && |urls| == |songs| && |lyricsFound| == |songs|
    modifies h
    ensures h.Valid() && |trackers| == |songs|
    ensures h.songCount == |songs| && h.overallTotal == 100 * |songs|
    ensures h.hasOverallTask == (old(h.hasOverallTask) || (!h.simpleTui && |songs| > 4))
    ensures h.songs == old(h.songs) && h.logLevel == old(h.logLevel)
    ensures h.simpleTui == old(h.simpleTui) && h.quiet == old(h.quiet)
    ensures h.reported == old(h.reported) + seq(|songs|, _ => 100)
    ensures h.overallProgress == old(h.overallProgress) + 100 * |songs|
    ensures h.overallCompletedTasks == old(h.overallCompletedTasks) + |songs|
    ensures h.shown == old(h.shown) +
      Concat(SongLogs(h.simpleTui, h.logLevel, songs, urls, lyricsFound,
                      old(h.previousOverall), old(h.overallCompletedTasks)), |songs|)
    ensures h.previousOverall ==
      PreviousAfter(h.simpleTui, old(h.previousOverall), old(h.overallCompletedTasks), |songs|)
    ensures forall j :: 0 <= j < |trackers| ==>
      trackers[j].parent == h && trackers[j].song == songs[j] && trackers[j].status == "Done" &&
      trackers[j].progress == 100 && trackers[j].oldProgress == 100 &&
      trackers[j].slot == |old(h.reported)| + j &&
      trackers[j].taskRemoved == !h.simpleTui && trackers[j].Valid()
  {
    h.SetSongCount(|songs|);
    ghost var before := h.reported;
    trackers := NewTrackers(h, songs);
    ghost var logs := SongLogs(h.simpleTui, h.logLevel, songs, urls, lyricsFound,
                               h.previousOverall, h.overallCompletedTasks);
    DownloadEach(h, trackers, songs, urls, lyricsFound, |before|, logs);
    forall k | 0 <= k < |h.reported|
      ensures h.reported[k] == (before + seq(|songs|, _ => 100))[k]
    {
      if k >= |before| {
        assert trackers[k - |before|].slot == k;
      }
    }
  }

  /**
    The trackers of a run after the first i songs were downloaded: each
    reports into `h` for its song, tracker j at slot `base + j`; the first
    i are done, the others have not reported yet.
  */
  ghost predicate Progressed(h: ProgressHandler, trackers: seq<SongTracker>, songs: seq<Song>, base: nat, i: int)
    reads h, trackers
  {
    && 0 <= i <= |trackers| == |songs| && base + |trackers| <= |h.reported|
    && (forall j :: 0 <= j < |trackers| ==>
          trackers[j].parent == h && trackers[j].song == songs[j] && trackers[j].slot == base + j)
    && (forall j :: 0 <= j < i ==>
          trackers[j].status == "Done" && trackers[j].progress == 100 && trackers[j].oldProgress == 100 &&
          trackers[j].taskRemoved == !h.simpleTui && h.reported[trackers[j].slot] == 100)
    && (forall j :: i <= j < |trackers| ==>
          trackers[j].progress == 0 && trackers[j].oldProgress == 0 && !trackers[j].taskRemoved &&
          h.reported[trackers[j].slot] == 0)
  }

  /**
    A run after its first i downloads, against the handler's `reported`,
    overall progress, messages and counts when the run started, where
    `logs` holds what each download shows: the slots before the run's are
    as they were, and the messages are the first i logs, in order.
  */
  ghost predicate Run(h: ProgressHandler, trackers: seq<SongTracker>, songs: seq<Song>, base: nat, i: int,
                      reported0: seq<int>, progress0: int, shown0: seq<Message>, logs: seq<seq<Message>>,
                      previous0: int, completed0: int)
    reads h, trackers
  {
    && h.Valid() && h.songCount == |songs| && Progressed(h, trackers, songs, base, i)
    && |logs| == |songs| && |h.reported| == |reported0| && base <= |reported0|
    && h.reported[..base] == reported0[..base]
    && h.overallProgress == progress0 + 100 * i
    && h.overallCompletedTasks == completed0 + i
    && h.shown == shown0 + Concat(logs, i)
    && h.previousOverall == PreviousAfter(h.simpleTui, previous0, completed0, i)
  }

  /** The download of song i of a run, leaving the other trackers as they were. */
  method DownloadNext(h: ProgressHandler, trackers: seq<SongTracker>, songs: seq<Song>,
                      urls: seq<string>, lyricsFound: seq<bool>, ghost base: nat, i: nat,
                      ghost reported0: seq<int>, ghost progress0: int, ghost shown0: seq<Message>,
                      ghost logs: seq<seq<Message>>, ghost previous0: int, ghost completed0: int)
    requires Run(h, trackers, songs, base, i, reported0, progress0, shown0, logs, previous0, completed0)
    requires i < |trackers| && |urls| == |songs| && |lyricsFound| == |songs|
    requires logs == SongLogs(h.simpleTui, h.logLevel, songs, urls, lyricsFound, previous0, completed0)
    modifies h, trackers[i]
    ensures h.SettingsKept()
    ensures Run(h, trackers, songs, base, i + 1, reported0, progress0, shown0, logs, previous0, completed0)
  {
    var t := trackers[i];
    assert t.slot == base + i && t.song == songs[i] && t.parent == h;
    assert forall j :: 0 <= j < |trackers| && j != i ==> trackers[j].slot != t.slot;
    ghost var log := logs[i];
    DownloadOne(t, urls[i], lyricsFound[i]);
    assert h.reported[..base] == old(h.reported)[..base];
    assert h.shown == old(h.shown) + log;
    ConcatAssoc(shown0, Concat(logs, i), log);
  }

  /** The downloads of a run, one song after another, tracker j at slot `base + j`. */
  method DownloadEach(h: ProgressHandler, trackers: seq<SongTracker>, songs: seq<Song>,
                      urls: seq<string>, lyricsFound: seq<bool>, ghost base: nat, ghost logs: seq<seq<Message>>)
    requires h.Valid() && h.songCount == |songs| && Progressed(h, trackers, songs, base, 0)
    requires |urls| == |songs| && |lyricsFound| == |songs|
    requires logs == SongLogs(h.simpleTui, h.logLevel, songs, urls, lyricsFound,
                              h.previousOverall, h.overallCompletedTasks)
    modifies h, trackers
    ensures h.SettingsKept()
    ensures Run(h, trackers, songs, base, |songs|, old(h.reported), old(h.overallProgress),
                old(h.shown), logs, old(h.previousOverall), old(h.overallCompletedTasks))
  {
    var i := 0;
    while i < |trackers|
      invariant 0 <= i <= |trackers| && h.SettingsKept()
      invariant Run(h, trackers, songs, base, i, old(h.reported), old(h.overallProgress),
                    old(h.shown), logs, old(h.previousOverall), old(h.overallCompletedTasks))
    {
      DownloadNext(h, trackers, songs, urls, lyricsFound, base, i, old(h.reported), old(h.overallProgress),
                   old(h.shown), logs, old(h.previousOverall), old(h.overallCompletedTasks));
      i := i + 1;
    }
  }
}
