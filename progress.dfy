/**
  Progress accounting (spotdl/download/progress_handler.py): the handler's
  counters, the log-level gate on its messages, and the per-song trackers
  that report into it.

  The rich progress bars, the console and the logging module's output are
  not modelled; what reaches the user is recorded as the handler's `shown`
  messages, each with the severity it was emitted at.
*/
module Progress {
  import opened Wrappers
  import opened Errors
  import opened Strings
  import opened Types

  // The logging levels of the Python standard library.
  const Critical := 50
  const ErrorLevel := 40
  const Warning := 30
  const Info := 20
  const Debug := 10
  const NotSet := 0

  const Fatal := Critical

  /** LEVEL_TO_NAME */
  const LevelToName: map<int, string> :=
    map[Critical := "CRITICAL", ErrorLevel := "ERROR", Warning := "WARNING",
        Info := "INFO", Debug := "DEBUG", NotSet := "NOTSET"]

  /** NAME_TO_LEVEL: the names the command line offers for `--log-level`. */
  const NameToLevel: map<string, int> :=
    map["CRITICAL" := Critical, "FATAL" := Fatal, "ERROR" := ErrorLevel, "WARN" := Warning,
        "WARNING" := Warning, "INFO" := Info, "DEBUG" := Debug, "NOTSET" := NotSet]

  /** Every named level is one the handler accepts. */
  lemma NamedLevelsAccepted(name: string)
    requires name in NameToLevel
    ensures NameToLevel[name] in LevelToName
  {
  }

  /** A message that reached the console or the log. */
  datatype Message = Message(severity: int, text: string)

  /**
    Whether a message of the severity is shown at the level. The rich
    branch returns early when `log_level` exceeds the severity; the simple
    branch leaves it to the logging module, which drops records below the
    configured level. Both come to the same test.
  */
  predicate Shows(severity: int, level: int) {
    level <= severity
  }

  /** The messages one call of debug/log/warn/error adds. */
  function Emitted(severity: int, level: int, text: string): (r: seq<Message>)
    ensures |r| <= 1
    ensures r == [] <==> !Shows(severity, level)
    ensures |r| == 1 ==> r[0] == Message(severity, text)
  {
    if Shows(severity, level) then [Message(severity, text)] else []
  }

  /** The message update_overall logs in simple mode, when the completed count moved. */
  function OverallMessage(completed: int, songCount: int): string {
    IntToString(completed) + "/" + IntToString(songCount) + " complete"
  }

  /** The message a tracker logs after each update in simple mode. */
  function TrackerMessage(song: Song, message: string): string {
    song.name + " - " + song.artist + ": " + message
  }

  /** Whether an update counts its song as finished. */
  predicate Finishes(progress: int, message: string) {
    progress == 100 || message == "Error"
  }

  /** Sum of a sequence. */
  function Sum(xs: seq<int>): int
    decreases |xs|
  {
    if |xs| == 0 then 0 else Sum(xs[..|xs| - 1]) + xs[|xs| - 1]
  }

  lemma {:induction false} SumUpdate(xs: seq<int>, i: nat, v: int)
    requires i < |xs|
    ensures Sum(xs[i := v]) == Sum(xs) - xs[i] + v
    decreases |xs|
  {
    var n := |xs| - 1;
    if i < n {
      assert xs[i := v][..n] == xs[..n][i := v];
      SumUpdate(xs[..n], i, v);
    } else {
      assert xs[i := v][..n] == xs[..n];
    }
  }

  lemma SumAppend(xs: seq<int>, v: int)
    ensures Sum(xs + [v]) == Sum(xs) + v
  {
    assert (xs + [v])[..|xs|] == xs;
  }

  /** Once every tracker has reported 100, the overall progress is 100 per song. */
  lemma {:induction false} SumAllComplete(xs: seq<int>)
    requires forall i :: 0 <= i < |xs| ==> xs[i] == 100
    ensures Sum(xs) == 100 * |xs|
    decreases |xs|
  {
    if |xs| > 0 {
      SumAllComplete(xs[..|xs| - 1]);
    }
  }

  class ProgressHandler {
    var songs: seq<Song>
    var songCount: int
    var overallProgress: int
    var overallTotal: int
    var overallCompletedTasks: int
    var previousOverall: int
    var logLevel: int
    var simpleTui: bool
    var quiet: bool
    /** `overall_task_id is not None`: the "Total" bar exists. */
    var hasOverallTask: bool
    var shown: seq<Message>
    /** The progress each tracker, by creation order, last reported. */
    ghost var reported: seq<int>

    /**
      The level is a known one, `quiet` means below DEBUG, and the overall
      progress is the sum of what the trackers last reported.
    */
    ghost predicate Valid()
      reads this
    {
      && logLevel in LevelToName
      && quiet == (logLevel < 10)
      && overallProgress == Sum(reported)
    }

    /** `__init__` once the level has passed its check. */
    constructor (logLevel: int, simpleTui: bool)
      requires logLevel in LevelToName
      ensures Valid()
      ensures this.logLevel == logLevel && this.simpleTui == simpleTui
      ensures songs == [] && songCount == 0
      ensures overallProgress == 0 && overallTotal == 100
      ensures overallCompletedTasks == 0 && previousOverall == 0
      ensures !hasOverallTask && shown == [] && reported == []
    {
      songs := [];
      songCount := 0;
      overallProgress := 0;
      overallTotal := 100;
      overallCompletedTasks := 0;
      previousOverall := 0;
      this.logLevel := logLevel;
      this.simpleTui := simpleTui;
      quiet := logLevel < 10;
      hasOverallTask := false;
      shown := [];
      reported := [];
    }

    /** set_song_count: the total is 100 per song; rich mode adds the "Total" bar for more than four songs. */
    method SetSongCount(count: int)
      modifies this
      ensures songCount == count && overallTotal == 100 * count
      ensures hasOverallTask == (old(hasOverallTask) || (!simpleTui && count > 4))
      ensures songs == old(songs) && shown == old(shown) && reported == old(reported)
      ensures overallProgress == old(overallProgress) && overallCompletedTasks == old(overallCompletedTasks)
      ensures previousOverall == old(previousOverall)
      ensures logLevel == old(logLevel) && simpleTui == old(simpleTui) && quiet == old(quiet)
    {
      songCount := count;
      overallTotal := 100 * count;
      if !simpleTui {
        if songCount > 4 {
          hasOverallTask := true;
        }
      }
    }

    /** add_song */
    method AddSong(song: Song)
      modifies this
      ensures songs == old(songs) + [song]
      ensures songCount == |songs| && overallTotal == 100 * |songs|
      ensures hasOverallTask == (old(hasOverallTask) || (!simpleTui && |songs| > 4))
      ensures shown == old(shown) && reported == old(reported)
      ensures overallProgress == old(overallProgress) && overallCompletedTasks == old(overallCompletedTasks)
      ensures previousOverall == old(previousOverall)
      ensures logLevel == old(logLevel) && simpleTui == old(simpleTui) && quiet == old(quiet)
    {
      songs := songs + [song];
      SetSongCount(|songs|);
    }

    /** set_songs */
    method SetSongs(newSongs: seq<Song>)
      modifies this
      ensures songs == newSongs
      ensures songCount == |newSongs| && overallTotal == 100 * |newSongs|
      ensures hasOverallTask == (old(hasOverallTask) || (!simpleTui && |newSongs| > 4))
      ensures shown == old(shown) && reported == old(reported)
      ensures overallProgress == old(overallProgress) && overallCompletedTasks == old(overallCompletedTasks)
      ensures previousOverall == old(previousOverall)
      ensures logLevel == old(logLevel) && simpleTui == old(simpleTui) && quiet == old(quiet)
    {
      songs := newSongs;
      SetSongCount(|newSongs|);
    }

    /** The shared body of debug, log, warn and error. */
    method Emit(severity: int, text: string)
      modifies this
      ensures shown == old(shown) + Emitted(severity, logLevel, text)
      ensures songs == old(songs) && songCount == old(songCount) && overallTotal == old(overallTotal)
      ensures overallProgress == old(overallProgress) && overallCompletedTasks == old(overallCompletedTasks)
      ensures previousOverall == old(previousOverall) && hasOverallTask == old(hasOverallTask)
      ensures logLevel == old(logLevel) && simpleTui == old(simpleTui) && quiet == old(quiet)
      ensures reported == old(reported)
    {
      if !simpleTui {
        if logLevel > severity {
          return;
        }
        shown := shown + [Message(severity, text)];
      } else {
        if severity >= logLevel {
          shown := shown + [Message(severity, text)];
        }
      }
    }

    /** debug */
    method DebugMessage(text: string)
      modifies this
      ensures shown == old(shown) + (if logLevel <= Debug then [Message(Debug, text)] else [])
      ensures songs == old(songs) && songCount == old(songCount) && overallTotal == old(overallTotal)
      ensures overallProgress == old(overallProgress) && overallCompletedTasks == old(overallCompletedTasks)
      ensures previousOverall == old(previousOverall) && hasOverallTask == old(hasOverallTask)
      ensures logLevel == old(logLevel) && simpleTui == old(simpleTui) && quiet == old(quiet)
      ensures reported == old(reported)
    {
      Emit(Debug, text);
    }

    /** log */
    method LogMessage(text: string)
      modifies this
      ensures shown == old(shown) + (if logLevel <= Info then [Message(Info, text)] else [])
      ensures songs == old(songs) && songCount == old(songCount) && overallTotal == old(overallTotal)
      ensures overallProgress == old(overallProgress) && overallCompletedTasks == old(overallCompletedTasks)
      ensures previousOverall == old(previousOverall) && hasOverallTask == old(hasOverallTask)
      ensures logLevel == old(logLevel) && simpleTui == old(simpleTui) && quiet == old(quiet)
      ensures reported == old(reported)
    {
      Emit(Info, text);
    }

    /** warn */
    method WarnMessage(text: string)
      modifies this
      ensures shown == old(shown) + (if logLevel <= Warning then [Message(Warning, text)] else [])
      ensures songs == old(songs) && songCount == old(songCount) && overallTotal == old(overallTotal)
      ensures overallProgress == old(overallProgress) && overallCompletedTasks == old(overallCompletedTasks)
      ensures previousOverall == old(previousOverall) && hasOverallTask == old(hasOverallTask)
      ensures logLevel == old(logLevel) && simpleTui == old(simpleTui) && quiet == old(quiet)
      ensures reported == old(reported)
    {
      Emit(Warning, text);
    }

    /** error */
    method ErrorMessage(text: string)
      modifies this
      ensures shown == old(shown) + (if logLevel <= ErrorLevel then [Message(ErrorLevel, text)] else [])
      ensures songs == old(songs) && songCount == old(songCount) && overallTotal == old(overallTotal)
      ensures overallProgress == old(overallProgress) && overallCompletedTasks == old(overallCompletedTasks)
      ensures previousOverall == old(previousOverall) && hasOverallTask == old(hasOverallTask)
      ensures logLevel == old(logLevel) && simpleTui == old(simpleTui) && quiet == old(quiet)
      ensures reported == old(reported)
    {
      Emit(ErrorLevel, text);
    }

    /**
      update_overall. In rich mode it only redraws the "Total" bar; in
      simple mode it logs the completed count when it moved since the last
      call, and records it.
    */
    method UpdateOverall()
      modifies this
      ensures simpleTui && old(previousOverall) != overallCompletedTasks ==>
        shown == old(shown) + Emitted(Info, logLevel, OverallMessage(overallCompletedTasks, songCount))
      ensures !(simpleTui && old(previousOverall) != overallCompletedTasks) ==>
        shown == old(shown) && previousOverall == old(previousOverall)
      ensures simpleTui ==> previousOverall == overallCompletedTasks
      ensures songs == old(songs) && songCount == old(songCount) && overallTotal == old(overallTotal)
      ensures overallProgress == old(overallProgress) && overallCompletedTasks == old(overallCompletedTasks)
      ensures hasOverallTask == old(hasOverallTask)
      ensures logLevel == old(logLevel) && simpleTui == old(simpleTui) && quiet == old(quiet)
      ensures reported == old(reported)
    {
      if simpleTui {
        if previousOverall != overallCompletedTasks {
          LogMessage(OverallMessage(overallCompletedTasks, songCount));
          previousOverall := overallCompletedTasks;
        }
      }
    }

    /** The fields no tracker update touches. */
    twostate predicate SettingsKept()
      reads this
    {
      && songs == old(songs) && songCount == old(songCount) && overallTotal == old(overallTotal)
      && hasOverallTask == old(hasOverallTask)
      && logLevel == old(logLevel) && simpleTui == old(simpleTui) && quiet == old(quiet)
    }

    /**
      get_new_tracker: a tracker at progress 0, reporting into this handler
      in the next free slot of `reported`, so the slots of earlier trackers
      are left as they were.
    */
    method NewTracker(song: Song) returns (t: SongTracker)
      requires Valid()
      modifies this
      ensures fresh(t) && t.Valid()
      ensures t.parent == this && t.song == song && t.progress == 0 && t.oldProgress == 0 && t.status == ""
      ensures t.slot == |old(reported)| && !t.taskRemoved
      ensures reported == old(reported) + [0]
      ensures songs == old(songs) && songCount == old(songCount) && overallTotal == old(overallTotal)
      ensures overallProgress == old(overallProgress) && overallCompletedTasks == old(overallCompletedTasks)
      ensures previousOverall == old(previousOverall) && hasOverallTask == old(hasOverallTask)
      ensures logLevel == old(logLevel) && simpleTui == old(simpleTui) && quiet == old(quiet)
      ensures shown == old(shown)
    {
      t := new SongTracker(this, song, |reported|);
      SumAppend(reported, 0);
      reported := reported + [0];
    }
  }

  /**
    ProgressHandler(log_level, simple_tui): a level outside LEVEL_TO_NAME
    raises ProgressHandlerError.
  */
  method NewProgressHandler(logLevel: int, simpleTui: bool) returns (r: Result<ProgressHandler, Error>)
    ensures r.Failure? <==> logLevel !in LevelToName
    ensures r.Failure? ==> r.error == ProgressHandlerError("Invalid log level: " + IntToString(logLevel))
    ensures r.Success? ==> fresh(r.value) && r.value.Valid() && r.value.logLevel == logLevel
    ensures r.Success? ==> r.value.simpleTui == simpleTui && r.value.quiet == (logLevel < 10)
    ensures r.Success? ==> r.value.songCount == 0 && r.value.overallTotal == 100 && r.value.overallProgress == 0
    ensures r.Success? ==> r.value.overallCompletedTasks == 0 && r.value.previousOverall == 0 && r.value.shown == []
    ensures r.Success? ==> r.value.songs == [] && r.value.reported == [] && !r.value.hasOverallTask
  {
    if logLevel !in LevelToName {
      return Failure(ProgressHandlerError("Invalid log level: " + IntToString(logLevel)));
    }
    var h := new ProgressHandler(logLevel, simpleTui);
    return Success(h);
  }

  /** What one tracker update shows: in simple mode the status line, then the overall count when it moved. */
  function UpdateLog(simpleTui: bool, level: int, song: Song, message: string,
                     previous: int, completed: int, songCount: int): seq<Message>
  {
    if !simpleTui then []
    else
      Emitted(Info, level, TrackerMessage(song, message)) +
      (if previous != completed then Emitted(Info, level, OverallMessage(completed, songCount)) else [])
  }

  class SongTracker {
    const parent: ProgressHandler
    const song: Song
    var progress: int
    var oldProgress: int
    var status: string
    /**
      Rich mode only: the tracker's task has been removed from the progress
      bar, as a finishing update does. rich then rejects the task id.
    */
    var taskRemoved: bool
    /** The tracker's place in the parent's `reported`. */
    ghost const slot: nat

    /** The parent's account of this tracker is the progress it last reported. */
    ghost predicate Valid()
      reads this, parent
    {
      && parent.Valid()
      && slot < |parent.reported|
      && parent.reported[slot] == oldProgress
    }

    constructor (parent: ProgressHandler, song: Song, ghost slot: nat)
      requires parent.Valid() && slot == |parent.reported|
      ensures this.parent == parent && this.song == song && this.slot == slot
      ensures progress == 0 && oldProgress == 0 && status == "" && !taskRemoved
    {
      this.parent := parent;
      this.song := song;
      this.slot := slot;
      progress := 0;
      oldProgress := 0;
      status := "";
      taskRemoved := false;
    }

    /** Whether the next update fails: rich mode, after the task was removed. */
    predicate Rejects()
      reads this, parent
    {
      !parent.simpleTui && taskRemoved
    }

    /**
      The state a successful update with the message leaves: the status is
      recorded, this tracker's slot of `reported` and the overall progress
      move by the progress made since its last report, the song counts as
      finished when it reached 100 or failed (and rich mode removes its
      task), and `shown` grows by the update's log followed by `extra`.
    */
    twostate predicate Updated(message: string, extra: seq<Message>)
      reads this, parent
    {
      && status == message && oldProgress == progress
      && slot < |old(parent.reported)|
      && parent.reported == old(parent.reported)[slot := progress]
      && parent.overallProgress == old(parent.overallProgress) + (progress - old(oldProgress))
      && parent.overallCompletedTasks ==
           old(parent.overallCompletedTasks) + (if Finishes(progress, message) then 1 else 0)
      && taskRemoved == (old(taskRemoved) || (!parent.simpleTui && Finishes(progress, message)))
      && parent.shown == old(parent.shown) +
           UpdateLog(parent.simpleTui, parent.logLevel, song, message,
                     old(parent.previousOverall), parent.overallCompletedTasks, parent.songCount) + extra
      && (if parent.simpleTui then parent.previousOverall == parent.overallCompletedTasks
          else parent.previousOverall == old(parent.previousOverall))
      && parent.SettingsKept()
    }

    /**
      The state a rejected update leaves: only the status was recorded
      before rich raised KeyError.
    */
    twostate predicate Refused(message: string)
      reads this, parent
    {
      && status == message && oldProgress == old(oldProgress) && taskRemoved == old(taskRemoved)
      && unchanged(parent)
    }

    /**
      update: record the status; in rich mode restart the task, which
      raises KeyError once the task was removed. Otherwise count the song as
      finished when it reached 100 or failed, add the progress made since
      the last update to the overall progress, and (in simple mode) log the
      status.
    */
    method Update(message: string) returns (err: Option<Error>)
      requires Valid()
      modifies this, parent
      ensures Valid() && progress == old(progress)
      ensures if old(Rejects()) then err == Some(KeyError) && Refused(message)
              else err == None && Updated(message, [])
    {
      status := message;
      if !parent.simpleTui && taskRemoved {
        return Some(KeyError);
      }
      Account(message);
      if parent.simpleTui {
        parent.LogMessage(TrackerMessage(song, message));
      }
      parent.UpdateOverall();
      return None;
    }

    /**
      The counting part of an accepted update: the finished count, the
      removal of a finished task in rich mode, and the progress made since
      the last report added to the overall progress.
    */
    method Account(message: string)
      requires Valid()
      modifies this, parent
      ensures Valid() && status == old(status) && progress == old(progress) && oldProgress == progress
      ensures parent.reported == old(parent.reported)[slot := progress]
      ensures parent.overallProgress == old(parent.overallProgress) + (progress - old(oldProgress))
      ensures parent.overallCompletedTasks ==
        old(parent.overallCompletedTasks) + (if Finishes(progress, message) then 1 else 0)
      ensures taskRemoved == (old(taskRemoved) || (!parent.simpleTui && Finishes(progress, message)))
      ensures parent.shown == old(parent.shown) && parent.previousOverall == old(parent.previousOverall)
      ensures parent.SettingsKept()
    {
      var delta := progress - oldProgress;
      SumUpdate(parent.reported, slot, progress);
      if Finishes(progress, message) {
        parent.overallCompletedTasks := parent.overallCompletedTasks + 1;
        if !parent.simpleTui {
          taskRemoved := true;
        }
      }
      parent.overallProgress := parent.overallProgress + delta;
      parent.reported := parent.reported[slot := progress];
      oldProgress := progress;
    }

    /**
      notify_error: the song counts as finished, then the message is logged
      at debug and the exception text at error. A rejected update raises
      before anything is logged.
    */
    method NotifyError(message: string, exception: string) returns (err: Option<Error>)
      requires Valid()
      modifies this, parent
      ensures Valid() && progress == old(progress)
      ensures if old(Rejects()) then err == Some(KeyError) && Refused("Error")
              else err == None && Updated("Error",
                Emitted(Debug, parent.logLevel, message) + Emitted(ErrorLevel, parent.logLevel, exception))
    {
      err := Update("Error");
      if err.Some? {
        return;
      }
      parent.DebugMessage(message);
      parent.ErrorMessage(exception);
    }

    /** notify_download_complete */
    method NotifyDownloadComplete(status: string) returns (err: Option<Error>)
      requires Valid()
      modifies this, parent
      ensures Valid() && progress == 75
      ensures if old(Rejects()) then err == Some(KeyError) && Refused(status)
              else err == None && Updated(status, [])
    {
      progress := 75;
      err := Update(status);
    }

    /** notify_conversion_complete */
    method NotifyConversionComplete(status: string) returns (err: Option<Error>)
      requires Valid()
      modifies this, parent
      ensures Valid() && progress == 95
      ensures if old(Rejects()) then err == Some(KeyError) && Refused(status)
              else err == None && Updated(status, [])
    {
      progress := 95;
      err := Update(status);
    }

    /**
      notify_complete: the song counts as finished. In simple mode it counts
      again when it already did; in rich mode that second update raises.
    */
    method NotifyComplete(status: string) returns (err: Option<Error>)
      requires Valid()
      modifies this, parent
      ensures Valid() && progress == 100
      ensures if old(Rejects()) then err == Some(KeyError) && Refused(status)
              else err == None && Updated(status, [])
    {
      progress := 100;
      err := Update(status);
    }

    /** notfiy_download_skip (sic): a skipped song is finished at 100. */
    method NotifyDownloadSkip(status: string) returns (err: Option<Error>)
      requires Valid()
      modifies this, parent
      ensures Valid() && progress == 100
      ensures if old(Rejects()) then err == Some(KeyError) && Refused(status)
              else err == None && Updated(status, [])
    {
      progress := 100;
      err := Update(status);
    }

    /** custom_notify */
    method CustomNotify(status: string, newProgress: int) returns (err: Option<Error>)
      requires Valid()
      modifies this, parent
      ensures Valid() && progress == newProgress
      ensures if old(Rejects()) then err == Some(KeyError) && Refused(status)
              else err == None && Updated(status, [])
    {
      progress := newProgress;
      err := Update(status);
    }
  }
}
