/**
  M3U playlists (spotdl/utils/m3u.py): one line per song, the song's file
  name as create_file_name builds it.

  create_m3u_content passes the song's own collection where
  create_file_name expects `short`, and its `short` flag where
  create_file_name expects the song list; the model keeps that order.
*/
module M3u {
  import opened Wrappers
  import opened Errors
  import opened Strings
  import opened Types
  import opened Formatter

  /** `song.song_list` as a Python value. */
  function SongListValue(song: Song): Arg {
    if song.songList.Some? then SongListArg(song.songList.value) else NoneArg
  }

  /** The line of one song: `str(create_file_name(song, template, ext, song.song_list, short)) + "\n"`. */
  function Line(song: Song, template: string, ext: string, short: bool): Result<string, Error> {
    var path :- FileName(song, template, ext, SongListValue(song), BoolArg(short));
    Success(PathString(path) + "\n")
  }

  /** The lines of the songs joined, or the first error a line raises. */
  function Lines(songs: seq<Song>, line: Song -> Result<string, Error>): Result<string, Error>
    decreases |songs|
  {
    if |songs| == 0 then Success("")
    else
      var text :- Lines(songs[..|songs| - 1], line);
      var last :- line(songs[|songs| - 1]);
      Success(text + last)
  }

  /** What create_m3u_content returns for the songs. */
  function M3uContent(songs: seq<Song>, template: string, ext: string, short: bool): Result<string, Error> {
    Lines(songs, song => Line(song, template, ext, short))
  }

  /** create_m3u_content: the lines accumulated with `+=`. */
  method CreateM3uContent(songs: seq<Song>, template: string, ext: string, short: bool)
    returns (r: Result<string, Error>)
    ensures r == M3uContent(songs, template, ext, short)
  {
    ghost var line := song => Line(song, template, ext, short);
    var text := "";
    var i := 0;
    while i < |songs|
      invariant 0 <= i <= |songs|
      invariant Lines(songs[..i], line) == Success(text)
    {
      var next := CreateLine(songs[i], template, ext, short);
      LinesStep(songs, line, i, text, next);
      if next.Failure? {
        return Failure(next.error);
      }
      text := text + next.value;
      i := i + 1;
    }
    assert songs[..i] == songs;
    return Success(text);
  }

  /** The body of create_m3u_content's loop for one song. */
  method CreateLine(song: Song, template: string, ext: string, short: bool) returns (r: Result<string, Error>)
    ensures r == Line(song, template, ext, short)
  {
    var path := CreateFileName(song, template, ext, SongListValue(song), BoolArg(short));
    if path.Failure? {
      return Failure(path.error);
    }
    return Success(PathString(path.value) + "\n");
  }

  /**
    create_m3u_file: the content, and the write it makes as (file name,
    text). Nothing is written when building the content raises.
  */
  method CreateM3uFile(fileName: string, songs: seq<Song>, template: string, ext: string, short: bool)
    returns (written: Option<(string, string)>, r: Result<string, Error>)
    ensures r == M3uContent(songs, template, ext, short)
    ensures r.Success? ==> written == Some((fileName, r.value))
    ensures r.Failure? ==> written == None
  {
    r := CreateM3uContent(songs, template, ext, short);
    if r.Failure? {
      return None, r;
    }
    written := Some((fileName, r.value));
  }

  /** The lines after one more song: extended by its line, or failed for good. */
  lemma LinesStep(songs: seq<Song>, line: Song -> Result<string, Error>, i: nat, text: string, next: Result<string, Error>)
    requires i < |songs| && Lines(songs[..i], line) == Success(text) && line(songs[i]) == next
    ensures next.Failure? ==> Lines(songs, line) == Failure(next.error)
    ensures next.Success? ==> Lines(songs[..i + 1], line) == Success(text + next.value)
  {
    assert songs[..i + 1][..i] == songs[..i];
    if next.Failure? {
      LinesFailureSticks(songs, line, i + 1);
      assert songs[..|songs|] == songs;
    }
  }

  /** Once a line raises, all the lines raise that error. */
  lemma {:induction false} LinesFailureSticks(songs: seq<Song>, line: Song -> Result<string, Error>, k: nat)
    requires k <= |songs|
    ensures Lines(songs[..k], line).Failure? ==> Lines(songs, line) == Lines(songs[..k], line)
    decreases |songs| - k
  {
    if k < |songs| && Lines(songs[..k], line).Failure? {
      assert songs[..k + 1][..k] == songs[..k];
      LinesFailureSticks(songs, line, k + 1);
    } else if k == |songs| {
      assert songs[..k] == songs;
    }
  }

  // ------------------------------------------------------------ properties

  /** The lines are joined exactly when every song's line can be built. */
  lemma {:induction false} LinesSucceed(songs: seq<Song>, line: Song -> Result<string, Error>)
    ensures Lines(songs, line).Success? <==> forall i :: 0 <= i < |songs| ==> line(songs[i]).Success?
    decreases |songs|
  {
    if |songs| > 0 {
      var init := songs[..|songs| - 1];
      LinesSucceed(init, line);
      assert forall i :: 0 <= i < |init| ==> init[i] == songs[i];
    }
  }

  /** The lines of two runs of songs are the first run's followed by the second's. */
  lemma {:induction false} LinesConcat(a: seq<Song>, b: seq<Song>, line: Song -> Result<string, Error>)
    requires Lines(a, line).Success? && Lines(b, line).Success?
    ensures Lines(a + b, line) == Success(Lines(a, line).value + Lines(b, line).value)
    decreases |b|
  {
    if |b| == 0 {
      assert a + b == a;
      assert Lines(a, line).value + "" == Lines(a, line).value;
    } else {
      var init := b[..|b| - 1];
      assert (a + b)[..|a + b| - 1] == a + init;
      assert (a + b)[|a + b| - 1] == b[|b| - 1];
      LinesConcat(a, init, line);
      var x, y, z := Lines(a, line).value, Lines(init, line).value, line(b[|b| - 1]).value;
      assert Lines(b, line).value == y + z;
      assert (x + y) + z == x + (y + z);
    }
  }

  /** When every line holds one newline, the joined lines hold one per song. */
  lemma {:induction false} LinesCount(songs: seq<Song>, line: Song -> Result<string, Error>)
    requires forall i :: 0 <= i < |songs| && line(songs[i]).Success? ==> Count(line(songs[i]).value, '\n') == 1
    ensures Lines(songs, line).Success? ==> Count(Lines(songs, line).value, '\n') == |songs|
    decreases |songs|
  {
    if |songs| > 0 && Lines(songs, line).Success? {
      var init := songs[..|songs| - 1];
      assert forall i :: 0 <= i < |init| ==> init[i] == songs[i];
      LinesCount(init, line);
      CountConcat(Lines(init, line).value, line(songs[|songs| - 1]).value, '\n');
    }
  }

  /** The content exists exactly when every song's file name can be built. */
  lemma ContentSucceeds(songs: seq<Song>, template: string, ext: string, short: bool)
    ensures M3uContent(songs, template, ext, short).Success? <==>
      forall i :: 0 <= i < |songs| ==> FileName(songs[i], template, ext, SongListValue(songs[i]), BoolArg(short)).Success?
  {
    LinesSucceed(songs, song => Line(song, template, ext, short));
  }

  /** The content for two runs of songs is the first's followed by the second's. */
  lemma ContentConcat(a: seq<Song>, b: seq<Song>, template: string, ext: string, short: bool)
    requires M3uContent(a, template, ext, short).Success? && M3uContent(b, template, ext, short).Success?
    ensures M3uContent(a + b, template, ext, short) ==
      Success(M3uContent(a, template, ext, short).value + M3uContent(b, template, ext, short).value)
  {
    LinesConcat(a, b, song => Line(song, template, ext, short));
  }

  /**
    A playlist holds one line per song: when no file name holds a newline,
    the content holds exactly as many newlines as there are songs (none for
    no songs).
  */
  lemma LineCount(songs: seq<Song>, template: string, ext: string, short: bool)
    requires forall i :: 0 <= i < |songs| ==>
      var path := FileName(songs[i], template, ext, SongListValue(songs[i]), BoolArg(short));
      path.Success? ==> '\n' !in PathString(path.value)
    ensures M3uContent(songs, template, ext, short).Success? ==>
      Count(M3uContent(songs, template, ext, short).value, '\n') == |songs|
  {
    var line := song => Line(song, template, ext, short);
    forall i | 0 <= i < |songs| && line(songs[i]).Success?
      ensures Count(line(songs[i]).value, '\n') == 1
    {
      var path := FileName(songs[i], template, ext, SongListValue(songs[i]), BoolArg(short)).value;
      CountAbsent(PathString(path), '\n');
      CountConcat(PathString(path), "\n", '\n');
    }
    LinesCount(songs, line);
  }

  /** Every line ends in a newline, so a non-empty playlist does too. */
  lemma ContentEndsInNewline(songs: seq<Song>, template: string, ext: string, short: bool)
    requires |songs| > 0 && M3uContent(songs, template, ext, short).Success?
    ensures EndsWith(M3uContent(songs, template, ext, short).value, "\n")
  {
    var line := song => Line(song, template, ext, short);
    LinesEndWithLast(songs, line);
    var last := Line(songs[|songs| - 1], template, ext, short).value;
    EndsWithConcat(PathString(FileName(songs[|songs| - 1], template, ext, SongListValue(songs[|songs| - 1]), BoolArg(short)).value), "\n");
    EndsWithTransitive(Lines(songs, line).value, last, "\n");
  }

  /** The joined lines end with the last song's line. */
  lemma LinesEndWithLast(songs: seq<Song>, line: Song -> Result<string, Error>)
    requires |songs| > 0 && Lines(songs, line).Success?
    ensures EndsWith(Lines(songs, line).value, line(songs[|songs| - 1]).value)
  {
    EndsWithConcat(Lines(songs[..|songs| - 1], line).value, line(songs[|songs| - 1]).value);
  }

  /**
    With `short` set, the flag lands in create_file_name's song-list slot,
    where `True.index` raises AttributeError: no playlist with a song can
    be written.
  */
  lemma {:induction false} ShortRaises(songs: seq<Song>, template: string, ext: string)
    requires |songs| > 0
    ensures M3uContent(songs, template, ext, true) == Failure(AttributeError)
    decreases |songs|
  {
    var line := song => Line(song, template, ext, true);
    var last := songs[|songs| - 1];
    assert ListPosition(last, BoolArg(true)) == Failure(AttributeError);
    assert line(last) == Failure(AttributeError);
    if |songs| > 1 {
      ShortRaises(songs[..|songs| - 1], template, ext);
      assert Lines(songs[..|songs| - 1], line) == Failure(AttributeError);
    } else {
      assert Lines(songs[..|songs| - 1], line) == Success("");
    }
  }

  /**
    format_query reads `short` only through `short is True`, and the list
    only through the position and length it yields.
  */
  lemma FormattedSameArgs(song: Song, template: string, sanitize: bool, ext: Option<string>,
                          s1: Arg, l1: Arg, s2: Arg, l2: Arg)
    requires IsTrue(s1) == IsTrue(s2)
    requires ListPosition(song, l1) == ListPosition(song, l2) && ListLength(l1) == ListLength(l2)
    ensures Formatted(song, template, sanitize, ext, s1, l1) == Formatted(song, template, sanitize, ext, s2, l2)
  {
    if ListPosition(song, l1).Success? && |song.artists| > 0 {
      FormatValuesSameArgs(song, sanitize, ext, s1, l1, s2, l2);
    }
  }

  /** The same for the dictionary format_query replaces with. */
  lemma FormatValuesSameArgs(song: Song, sanitize: bool, ext: Option<string>, s1: Arg, l1: Arg, s2: Arg, l2: Arg)
    requires ListPosition(song, l1).Success? && |song.artists| > 0 && IsTrue(s1) == IsTrue(s2)
    requires ListPosition(song, l1) == ListPosition(song, l2) && ListLength(l1) == ListLength(l2)
    ensures FormatValues(song, sanitize, ext, s1, l1) == FormatValues(song, sanitize, ext, s2, l2)
  {
    FieldsSameShort(song, s1, s2, ListPosition(song, l1).value, ListLength(l1), ext);
  }

  /** The dictionary reads `short` only through `short is True`. */
  lemma FieldsSameShort(song: Song, s1: Arg, s2: Arg, position: string, length: string, ext: Option<string>)
    requires |song.artists| > 0 && IsTrue(s1) == IsTrue(s2)
    ensures Fields(song, s1, position, length, ext) == Fields(song, s2, position, length, ext)
  {
  }

  /**
    Without `short`, a playlist line never carries a list position or a
    shortened artist list: it is the file name create_file_name gives the
    song with no `short` flag and no song list.
  */
  lemma FileNameIgnoresList(song: Song, template: string, ext: string)
    ensures FileName(song, template, ext, SongListValue(song), BoolArg(false)) == FileName(song, template, ext, NoneArg, NoneArg)
  {
    var t := FileTemplate(template);
    FormattedSameArgs(song, t, true, Some(ext), SongListValue(song), BoolArg(false), NoneArg, NoneArg);
    assert FileNameOnce(song, template, ext, SongListValue(song), BoolArg(false)) == FileNameOnce(song, template, ext, NoneArg, NoneArg);
    FormattedSameArgs(song, FileTemplate(t), true, Some(ext), BoolArg(true), BoolArg(false), BoolArg(true), NoneArg);
    assert FileNameOnce(song, t, ext, BoolArg(true), BoolArg(false)) == FileNameOnce(song, t, ext, BoolArg(true), NoneArg);
  }
}
