/** What the formatting functions of spotdl/utils/formatter.py guarantee. */
module FormatterFacts {
  import opened Wrappers
  import opened Errors
  import opened Strings
  import opened Types
  import opened Templates
  import opened Formatter

  // ---------------------------------------------------------- sanitizing

  lemma {:induction false} SanitizedConcat(a: string, b: string)
    ensures Sanitized(a + b) == Sanitized(a) + Sanitized(b)
    decreases |a|
  {
    if |a| > 0 {
      assert (a + b)[1..] == a[1..] + b;
      SanitizedConcat(a[1..], b);
    } else {
      assert a + b == b;
    }
  }

  lemma {:induction false} FilterThenReplace(s: string)
    ensures ReplaceCharMap(ReplaceCharMap(KeepAllowed(s), '"', "'"), ':', "-") == Sanitized(s)
    decreases |s|
  {
    if |s| > 0 {
      var x := if s[0] in Removed then "" else [s[0]];
      var rest := KeepAllowed(s[1..]);
      FilterThenReplace(s[1..]);
      ReplaceCharMapConcat(x, rest, '"', "'");
      ReplaceCharMapConcat(ReplaceCharMap(x, '"', "'"), ReplaceCharMap(rest, '"', "'"), ':', "-");
    }
  }

  /**
    sanitize_string drops every character of `/?\*|<>`, turns `"` into
    `'` and `:` into `-`, keeps every other character in order, and leaves
    none of those nine characters behind.
  */
  lemma SanitizeStringMeaning(s: string)
    ensures SanitizeString(s) == Sanitized(s)
    ensures forall i :: 0 <= i < |SanitizeString(s)| ==> SanitizeString(s)[i] !in Forbidden
  {
    ReplaceOneChar(KeepAllowed(s), '"', "'");
    ReplaceOneChar(ReplaceCharMap(KeepAllowed(s), '"', "'"), ':', "-");
    FilterThenReplace(s);
    SanitizedAllowed(s);
  }

  lemma {:induction false} SanitizedAllowed(s: string)
    ensures forall i :: 0 <= i < |Sanitized(s)| ==> Sanitized(s)[i] !in Forbidden
    decreases |s|
  {
    if |s| > 0 {
      SanitizedAllowed(s[1..]);
      var head := SanitizeChar(s[0]);
      assert forall i :: 0 <= i < |head| ==> head[i] !in Forbidden;
      assert Sanitized(s) == head + Sanitized(s[1..]);
    }
  }

  /** A string without any of the nine characters is left as it is. */
  lemma {:induction false} SanitizedIdentity(s: string)
    requires forall i :: 0 <= i < |s| ==> s[i] !in Forbidden
    ensures Sanitized(s) == s
    decreases |s|
  {
    if |s| > 0 {
      assert s[0] !in Forbidden;
      SanitizedIdentity(s[1..]);
      assert [s[0]] + s[1..] == s;
    }
  }

  lemma {:induction false} SanitizedRemoved(s: string)
    requires forall i :: 0 <= i < |s| ==> s[i] in Removed
    ensures Sanitized(s) == ""
    decreases |s|
  {
    if |s| > 0 {
      SanitizedRemoved(s[1..]);
    }
  }

  /** Sanitizing twice is sanitizing once. */
  lemma SanitizeIdempotent(s: string)
    ensures SanitizeString(SanitizeString(s)) == SanitizeString(s)
  {
    SanitizeStringMeaning(s);
    SanitizeStringMeaning(SanitizeString(s));
    SanitizedIdentity(SanitizeString(s));
  }

  /** The cases of tests/utils/test_formatter.py for sanitize_string. */
  lemma SanitizeStringExamples()
    ensures SanitizeString("test") == "test"
    ensures SanitizeString("test/?\\*|<>") == "test"
    ensures SanitizeString("test\" and :") == "test' and -"
  {
    SanitizePlain();
    SanitizeRemovedExample();
    SanitizeQuoteColonExample();
  }

  lemma SanitizeRemovedExample()
    ensures SanitizeString("test/?\\*|<>") == "test"
  {
    SanitizeDropsTail("test", Removed);
    assert "test/?\\*|<>" == "test" + Removed;
  }

  lemma SanitizeQuoteColonExample()
    ensures SanitizeString("test\" and :") == "test' and -"
  {
    SanitizeMapsQuoteColon("test", " and ");
    assert "test\" and :" == "test" + "\"" + " and " + ":";
    assert "test' and -" == "test" + "'" + " and " + "-";
  }

  lemma SanitizePlain()
    ensures SanitizeString("test") == "test"
  {
    SanitizeStringMeaning("test");
    SanitizedIdentity("test");
  }

  /** Clean text followed by removed characters sanitizes to the clean text. */
  lemma SanitizeDropsTail(a: string, b: string)
    requires forall i :: 0 <= i < |a| ==> a[i] !in Forbidden
    requires forall i :: 0 <= i < |b| ==> b[i] in Removed
    ensures SanitizeString(a + b) == a
  {
    SanitizeStringMeaning(a + b);
    SanitizedConcat(a, b);
    SanitizedIdentity(a);
    SanitizedRemoved(b);
  }

  /** A double quote and a colon between clean texts become `'` and `-`. */
  lemma SanitizeMapsQuoteColon(a: string, b: string)
    requires forall i :: 0 <= i < |a| ==> a[i] !in Forbidden
    requires forall i :: 0 <= i < |b| ==> b[i] !in Forbidden
    ensures SanitizeString(a + "\"" + b + ":") == a + "'" + b + "-"
  {
    var x := a + "\"";
    var y := x + b;
    SanitizeStringMeaning(y + ":");
    SanitizedConcat(y, ":");
    assert Sanitized(":") == "-";
    SanitizedConcat(x, b);
    SanitizedConcat(a, "\"");
    assert Sanitized("\"") == "'";
    SanitizedIdentity(a);
    SanitizedIdentity(b);
    assert Sanitized(y + ":") == a + "'" + b + "-";
  }

  /** The cases of tests/utils/test_formatter.py for create_song_title. */
  lemma CreateSongTitleExamples()
    ensures CreateSongTitle("title", ["artist1", "artist2"]) == "artist1, artist2 - title"
    ensures CreateSongTitle("title", []) == "title"
  {
    assert Join(["artist1", "artist2"], ", ") == "artist1" + ", " + Join(["artist2"], ", ");
  }

  // ------------------------------------------------------ list position

  /**
    `{list-position}` is the 1-based index of the song's first occurrence,
    zero-padded to as many digits as the list's length; `{list-length}` is
    that length; both are `""` without a list or with an empty one; a song
    missing from a non-empty list is a ValueError, and a list slot holding
    True or a song list object an AttributeError.
  */
  lemma ListPositionCases(song: Song, list: Arg)
    ensures list == NoneArg || list == BoolArg(false) || list == SongsArg([]) ==>
      ListPosition(song, list) == Success("") && ListLength(list) == ""
    ensures IsTrue(list) || list.SongListArg? ==> ListPosition(song, list) == Failure(AttributeError)
    ensures list.SongsArg? && |list.items| > 0 && song !in list.items ==>
      ListPosition(song, list) == Failure(ValueError(NotInListMessage))
    ensures list.SongsArg? && song in list.items ==>
      var p := ListPosition(song, list);
      p.Success? && AllDigits(p.value) && |p.value| == |NatToString(|list.items|)| &&
      DigitsValue(p.value) == IndexOf(list.items, song) + 1 &&
      ListLength(list) == NatToString(|list.items|)
  {
    if list.SongsArg? && song in list.items {
      var xs := list.items;
      var n := IndexOf(xs, song) + 1;
      NatToStringLengthMonotone(n, |xs|);
      NatToStringDigits(n);
      var width := |NatToString(|xs|)|;
      if |NatToString(n)| < width {
        LeadingZeros(width - |NatToString(n)|, NatToString(n));
      }
    }
  }

  // ------------------------------------------------------- format_query

  /** Every key of the dictionary is a placeholder `{word}`. */
  lemma FieldKeysAreKeys()
    ensures forall i :: 0 <= i < |FieldKeys| ==> IsKey(FieldKeys[i])
  {
    FirstKeysAreKeys();
    MiddleKeysAreKeys();
    LastKeysAreKeys();
  }

  // Three thirds of FieldKeysAreKeys, each small enough for the solver.
  lemma FirstKeysAreKeys()
    ensures forall i :: 0 <= i < 7 ==> IsKey(FieldKeys[i])
  {
  }

  lemma MiddleKeysAreKeys()
    ensures forall i :: 7 <= i < 13 ==> IsKey(FieldKeys[i])
  {
  }

  lemma LastKeysAreKeys()
    ensures forall i :: 13 <= i < 19 ==> IsKey(FieldKeys[i])
  {
  }

  /** No placeholder appears twice in the dictionary. */
  lemma FieldKeysDistinct()
    ensures forall i, j :: 0 <= j < i < |FieldKeys| ==> FieldKeys[j] != FieldKeys[i]
  {
  }

  /** format_query raises the output-extension ValueError exactly when the template needs an extension it was not given. */
  lemma FormattedExtError(song: Song, template: string, sanitize: bool, ext: Option<string>, short: Arg, list: Arg)
    ensures Formatted(song, template, sanitize, ext, short, list) == Failure(ValueError(OutputExtMessage))
        <==> Contains(template, "{output-ext}") && ext.None?
  {
    assert |OutputExtMessage| != |NotInListMessage|;
  }

  /** No value of the dictionary prints a `{`. */
  predicate BraceFree(fields: seq<Field>) {
    forall i :: 0 <= i < |fields| ==> '{' !in Text(fields[i].1)
  }

  /**
    On a well-formed template whose values print no `{`, format_query
    succeeds with every placeholder replaced by its field's value.
  */
  lemma FormattedExpands(song: Song, ps: seq<Piece>, sanitize: bool, ext: Option<string>, short: Arg, list: Arg)
    requires WellFormed(ps)
    requires !(Contains(Render(ps), "{output-ext}") && ext.None?)
    requires ListPosition(song, list).Success? && |song.artists| > 0
    requires BraceFree(FormatValues(song, sanitize, ext, short, list))
    ensures Formatted(song, Render(ps), sanitize, ext, short, list)
         == Success(Expand(ps, FormatValues(song, sanitize, ext, short, list)))
  {
    FieldKeysAreKeys();
    ReplaceFieldsExpands(ps, FormatValues(song, sanitize, ext, short, list));
  }

  /** A value as it reaches the template: sanitized when asked for. */
  function Shown(sanitize: bool, s: string): string {
    if sanitize then SanitizeString(s) else s
  }

  function ShownValue(sanitize: bool, v: Option<string>): string {
    Text(if sanitize then SanitizeValue(v) else v)
  }

  /** The value a placeholder of the dictionary expands to, given that no earlier key equals it. */
  lemma ValueAt(song: Song, sanitize: bool, ext: Option<string>, short: Arg, list: Arg, i: nat)
    requires ListPosition(song, list).Success? && |song.artists| > 0
    requires i < |FieldKeys|
    ensures ExpandSlot(FieldKeys[i], FormatValues(song, sanitize, ext, short, list))
         == ShownValue(sanitize, Fields(song, short, ListPosition(song, list).value, ListLength(list), ext)[i].1)
  {
    var fs := FormatValues(song, sanitize, ext, short, list);
    FieldKeysDistinct();
    ExpandSlotAt(fs, i);
  }

  /**
    `{title}` is the song's name, `{artist}` its first artist, and
    `{artists}` the first artist when `short` is True and all artists
    joined by `", "` otherwise.
  */
  lemma ArtistSlots(song: Song, sanitize: bool, ext: Option<string>, short: Arg, list: Arg)
    requires ListPosition(song, list).Success? && |song.artists| > 0
    ensures var fs := FormatValues(song, sanitize, ext, short, list);
      ExpandSlot("{title}", fs) == Shown(sanitize, song.name) &&
      ExpandSlot("{artists}", fs) == Shown(sanitize, if IsTrue(short) then song.artists[0] else Join(song.artists, ", ")) &&
      ExpandSlot("{artist}", fs) == Shown(sanitize, song.artists[0])
  {
    SlotOf(song, sanitize, ext, short, list, 0, song.name);
    ArtistsSlot(song, sanitize, ext, short, list);
    SlotOf(song, sanitize, ext, short, list, 2, song.artists[0]);
  }

  /** A placeholder whose dictionary value is `Some(v)` expands to `v`, sanitized when asked for. */
  lemma SlotOf(song: Song, sanitize: bool, ext: Option<string>, short: Arg, list: Arg, i: nat, v: string)
    requires ListPosition(song, list).Success? && |song.artists| > 0 && i < |FieldKeys|
    requires Fields(song, short, ListPosition(song, list).value, ListLength(list), ext)[i].1 == Some(v)
    ensures ExpandSlot(FieldKeys[i], FormatValues(song, sanitize, ext, short, list)) == Shown(sanitize, v)
  {
    ValueAt(song, sanitize, ext, short, list, i);
  }

  lemma ArtistsSlot(song: Song, sanitize: bool, ext: Option<string>, short: Arg, list: Arg)
    requires ListPosition(song, list).Success? && |song.artists| > 0
    ensures ExpandSlot("{artists}", FormatValues(song, sanitize, ext, short, list))
         == Shown(sanitize, if IsTrue(short) then song.artists[0] else Join(song.artists, ", "))
  {
    var all := if IsTrue(short) then song.artists[0] else Join(song.artists, ", ");
    SlotOf(song, sanitize, ext, short, list, 1, all);
  }

  /** `{list-position}` and `{list-length}` are the list position and length. */
  lemma ListSlots(song: Song, sanitize: bool, ext: Option<string>, short: Arg, list: Arg)
    requires ListPosition(song, list).Success? && |song.artists| > 0
    ensures var fs := FormatValues(song, sanitize, ext, short, list);
      ExpandSlot("{list-position}", fs) == Shown(sanitize, ListPosition(song, list).value) &&
      ExpandSlot("{list-length}", fs) == Shown(sanitize, ListLength(list))
  {
    ValueAt(song, sanitize, ext, short, list, 16);
    ValueAt(song, sanitize, ext, short, list, 17);
  }

  /** `{genre}` is the first genre or `""`; `{isrc}` and `{output-ext}` print None when absent. */
  lemma OtherSlots(song: Song, sanitize: bool, ext: Option<string>, short: Arg, list: Arg)
    requires ListPosition(song, list).Success? && |song.artists| > 0
    ensures var fs := FormatValues(song, sanitize, ext, short, list);
      ExpandSlot("{genre}", fs) == Shown(sanitize, if |song.genres| > 0 then song.genres[0] else "") &&
      ExpandSlot("{isrc}", fs) == ShownValue(sanitize, song.isrc) &&
      ExpandSlot("{output-ext}", fs) == ShownValue(sanitize, ext)
  {
    ValueAt(song, sanitize, ext, short, list, 5);
    ValueAt(song, sanitize, ext, short, list, 13);
    ValueAt(song, sanitize, ext, short, list, 18);
  }

  // ------------------------------------------------- create_search_query

  /** A template without `{` uses no placeholder. */
  lemma NoBraceNoVar(template: string)
    requires '{' !in template
    ensures !HasVar(template)
  {
    forall i | 0 <= i < |Vars|
      ensures !Contains(template, Vars[i])
    {
      MissingChar(template, Vars[i], 0);
    }
  }

  /**
    create_search_query formats a template that uses a placeholder as it
    is; a template without any gets `"{artist} - {title}"` in front, so a
    plain-text template `t` yields `"<first artist> - <name>" + t`.
  */
  lemma CreateSearchQueryDefault(song: Song, template: string, short: bool)
    requires '{' !in template
    requires |song.artists| > 0
    requires BraceFree(FormatValues(song, false, None, BoolArg(short), NoneArg))
    ensures CreateSearchQuery(song, template, false, None, short)
         == Success(song.artists[0] + " - " + song.name + template)
  {
    NoBraceNoVar(template);
    var ps := SearchPieces(template);
    FormattedExpands(song, ps, false, None, BoolArg(short), NoneArg);
    ArtistSlots(song, false, None, BoolArg(short), NoneArg);
  }

  /** The default search template as pieces: `{artist}`, `" - "`, `{title}`, then the text. */
  lemma SearchPieces(template: string) returns (ps: seq<Piece>)
    requires '{' !in template
    ensures WellFormed(ps) && Render(ps) == "{artist} - {title}" + template
    ensures !Contains(Render(ps), "{output-ext}")
    ensures forall fs :: Expand(ps, fs) == ExpandSlot("{artist}", fs) + " - " + ExpandSlot("{title}", fs) + template
  {
    ps := [Slot("{artist}"), Lit(" - "), Slot("{title}"), Lit(template)];
    assert IsKey("{artist}") && IsKey("{title}");
    SearchPiecesRender(template, ps);
    NoSlotNotContained(ps, "{output-ext}");
    forall fs
      ensures Expand(ps, fs) == ExpandSlot("{artist}", fs) + " - " + ExpandSlot("{title}", fs) + template
    {
      SearchPiecesExpand(template, ps, fs);
    }
  }

  lemma SearchPiecesRender(template: string, ps: seq<Piece>)
    requires ps == [Slot("{artist}"), Lit(" - "), Slot("{title}"), Lit(template)]
    ensures Render(ps) == "{artist} - {title}" + template
  {
    assert Render(ps[3..]) == template;
    assert Render(ps[2..]) == "{title}" + template;
    assert Render(ps[1..]) == " - " + "{title}" + template;
    assert Render(ps) == "{artist}" + (" - " + "{title}" + template);
    assert "{artist}" + (" - " + "{title}" + template) == "{artist} - {title}" + template;
  }

  lemma SearchPiecesExpand(template: string, ps: seq<Piece>, fs: seq<Field>)
    requires ps == [Slot("{artist}"), Lit(" - "), Slot("{title}"), Lit(template)]
    ensures Expand(ps, fs) == ExpandSlot("{artist}", fs) + " - " + ExpandSlot("{title}", fs) + template
  {
    assert Expand(ps[3..], fs) == template;
    assert Expand(ps[2..], fs) == ExpandSlot("{title}", fs) + template;
  }

  lemma CreateSearchQueryAsGiven(song: Song, template: string, sanitize: bool, ext: Option<string>, short: bool)
    requires HasVar(template)
    ensures CreateSearchQuery(song, template, sanitize, ext, short)
         == Formatted(song, template, sanitize, ext, BoolArg(short), NoneArg)
  {
  }

  // --------------------------------------------------- create_file_name

  /** The pattern matches somewhere: a possible first character before a possible last one. */
  predicate HasMatch(part: string) {
    exists a, b :: 0 <= a < b < |part| && Lead(part[a]) && Tail(part[b])
  }

  lemma HasMatchBounds(part: string)
    ensures HasMatch(part) <==> FirstLead(part, 0) < LastTail(part, |part|)
  {
    var i := FirstLead(part, 0);
    var j := LastTail(part, |part|);
    if HasMatch(part) {
      var a, b :| 0 <= a < b < |part| && Lead(part[a]) && Tail(part[b]);
      assert i <= a && b <= j;
    }
    if i < j {
      assert Lead(part[i]) && Tail(part[j]);
    }
  }

  /**
    Each component keeps what lies between its leading run of `.`/`*` and
    its trailing run of `.`/`*`/`$`, when something of at least two
    characters lies there; otherwise it is kept whole.
  */
  lemma TrimPartMeaning(part: string)
    ensures HasMatch(part) ==>
      var r, i := TrimPart(part), FirstLead(part, 0);
      i + |r| <= |part| && r == part[i..i + |r|] &&
      |r| >= 2 && Lead(r[0]) && Tail(r[|r| - 1]) &&
      (forall m :: 0 <= m < i ==> !Lead(part[m])) &&
      (forall m :: i + |r| <= m < |part| ==> !Tail(part[m]))
    ensures !HasMatch(part) ==> TrimPart(part) == part
  {
    HasMatchBounds(part);
    var i := FirstLead(part, 0);
    var j := LastTail(part, |part|);
    if i < j {
      var r := part[i..j + 1];
      assert TrimPart(part) == r;
      assert r[0] == part[i] && r[|r| - 1] == part[j];
    }
  }

  /** Every component of a path is non-empty and free of `/`. */
  lemma {:induction false} ComponentsLackSlash(fields: seq<string>)
    requires forall k :: 0 <= k < |fields| ==> '/' !in fields[k]
    ensures forall k :: 0 <= k < |Components(fields)| ==> '/' !in Components(fields)[k]
    decreases |fields|
  {
    if |fields| > 0 {
      ComponentsLackSlash(fields[1..]);
    }
  }

  lemma TrimPartShape(part: string)
    requires part != "" && '/' !in part
    ensures TrimPart(part) != "" && '/' !in TrimPart(part)
  {
    var i := FirstLead(part, 0);
    var j := LastTail(part, |part|);
    if i < j {
      assert forall m :: 0 <= m < j + 1 - i ==> TrimPart(part)[m] == part[i + m];
    }
  }

  /**
    A file name create_file_name returns has a last component of at most
    255 characters, and none of its components is empty or holds a `/`.
  */
  lemma FileNameShape(song: Song, template: string, ext: string, short: Arg, list: Arg)
    ensures var r := FileName(song, template, ext, short, list);
      r.Success? ==>
        |PathName(r.value)| <= 255 &&
        forall k :: 0 <= k < |r.value.parts| ==> r.value.parts[k] != "" && '/' !in r.value.parts[k]
  {
    var once := FileNameOnce(song, template, ext, short, list);
    OnceShape(song, template, ext, short, list);
    if once.Success? && |PathName(once.value)| > 255 && !IsTrue(short) {
      var retry := FileNameOnce(song, FileTemplate(template), ext, BoolArg(true), list);
      OnceShape(song, FileTemplate(template), ext, BoolArg(true), list);
      assert FileName(song, template, ext, short, list) ==
        (if retry.Failure? then Failure(retry.error)
         else if |PathName(retry.value)| <= 255 then retry
         else Failure(RecursionError));
    }
  }

  lemma OnceShape(song: Song, template: string, ext: string, short: Arg, list: Arg)
    ensures var r := FileNameOnce(song, template, ext, short, list);
      r.Success? ==> forall k :: 0 <= k < |r.value.parts| ==> r.value.parts[k] != "" && '/' !in r.value.parts[k]
  {
    var f := Formatted(song, FileTemplate(template), true, Some(ext), short, list);
    if f.Success? {
      var fields := Split(f.value, '/');
      SplitFieldsLackSep(f.value, '/');
      ComponentsLackSlash(fields);
      var parts := Components(fields);
      forall k | 0 <= k < |parts|
        ensures TrimPart(parts[k]) != "" && '/' !in TrimPart(parts[k])
      {
        TrimPartShape(parts[k]);
      }
    }
  }

  /**
    When the first pass gives a name longer than 255 characters, the result
    is that of the pass with `short=True`, or a RecursionError when `short`
    already was True or the short name is still too long.
  */
  lemma FileNameRetry(song: Song, template: string, ext: string, short: Arg, list: Arg)
    requires FileNameOnce(song, template, ext, short, list).Success?
    requires |PathName(FileNameOnce(song, template, ext, short, list).value)| > 255
    ensures IsTrue(short) ==> FileName(song, template, ext, short, list) == Failure(RecursionError)
    ensures !IsTrue(short) ==>
      var retry := FileNameOnce(song, template, ext, BoolArg(true), list);
      FileName(song, template, ext, short, list) ==
        (if retry.Failure? then Failure(retry.error)
         else if |PathName(retry.value)| <= 255 then retry
         else Failure(RecursionError))
  {
    FileTemplateIdempotent(template);
  }

  // ----------------------------------------------------- parse_duration

  lemma NatToStringNoColon(n: nat)
    ensures ':' !in NatToString(n)
  {
    NatToStringDigits(n);
  }

  lemma SplitTwo(a: string, b: string)
    requires ':' !in a && ':' !in b
    ensures Split(a + ":" + b, ':') == [a, b]
  {
    assert a + ":" + b == a + [':'] + b;
    SplitFirst(a, ':', b);
    SplitWithoutSep(b, ':');
  }

  lemma SplitThree(a: string, b: string, c: string)
    requires ':' !in a && ':' !in b && ':' !in c
    ensures Split(a + ":" + b + ":" + c, ':') == [a, b, c]
  {
    assert a + ":" + b + ":" + c == a + [':'] + (b + ":" + c);
    SplitFirst(a, ':', b + ":" + c);
    SplitTwo(b, c);
  }

  lemma WeightedSumThree(x: string, y: string, z: string, a: int, b: int, c: int)
    requires ParseInt(x) == Some(a) && ParseInt(y) == Some(b) && ParseInt(z) == Some(c)
    ensures WeightedSum([1, 60, 3600], [x, y, z]) == Some(a + 60 * b + 3600 * c)
  {
    assert [1, 60, 3600][1..] == [60, 3600] && [60, 3600][1..] == [3600];
    assert [x, y, z][1..] == [y, z] && [y, z][1..] == [z];
    assert WeightedSum([3600], [z]) == Some(3600 * c);
    assert WeightedSum([60, 3600], [y, z]) == Some(60 * b + 3600 * c);
  }

  lemma WeightedSumTwo(x: string, y: string, a: int, b: int)
    requires ParseInt(x) == Some(a) && ParseInt(y) == Some(b)
    ensures WeightedSum([1, 60, 3600], [x, y]) == Some(a + 60 * b)
  {
    assert [1, 60, 3600][1..] == [60, 3600] && [60, 3600][1..] == [3600];
    assert [x, y][1..] == [y];
    assert WeightedSum([60, 3600], [y]) == Some(60 * b);
  }

  /** `h:m:s` is `3600h + 60m + s` seconds. */
  lemma ParseDurationHms(h: nat, m: nat, s: nat)
    ensures ParseDuration(Some(NatToString(h) + ":" + NatToString(m) + ":" + NatToString(s))) == 3600 * h + 60 * m + s
  {
    var hs, ms, ss := NatToString(h), NatToString(m), NatToString(s);
    NatToStringNoColon(h);
    NatToStringNoColon(m);
    NatToStringNoColon(s);
    ParseIntNatToString(h);
    ParseIntNatToString(m);
    ParseIntNatToString(s);
    HmsDuration(hs, ms, ss, h, m, s);
  }

  /** Three integer fields are read as hours, minutes and seconds. */
  lemma HmsDuration(hs: string, ms: string, ss: string, h: int, m: int, s: int)
    requires ':' !in hs && ':' !in ms && ':' !in ss
    requires ParseInt(hs) == Some(h) && ParseInt(ms) == Some(m) && ParseInt(ss) == Some(s)
    ensures ParseDuration(Some(hs + ":" + ms + ":" + ss)) == 3600 * h + 60 * m + s
  {
    SplitThree(hs, ms, ss);
    assert Reverse([hs, ms, ss]) == [ss, ms, hs];
    WeightedSumThree(ss, ms, hs, s, m, h);
  }

  /** `m:s` is `60m + s` seconds. */
  lemma ParseDurationMs(m: nat, s: nat)
    ensures ParseDuration(Some(NatToString(m) + ":" + NatToString(s))) == 60 * m + s
  {
    var ms, ss := NatToString(m), NatToString(s);
    NatToStringNoColon(m);
    NatToStringNoColon(s);
    SplitTwo(ms, ss);
    ParseIntNatToString(m);
    ParseIntNatToString(s);
    assert Reverse([ms, ss]) == [ss, ms];
    WeightedSumTwo(ss, ms, s, m);
  }

  /** A plain number of seconds is itself. */
  lemma ParseDurationSeconds(s: nat)
    ensures ParseDuration(Some(NatToString(s))) == s
  {
    NatToStringNoColon(s);
    SplitWithoutSep(NatToString(s), ':');
    ParseIntNatToString(s);
    assert Reverse([NatToString(s)]) == [NatToString(s)];
    assert [1, 60, 3600][1..] == [60, 3600];
  }

  /** Only the last three fields count: anything before them is never read. */
  lemma ParseDurationIgnoresLeading(prefix: string, hs: string, ms: string, ss: string, h: int, m: int, s: int)
    requires ':' !in hs && ':' !in ms && ':' !in ss
    requires ParseInt(hs) == Some(h) && ParseInt(ms) == Some(m) && ParseInt(ss) == Some(s)
    ensures ParseDuration(Some(prefix + ":" + hs + ":" + ms + ":" + ss)) == 3600 * h + 60 * m + s
  {
    var hms := hs + ":" + ms + ":" + ss;
    SplitThree(hs, ms, ss);
    SplitConcat(prefix, ':', hms);
    var d := prefix + ":" + hs + ":" + ms + ":" + ss;
    assert d == prefix + [':'] + hms;
    var front := Split(prefix, ':');
    assert Split(d, ':') == front + [hs, ms, ss];
    var all := Reverse(front + [hs, ms, ss]);
    ReverseLastThree(front, hs, ms, ss);
    WeightedSumPrefix([1, 60, 3600], all);
    WeightedSumThree(ss, ms, hs, s, m, h);
    assert WeightedSum([1, 60, 3600], all) == Some(s + 60 * m + 3600 * h);
  }

  lemma ReverseLastThree<T>(front: seq<T>, a: T, b: T, c: T)
    ensures |Reverse(front + [a, b, c])| >= 3 && Reverse(front + [a, b, c])[..3] == [c, b, a]
  {
    var s := front + [a, b, c];
    var r := Reverse(s);
    assert r[0] == s[|s| - 1] == c;
    assert r[1] == s[|s| - 2] == b;
    assert r[2] == s[|s| - 3] == a;
  }

  /** zip stops at the shorter side: fields beyond the weights are never parsed. */
  lemma {:induction false} WeightedSumPrefix(weights: seq<int>, fields: seq<string>)
    requires |weights| <= |fields|
    ensures WeightedSum(weights, fields) == WeightedSum(weights, fields[..|weights|])
    decreases |weights|
  {
    if |weights| > 0 {
      WeightedSumPrefix(weights[1..], fields[1..]);
      assert fields[..|weights|][1..] == fields[1..][..|weights| - 1];
    }
  }

  /** The weighted sum fails exactly when one of the zipped fields is no integer. */
  lemma {:induction false} WeightedSumFails(weights: seq<int>, fields: seq<string>)
    ensures WeightedSum(weights, fields).None? <==>
      exists k :: 0 <= k < |weights| && k < |fields| && ParseInt(fields[k]).None?
    decreases |weights|
  {
    if |weights| > 0 && |fields| > 0 {
      WeightedSumFails(weights[1..], fields[1..]);
      if ParseInt(fields[0]).Some? && WeightedSum(weights[1..], fields[1..]).None? {
        var k :| 0 <= k < |weights| - 1 && k < |fields| - 1 && ParseInt(fields[1..][k]).None?;
        assert ParseInt(fields[k + 1]).None?;
      }
      if exists k :: 0 <= k < |weights| && k < |fields| && ParseInt(fields[k]).None? {
        var k :| 0 <= k < |weights| && k < |fields| && ParseInt(fields[k]).None?;
        if k > 0 {
          assert ParseInt(fields[1..][k - 1]).None?;
        }
      }
    }
  }

  /** None, or any of the last three fields not being an integer, gives 0. */
  lemma ParseDurationInvalid(d: string, k: nat)
    requires k < 3 && k < |Split(d, ':')|
    requires ParseInt(Reverse(Split(d, ':'))[k]).None?
    ensures ParseDuration(Some(d)) == 0
    ensures ParseDuration(None) == 0
  {
    WeightedSumFails([1, 60, 3600], Reverse(Split(d, ':')));
  }

  /** The cases of tests/utils/test_formatter.py for parse_duration. */
  lemma ParseDurationExamples()
    ensures ParseDuration(Some("3:16")) == 196
    ensures ParseDuration(Some("20")) == 20
    ensures ParseDuration(Some("25:59")) == 1559
    ensures ParseDuration(Some("25:59:59")) == 93599
    ensures ParseDuration(Some("likes")) == 0
    ensures ParseDuration(Some("views")) == 0
  {
    DurationMinutes();
    DurationHours();
    DurationSeconds();
    DurationWords();
  }

  lemma DurationMinutes()
    ensures ParseDuration(Some("3:16")) == 196
    ensures ParseDuration(Some("25:59")) == 1559
  {
    ParseDurationMs(3, 16);
    assert NatToString(3) + ":" + NatToString(16) == "3:16";
    ParseDurationMs(25, 59);
    assert NatToString(25) + ":" + NatToString(59) == "25:59";
  }

  lemma DurationHours()
    ensures ParseDuration(Some("25:59:59")) == 93599
  {
    ParseDurationHms(25, 59, 59);
    assert NatToString(25) + ":" + NatToString(59) + ":" + NatToString(59) == "25:59:59";
  }

  lemma DurationSeconds()
    ensures ParseDuration(Some("20")) == 20
  {
    ParseDurationSeconds(20);
    assert NatToString(20) == "20";
  }

  lemma DurationWords()
    ensures ParseDuration(Some("likes")) == 0
    ensures ParseDuration(Some("views")) == 0
  {
    WordDuration("likes");
    WordDuration("views");
  }

  /** A word without `:` that starts with an ASCII letter, of either case, is no duration. */
  lemma WordDuration(w: string)
    requires |w| > 0 && ':' !in w && ('a' <= w[0] <= 'z' || 'A' <= w[0] <= 'Z')
    ensures ParseDuration(Some(w)) == 0
  {
    SplitWithoutSep(w, ':');
    assert !IsDigit(w[0]);
    ParseDurationInvalid(w, 0);
  }
}
