/**
  Song titles, search queries and file names built from templates
  (spotdl/utils/formatter.py). A template is text with placeholders such as
  `{title}`; formatting replaces each placeholder by the song's value.
*/
module Formatter {
  import opened Wrappers
  import opened Errors
  import opened Strings
  import opened Types
  import opened Templates

  /** The placeholders a template may use, in their declared order. */
  const Vars: seq<string> := [
    "{title}", "{artists}", "{artist}", "{album}", "{album-artist}", "{genre}",
    "{disc-number}", "{disc-count}", "{duration}", "{year}", "{original-date}",
    "{track-number}", "{tracks-count}", "{isrc}", "{track-id}", "{publisher}",
    "{list-length}", "{list-position}", "{output-ext}"]

  /** The replacement order of format_query: the same placeholders, list position before length. */
  const FieldKeys: seq<string> := [
    "{title}", "{artists}", "{artist}", "{album}", "{album-artist}", "{genre}",
    "{disc-number}", "{disc-count}", "{duration}", "{year}", "{original-date}",
    "{track-number}", "{tracks-count}", "{isrc}", "{track-id}", "{publisher}",
    "{list-position}", "{list-length}", "{output-ext}"]

  /** Does the template use any placeholder at all? */
  predicate HasVar(template: string) {
    exists i :: 0 <= i < |Vars| && Contains(template, Vars[i])
  }

  // ---------------------------------------------------------------- titles

  /** `"a1, a2 - name"`, or just the name when there are no artists. */
  function CreateSongTitle(name: string, artists: seq<string>): (title: string)
    ensures |artists| == 0 ==> title == name
    ensures |artists| >= 1 ==> title == Join(artists, ", ") + " - " + name
    ensures EndsWith(title, name)
  {
    var joined := Join(artists, ", ");
    if |artists| >= 1 then joined + " - " + name else name
  }

  // ---------------------------------------------------------- sanitizing

  /** Characters dropped from file names. */
  const Removed := "/?\\*|<>"

  /** The nine characters no sanitized string holds. */
  const Forbidden := Removed + "\":"

  /** What one character becomes: dropped, `"` to `'`, `:` to `-`, else itself. */
  function SanitizeChar(c: char): string {
    if c in Removed then "" else if c == '"' then "'" else if c == ':' then "-" else [c]
  }

  /** The character-by-character meaning of sanitizing. */
  function Sanitized(s: string): string
    decreases |s|
  {
    if |s| == 0 then "" else SanitizeChar(s[0]) + Sanitized(s[1..])
  }

  /** `"".join(char for char in s if char not in "/?\\*|<>")` */
  function KeepAllowed(s: string): string
    decreases |s|
  {
    if |s| == 0 then "" else (if s[0] in Removed then "" else [s[0]]) + KeepAllowed(s[1..])
  }

  /** sanitize_string: the filter, then two replacements. */
  function SanitizeString(s: string): string {
    ReplaceAll(ReplaceAll(KeepAllowed(s), "\"", "'"), ":", "-")
  }

  // ------------------------------------------------------ list position

  /**
    The Python value held by create_file_name's `short` and `song_list`
    arguments; m3u passes them in swapped order, so either may hold a bool,
    a list of songs or a song list object.
  */
  datatype Arg = NoneArg | BoolArg(b: bool) | SongsArg(items: seq<Song>) | SongListArg(list: SongList)

  /** `a is True` */
  predicate IsTrue(a: Arg) {
    a == BoolArg(true)
  }

  /** `list.index(x)`: the first position holding `x`. */
  function IndexOf(xs: seq<Song>, x: Song): (i: nat)
    requires x in xs
    ensures i < |xs| && xs[i] == x
    ensures forall k :: 0 <= k < i ==> xs[k] != x
    decreases |xs|
  {
    if xs[0] == x then 0 else 1 + IndexOf(xs[1..], x)
  }

  /**
    The `{list-position}` value. An empty or missing list gives `""`; a
    `True` (or a song list object, taken as truthy) has no `index` method
    and raises AttributeError; a song missing from the list raises
    ValueError.
  */
  function ListPosition(song: Song, list: Arg): Result<string, Error> {
    match list
    case NoneArg => Success("")
    case BoolArg(b) => if b then Failure(AttributeError) else Success("")
    case SongListArg(_) => Failure(AttributeError)
    case SongsArg(xs) =>
      if |xs| == 0 then Success("")
      else if song in xs then Success(ZFill(NatToString(IndexOf(xs, song) + 1), |NatToString(|xs|)|))
      else Failure(ValueError(NotInListMessage))
  }

  /** The `{list-length}` value (only reached once the position succeeded). */
  function ListLength(list: Arg): string {
    if list.SongsArg? && |list.items| > 0 then NatToString(|list.items|) else ""
  }

  // ------------------------------------------------------- format_query

  /** The `formats` dictionary, in insertion order. */
  function Fields(song: Song, short: Arg, position: string, length: string, ext: Option<string>): seq<Field>
    requires |song.artists| > 0
  {
    var t := song.tags;
    [("{title}", Some(song.name)),
     ("{artists}", Some(if IsTrue(short) then song.artists[0] else Join(song.artists, ", "))),
     ("{artist}", Some(song.artists[0])),
     ("{album}", t.albumName),
     ("{album-artist}", t.albumArtist),
     ("{genre}", Some(if |song.genres| > 0 then song.genres[0] else "")),
     ("{disc-number}", t.discNumber),
     ("{disc-count}", t.discCount),
     ("{duration}", t.duration),
     ("{year}", t.year),
     ("{original-date}", t.date),
     ("{track-number}", t.trackNumber),
     ("{tracks-count}", t.tracksCount),
     ("{isrc}", song.isrc),
     ("{track-id}", t.songId),
     ("{publisher}", t.publisher),
     ("{list-position}", Some(position)),
     ("{list-length}", Some(length)),
     ("{output-ext}", ext)]
  }

  /** A value after the sanitizing pass: None stays None, the rest is sanitized. */
  function SanitizeValue(v: Option<string>): Option<string> {
    if v.Some? then Some(SanitizeString(v.value)) else None
  }

  function SanitizeFields(fields: seq<Field>): (r: seq<Field>)
    ensures |r| == |fields|
    ensures forall i :: 0 <= i < |r| ==> r[i] == (fields[i].0, SanitizeValue(fields[i].1))
  {
    seq(|fields|, i requires 0 <= i < |fields| => (fields[i].0, SanitizeValue(fields[i].1)))
  }

  predicate HasFieldKeys(fields: seq<Field>) {
    |fields| == |FieldKeys| && forall i :: 0 <= i < |fields| ==> fields[i].0 == FieldKeys[i]
  }

  /** The `formats` dictionary has exactly the template keys, in order. */
  lemma FieldsHaveKeys(song: Song, short: Arg, position: string, length: string, ext: Option<string>)
    requires |song.artists| > 0
    ensures HasFieldKeys(Fields(song, short, position, length, ext))
  {
  }

  lemma FieldKeysNonEmpty(fields: seq<Field>)
    requires HasFieldKeys(fields)
    ensures KeysNonEmpty(fields)
  {
    assert forall i :: 0 <= i < |FieldKeys| ==> |FieldKeys[i]| > 0;
  }

  /** The `formats` dictionary format_query replaces with, after the optional sanitizing pass. */
  function FormatValues(song: Song, sanitize: bool, ext: Option<string>, short: Arg, list: Arg): (fields: seq<Field>)
    requires ListPosition(song, list).Success? && |song.artists| > 0
    ensures HasFieldKeys(fields) && KeysNonEmpty(fields)
  {
    var fields := Fields(song, short, ListPosition(song, list).value, ListLength(list), ext);
    FieldsHaveKeys(song, short, ListPosition(song, list).value, ListLength(list), ext);
    var r := if sanitize then SanitizeFields(fields) else fields;
    FieldKeysNonEmpty(r);
    r
  }

  /** What format_query returns or raises, in the order the source checks. */
  function Formatted(song: Song, template: string, sanitize: bool, ext: Option<string>, short: Arg, list: Arg): Result<string, Error> {
    if Contains(template, "{output-ext}") && ext.None? then Failure(ValueError(OutputExtMessage))
    else if ListPosition(song, list).Failure? then Failure(ListPosition(song, list).error)
    else if |song.artists| == 0 then Failure(IndexError)
    else Success(ReplaceFields(template, FormatValues(song, sanitize, ext, short, list)))
  }

  /** format_query: build the dictionary, sanitize its values in place, then replace key by key. */
  method FormatQuery(song: Song, template: string, sanitize: bool, ext: Option<string>, short: Arg, list: Arg)
    returns (r: Result<string, Error>)
    ensures r == Formatted(song, template, sanitize, ext, short, list)
  {
    if Contains(template, "{output-ext}") && ext.None? {
      return Failure(ValueError(OutputExtMessage));
    }
    var position := ListPosition(song, list);
    if position.Failure? {
      return Failure(position.error);
    }
    if |song.artists| == 0 {
      return Failure(IndexError);
    }
    var formats := Fields(song, short, position.value, ListLength(list), ext);
    if sanitize {
      formats := SanitizeFormats(formats);
    }
    assert formats == FormatValues(song, sanitize, ext, short, list);
    var out := ReplaceFormats(template, formats);
    return Success(out);
  }

  /** The sanitizing loop of format_query: every non-None value is sanitized in place. */
  method SanitizeFormats(fields: seq<Field>) returns (formats: seq<Field>)
    ensures formats == SanitizeFields(fields)
  {
    formats := fields;
    var i := 0;
    while i < |formats|
      invariant 0 <= i <= |formats| == |fields|
      invariant formats[..i] == SanitizeFields(fields)[..i]
      invariant formats[i..] == fields[i..]
    {
      if formats[i].1.Some? {
        formats := formats[i := (formats[i].0, Some(SanitizeString(formats[i].1.value)))];
      }
      assert formats[i] == SanitizeFields(fields)[i];
      i := i + 1;
    }
    assert formats == formats[..i];
  }

  /** The replacement loop of format_query: each key, in dictionary order, replaced everywhere. */
  method ReplaceFormats(template: string, formats: seq<Field>) returns (out: string)
    requires KeysNonEmpty(formats)
    ensures out == ReplaceFields(template, formats)
  {
    out := template;
    var j := 0;
    while j < |formats|
      invariant 0 <= j <= |formats|
      invariant ReplaceFields(out, formats[j..]) == ReplaceFields(template, formats)
    {
      assert formats[j..][1..] == formats[j + 1..];
      out := ReplaceAll(out, formats[j].0, Text(formats[j].1));
      j := j + 1;
    }
  }

  /** create_search_query's template: `"{artist} - {title}"` in front when no placeholder is used. */
  function SearchTemplate(template: string): string {
    if HasVar(template) then template else "{artist} - {title}" + template
  }

  /** create_search_query (never with a song list). */
  function CreateSearchQuery(song: Song, template: string, sanitize: bool, ext: Option<string>, short: bool): Result<string, Error> {
    Formatted(song, SearchTemplate(template), sanitize, ext, BoolArg(short), NoneArg)
  }

  // --------------------------------------------------- create_file_name

  const ExtSuffix := ".{output-ext}"
  const DefaultBody := "/{artists} - {title}"
  const DefaultName := DefaultBody + ExtSuffix

  /** The three defaulting rules applied to a file name template. */
  function FileTemplate(template: string): string {
    var t1 := if !HasVar(template) then template + DefaultName else template;
    var t2 := if EndsWith(t1, "/") || EndsWith(t1, "\\\\") then t1 + DefaultName else t1;
    if EndsWith(t2, ExtSuffix) then t2 else t2 + ExtSuffix
  }

  /** A string ending in `.{output-ext}` ends in neither `/` nor two backslashes. */
  lemma ExtSuffixEnd(s: string)
    requires EndsWith(s, ExtSuffix)
    ensures !EndsWith(s, "/") && !EndsWith(s, "\\\\")
  {
    LastChar(s, ExtSuffix);
    LastChar(s, "/");
    LastChar(s, "\\\\");
  }

  /**
    The defaulting rules: a template without placeholders, or one ending in
    `/`, gets `/{artists} - {title}.{output-ext}` appended; the result
    always ends in `.{output-ext}` and starts with the template; a template
    already ending in `.{output-ext}` is left alone.
  */
  lemma FileTemplateDefaults(template: string)
    ensures StartsWith(FileTemplate(template), template)
    ensures EndsWith(FileTemplate(template), ExtSuffix)
    ensures !HasVar(template) ==> FileTemplate(template) == template + DefaultName
    ensures HasVar(template) && EndsWith(template, "/") ==> FileTemplate(template) == template + DefaultName
    ensures HasVar(template) && EndsWith(template, ExtSuffix) ==> FileTemplate(template) == template
  {
    var d := template + DefaultName;
    EndsWithConcat(template + DefaultBody, ExtSuffix);
    assert d == template + DefaultBody + ExtSuffix;
    ExtSuffixEnd(d);
    if EndsWith(template, ExtSuffix) {
      ExtSuffixEnd(template);
    }
    var t := FileTemplate(template);
    assert t[..|template|] == template;
  }
  /** `[^\.*]`: a character a component may start with. */
  predicate Lead(c: char) {
    c != '.' && c != '*'
  }

  /** `[^\.*$]`: a character a component may end with. */
  predicate Tail(c: char) {
    c != '.' && c != '*' && c != '$'
  }

  /** The first position, from `i` on, that may start a component. */
  function FirstLead(part: string, i: nat): (k: nat)
    requires i <= |part|
    ensures i <= k <= |part|
    ensures forall m :: i <= m < k ==> !Lead(part[m])
    ensures k < |part| ==> Lead(part[k])
    decreases |part| - i
  {
    if i == |part| || Lead(part[i]) then i else FirstLead(part, i + 1)
  }

  /** The last position, below `n`, that may end a component, or -1. */
  function LastTail(part: string, n: nat): (k: int)
    requires n <= |part|
    ensures -1 <= k < n
    ensures forall m :: k < m < n ==> !Tail(part[m])
    ensures k >= 0 ==> Tail(part[k])
    decreases n
  {
    if n == 0 then -1 else if Tail(part[n - 1]) then n - 1 else LastTail(part, n - 1)
  }

  /**
    The match of `[^\.*](.*)[^\.*$]` in a component: from the first
    character other than `.` and `*` to the last character other than
    `.`, `*` and `$`, when those are two different positions in that order;
    otherwise the component is kept as it is.
  */
  function TrimPart(part: string): string {
    var i := FirstLead(part, 0);
    var j := LastTail(part, |part|);
    if i < j then part[i..j + 1] else part
  }

  /** A path as pathlib sees it: an optional root and its components. */
  datatype FilePath = FilePath(absolute: bool, parts: seq<string>)

  /** The components of `Path(s)`: split on `/`, without empty and `.` components. */
  function Components(fields: seq<string>): (parts: seq<string>)
    ensures forall k :: 0 <= k < |parts| ==> parts[k] != "" && parts[k] != "."
    decreases |fields|
  {
    if |fields| == 0 then []
    else if fields[0] == "" || fields[0] == "." then Components(fields[1..])
    else [fields[0]] + Components(fields[1..])
  }

  function ParsePath(s: string): FilePath {
    FilePath(|s| > 0 && s[0] == '/', Components(Split(s, '/')))
  }

  /** `path.name`: the last component, or `""`. */
  function PathName(p: FilePath): string {
    if |p.parts| == 0 then "" else p.parts[|p.parts| - 1]
  }

  /** `str(path)` */
  function PathString(p: FilePath): string {
    if p.absolute then "/" + Join(p.parts, "/")
    else if |p.parts| == 0 then "."
    else Join(p.parts, "/")
  }

  function TrimParts(parts: seq<string>): (r: seq<string>)
    ensures |r| == |parts| && forall k :: 0 <= k < |r| ==> r[k] == TrimPart(parts[k])
  {
    seq(|parts|, k requires 0 <= k < |parts| => TrimPart(parts[k]))
  }

  /** One pass of create_file_name: default the template, format it sanitized, trim each component. */
  function FileNameOnce(song: Song, template: string, ext: string, short: Arg, list: Arg): Result<FilePath, Error> {
    var formatted :- Formatted(song, FileTemplate(template), true, Some(ext), short, list);
    var path := ParsePath(formatted);
    Success(FilePath(path.absolute, TrimParts(path.parts)))
  }

  /**
    create_file_name. A name longer than 255 characters is retried with
    `short=True`; when `short` already is True the retry repeats the same
    call forever, which Python ends with a RecursionError.
  */
  function FileName(song: Song, template: string, ext: string, short: Arg, list: Arg): Result<FilePath, Error> {
    var path :- FileNameOnce(song, template, ext, short, list);
    if |PathName(path)| <= 255 then Success(path)
    else if IsTrue(short) then Failure(RecursionError)
    else
      var retry :- FileNameOnce(song, FileTemplate(template), ext, BoolArg(true), list);
      if |PathName(retry)| <= 255 then Success(retry) else Failure(RecursionError)
  }

  /** create_file_name, step by step as the source does it. */
  method CreateFileName(song: Song, template: string, ext: string, short: Arg, list: Arg)
    returns (r: Result<FilePath, Error>)
    ensures r == FileName(song, template, ext, short, list)
    decreases if IsTrue(short) then 0 else 1
  {
    var path := CreateFileNameOnce(song, template, ext, short, list);
    if path.Failure? {
      return Failure(path.error);
    }
    if |PathName(path.value)| > 255 {
      if IsTrue(short) {
        return Failure(RecursionError);
      }
      var t := DefaultTemplate(template);
      r := CreateFileName(song, t, ext, BoolArg(true), list);
      FileNameRetried(song, template, ext, short, list);
      return;
    }
    return path;
  }

  /** Past the length limit without `short`, create_file_name's answer is that of its retry. */
  lemma FileNameRetried(song: Song, template: string, ext: string, short: Arg, list: Arg)
    requires FileNameOnce(song, template, ext, short, list).Success?
    requires |PathName(FileNameOnce(song, template, ext, short, list).value)| > 255 && !IsTrue(short)
    ensures FileName(song, template, ext, short, list) == FileName(song, FileTemplate(template), ext, BoolArg(true), list)
  {
  }

  /** One attempt of create_file_name, before its length check. */
  method CreateFileNameOnce(song: Song, template: string, ext: string, short: Arg, list: Arg)
    returns (r: Result<FilePath, Error>)
    ensures r == FileNameOnce(song, template, ext, short, list)
  {
    var t := DefaultTemplate(template);
    var formatted := FormatQuery(song, t, true, Some(ext), short, list);
    if formatted.Failure? {
      return Failure(formatted.error);
    }
    var file := ParsePath(formatted.value);
    var parts := TrimComponents(file.parts);
    return Success(FilePath(file.absolute, parts));
  }

  /** The template reassignments at the start of create_file_name. */
  method DefaultTemplate(template: string) returns (t: string)
    ensures t == FileTemplate(template)
  {
    t := template;
    if !HasVar(t) {
      t := t + DefaultName;
    }
    if EndsWith(t, "/") || EndsWith(t, "\\\\") {
      t := t + DefaultName;
    }
    if !EndsWith(t, ExtSuffix) {
      t := t + ExtSuffix;
    }
  }

  /** The loop of create_file_name collecting each component's match. */
  method TrimComponents(components: seq<string>) returns (parts: seq<string>)
    ensures parts == TrimParts(components)
  {
    parts := [];
    var k := 0;
    while k < |components|
      invariant 0 <= k <= |components|
      invariant parts == TrimParts(components[..k])
    {
      assert components[..k + 1] == components[..k] + [components[k]];
      parts := parts + [TrimPart(components[k])];
      k := k + 1;
    }
    assert components[..k] == components;
  }

  /** The defaulting rules are idempotent, so the retry sees the template it was given. */
  lemma FileTemplateIdempotent(template: string)
    ensures FileTemplate(FileTemplate(template)) == FileTemplate(template)
  {
    var t := FileTemplate(template);
    FileTemplateDefaults(template);
    if HasVar(template) {
      var i :| 0 <= i < |Vars| && Contains(template, Vars[i]);
      var w := ContainsWitness(template, Vars[i]);
      assert t[w..w + |Vars[i]|] == template[w..w + |Vars[i]|];
      ContainsAt(t, Vars[i], w);
    } else {
      DefaultNameHasVar(template);
    }
    FileTemplateDefaults(t);
  }

  /** The default file name uses `{artists}`. */
  lemma DefaultNameHasVar(template: string)
    ensures HasVar(template + DefaultName)
  {
    var t := template + DefaultName;
    assert t[|template|..] == DefaultName;
    assert DefaultName[1..10] == "{artists}";
    assert t[|template| + 1..|template| + 10] == DefaultName[1..10];
    ContainsAt(t, Vars[1], |template| + 1);
  }

  // ----------------------------------------------------- parse_duration

  /** `sum(w * int(f) for w, f in zip(weights, fields))`; None when some `int()` fails. */
  function WeightedSum(weights: seq<int>, fields: seq<string>): Option<int>
    decreases |weights|
  {
    if |weights| == 0 || |fields| == 0 then Some(0)
    else
      var v :- ParseInt(fields[0]);
      var rest :- WeightedSum(weights[1..], fields[1..]);
      Some(weights[0] * v + rest)
  }

  /** parse_duration: seconds of `"h:m:s"`, 0 for None or anything unparsable. */
  function ParseDuration(duration: Option<string>): int {
    if duration.None? then 0
    else
      match WeightedSum([1, 60, 3600], Reverse(Split(duration.value, ':')))
      case Some(seconds) => seconds
      case None => 0
  }
}
