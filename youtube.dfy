/**
  The YouTube audio provider's choice of a video for a song
  (spotdl/providers/audio/youtube.py): the search term, the scoring of
  search results, and the pick of the best-scoring URL.

  `slugify`, `match_percentage` and the search engine are foreign code;
  they are parameters of the provider here, so every fact below holds
  whatever they compute. Scores are exact reals.
*/
module YouTube {
  import opened Wrappers
  import opened Errors
  import opened Strings
  import opened Types
  import opened Formatter

  /** The attributes of one search hit that the provider reads. */
  datatype Candidate = Candidate(videoId: Option<string>, title: string, length: real, watchUrl: Option<string>)

  /** The provider's settings and the foreign functions it calls. */
  datatype Provider = Provider(
    searchQuery: Option<string>,
    filterResults: bool,
    getResults: string -> Option<seq<Candidate>>,
    slugify: string -> string,
    matchPercentage: (string, string) -> real)

  /** Python truthiness of an optional string. */
  predicate Truthy(s: Option<string>) {
    s.Some? && |s.value| > 0
  }

  // ------------------------------------------------ an insertion-ordered dict

  /** A dict from watch URLs (possibly None) to scores, in insertion order. */
  type Key = Option<string>
  type Dict = seq<(Key, real)>

  function Keys(d: Dict): (ks: seq<Key>)
    ensures |ks| == |d| && forall i :: 0 <= i < |d| ==> ks[i] == d[i].0
  {
    seq(|d|, i requires 0 <= i < |d| => d[i].0)
  }

  /** `d.get(k)`. */
  function Lookup(d: Dict, k: Key): Option<real>
    decreases |d|
  {
    if |d| == 0 then None
    else if d[0].0 == k then Some(d[0].1)
    else Lookup(d[1..], k)
  }

  /** Every key occurs once. */
  predicate DistinctKeys(d: Dict) {
    forall i, j :: 0 <= i < j < |d| ==> d[i].0 != d[j].0
  }

  /**
    `d[k] = v`: a new key goes to the end, an existing key keeps its place
    and takes the new value, and nothing else changes.
  */
  function Put(d: Dict, k: Key, v: real): (r: Dict)
    ensures Lookup(r, k) == Some(v)
    ensures forall j :: j != k ==> Lookup(r, j) == Lookup(d, j)
    ensures k in Keys(d) ==> Keys(r) == Keys(d)
    ensures k !in Keys(d) ==> Keys(r) == Keys(d) + [k]
    decreases |d|
  {
    if |d| == 0 then [(k, v)]
    else if d[0].0 == k then
      var r := [(k, v)] + d[1..];
      assert r[1..] == d[1..];
      assert forall i :: 0 <= i < |d| ==> r[i].0 == d[i].0;
      r
    else
      var rest := Put(d[1..], k, v);
      ConsLookup(d[0], rest, d[1..], k);
      assert Keys(d) == [d[0].0] + Keys(d[1..]);
      assert Keys([d[0]] + rest) == [d[0].0] + Keys(rest);
      [d[0]] + rest
  }

  /** Lookups in two dicts that differ only at `k` still differ only at `k` once the same entry is put in front. */
  lemma ConsLookup(e: (Key, real), r: Dict, d: Dict, k: Key)
    requires e.0 != k
    requires forall j :: j != k ==> Lookup(r, j) == Lookup(d, j)
    ensures Lookup([e] + r, k) == Lookup(r, k)
    ensures forall j :: j != k ==> Lookup([e] + r, j) == Lookup([e] + d, j)
  {
    assert ([e] + r)[1..] == r;
    assert ([e] + d)[1..] == d;
  }

  /** A value stored under a key is found under it. */
  lemma {:induction false} LookupAt(d: Dict, i: nat)
    requires DistinctKeys(d) && i < |d|
    ensures Lookup(d, d[i].0) == Some(d[i].1)
    decreases i
  {
    if i > 0 {
      assert DistinctKeys(d[1..]) by {
        forall a, b | 0 <= a < b < |d| - 1 ensures d[1..][a].0 != d[1..][b].0 {
          assert d[1..][a] == d[a + 1] && d[1..][b] == d[b + 1];
        }
      }
      assert d[0].0 != d[i].0;
      LookupAt(d[1..], i - 1);
    }
  }

  /** A dict only ever holds distinct keys. */
  lemma PutDistinct(d: Dict, k: Key, v: real)
    requires DistinctKeys(d)
    ensures DistinctKeys(Put(d, k, v))
  {
    var r := Put(d, k, v);
    forall i, j | 0 <= i < j < |r| ensures r[i].0 != r[j].0 {
      if k in Keys(d) {
        assert Keys(r)[i] == Keys(d)[i] && Keys(r)[j] == Keys(d)[j];
      } else {
        assert Keys(r)[i] == (Keys(d) + [k])[i] && Keys(r)[j] == (Keys(d) + [k])[j];
        if j == |d| {
          assert Keys(d)[i] == d[i].0;
        }
      }
    }
  }

  // ---------------------------------------------------------------- picking

  /** Entry `i` has the highest score and no earlier entry ties with it. */
  predicate FirstMax(d: Dict, i: nat) {
    i < |d| &&
    (forall j :: 0 <= j < |d| ==> d[j].1 <= d[i].1) &&
    (forall j :: 0 <= j < i ==> d[j].1 < d[i].1)
  }

  /**
    The head of `sorted(d.items(), key=score, reverse=True)`: Python's sort
    is stable even when reversed, so it is the first entry of highest score.
  */
  function Best(d: Dict): (i: nat)
    requires |d| > 0
    ensures FirstMax(d, i)
    decreases |d|
  {
    if |d| == 1 then 0
    else
      var j := Best(d[..|d| - 1]);
      assert forall k :: 0 <= k < |d| - 1 ==> d[..|d| - 1][k] == d[k];
      if d[|d| - 1].1 > d[j].1 then |d| - 1 else j
  }

  /** At most one entry is the first of highest score. */
  lemma FirstMaxUnique(d: Dict, i: nat, j: nat)
    requires FirstMax(d, i) && FirstMax(d, j)
    ensures i == j
  {
    assert d[i].1 == d[j].1;
  }

  // ---------------------------------------------------------------- scoring

  /** Some non-empty word of `words` occurs in `text`. */
  predicate CommonWord(words: seq<string>, text: string) {
    exists i :: 0 <= i < |words| && words[i] != "" && Contains(text, words[i])
  }

  /** The words of the slugified song name: hyphens made spaces, split on spaces. */
  function Words(slugName: string): seq<string> {
    Split(ReplaceAll(slugName, "-", " "), ' ')
  }

  /** The sum of the artists' match percentages against a result title. */
  function ArtistSum(p: Provider, artists: seq<string>, slugResult: string): real
    decreases |artists|
  {
    if |artists| == 0 then 0.0
    else
      var last := artists[|artists| - 1];
      ArtistSum(p, artists[..|artists| - 1], slugResult) + p.matchPercentage(p.slugify(last), slugResult)
  }

  /** The unclamped time match of a result `length` against the song's `duration`. */
  function TimeMatch(length: real, duration: real): real
    requires duration != 0.0
  {
    100.0 - (length - duration * duration) / duration * 100.0
  }

  /**
    The score of one result, or None when a gate drops it: no video id, no
    word of the song name in the result title, artist match under 70, or
    name match under 50. Dividing by an empty artist list or a zero
    duration is Python's ZeroDivisionError.
  */
  function Score(p: Provider, song: Song, slugName: string, slugTitle: string, c: Candidate): Result<Option<real>, Error> {
    if c.videoId.None? then Success(None)
    else
      var slugResult := p.slugify(c.title);
      if !CommonWord(Words(slugName), slugResult) then Success(None)
      else if |song.artists| == 0 then Failure(ZeroDivisionError)
      else
        var artistMatch := ArtistSum(p, song.artists, slugResult) / (|song.artists| as real);
        if artistMatch < 70.0 then Success(None)
        else
          var nameMatch := p.matchPercentage(slugResult, slugTitle);
          if nameMatch < 50.0 then Success(None)
          else if song.duration == 0.0 then Failure(ZeroDivisionError)
          else Success(Some((artistMatch + nameMatch + TimeMatch(c.length, song.duration)) / 3.0))
  }

  /** The dict order_results has built after the results `cs`. */
  function Ranked(p: Provider, song: Song, slugName: string, slugTitle: string, cs: seq<Candidate>): Result<Dict, Error>
    decreases |cs|
  {
    if |cs| == 0 then Success([])
    else
      var d :- Ranked(p, song, slugName, slugTitle, cs[..|cs| - 1]);
      var c := cs[|cs| - 1];
      var s :- Score(p, song, slugName, slugTitle, c);
      if s.None? then Success(d) else Success(Put(d, c.watchUrl, s.value))
  }

  /** The slugified title results are compared with: the search query when a template is set. */
  function SlugTitle(p: Provider, song: Song): Result<string, Error> {
    if Truthy(p.searchQuery) then
      var q :- CreateSearchQuery(song, p.searchQuery.value, false, None, true);
      Success(p.slugify(q))
    else Success(p.slugify(CreateSongTitle(song.name, song.artists)))
  }

  /** What order_results returns. */
  function Ordered(p: Provider, results: seq<Candidate>, song: Song): Result<Dict, Error> {
    var slugTitle :- SlugTitle(p, song);
    Ranked(p, song, p.slugify(song.name), slugTitle, results)
  }

  /** YouTube.order_results. */
  method OrderResults(p: Provider, results: seq<Candidate>, song: Song) returns (r: Result<Dict, Error>)
    ensures r == Ordered(p, results, song)
  {
    var slugName := p.slugify(song.name);
    var title := SlugTitleOf(p, song);
    if title.Failure? {
      return Failure(title.error);
    }
    var slugTitle := title.value;
    var links: Dict := [];
    var i := 0;
    while i < |results|
      invariant 0 <= i <= |results|
      invariant Ranked(p, song, slugName, slugTitle, results[..i]) == Success(links)
    {
      var s := ScoreResult(p, song, slugName, slugTitle, results[i]);
      RankedStep(p, song, slugName, slugTitle, results, i, links, s);
      if s.Failure? {
        return Failure(s.error);
      }
      if s.value.Some? {
        links := Put(links, results[i].watchUrl, s.value.value);
      }
      i := i + 1;
    }
    assert results[..i] == results;
    return Success(links);
  }

  /** The slugified title order_results compares with, built before its loop. */
  method SlugTitleOf(p: Provider, song: Song) returns (r: Result<string, Error>)
    ensures r == SlugTitle(p, song)
  {
    if Truthy(p.searchQuery) {
      var q := CreateSearchQuery(song, p.searchQuery.value, false, None, true);
      if q.Failure? {
        return Failure(q.error);
      }
      return Success(p.slugify(q.value));
    }
    return Success(p.slugify(CreateSongTitle(song.name, song.artists)));
  }

  /** The body of order_results' loop for one result, with its inner artist loop. */
  method ScoreResult(p: Provider, song: Song, slugName: string, slugTitle: string, result: Candidate)
    returns (s: Result<Option<real>, Error>)
    ensures s == Score(p, song, slugName, slugTitle, result)
  {
    if result.videoId.None? {
      return Success(None);
    }
    var slugResult := p.slugify(result.title);
    var sentenceWords := Split(ReplaceAll(slugName, "-", " "), ' ');
    if !CommonWord(sentenceWords, slugResult) {
      return Success(None);
    }
    var artistMatchNumber := 0.0;
    var k := 0;
    while k < |song.artists|
      invariant 0 <= k <= |song.artists|
      invariant artistMatchNumber == ArtistSum(p, song.artists[..k], slugResult)
    {
      assert song.artists[..k + 1][..k] == song.artists[..k];
      artistMatchNumber := artistMatchNumber + p.matchPercentage(p.slugify(song.artists[k]), slugResult);
      k := k + 1;
    }
    assert song.artists[..k] == song.artists;
    if |song.artists| == 0 {
      return Failure(ZeroDivisionError);
    }
    var artistMatch := artistMatchNumber / (|song.artists| as real);
    if artistMatch < 70.0 {
      return Success(None);
    }
    var nameMatch := p.matchPercentage(slugResult, slugTitle);
    if nameMatch < 50.0 {
      return Success(None);
    }
    if song.duration == 0.0 {
      return Failure(ZeroDivisionError);
    }
    var timeMatch := TimeMatch(result.length, song.duration);
    return Success(Some((artistMatch + nameMatch + timeMatch) / 3.0));
  }

  /** The dict after one more result: the result's score put in, or the error raised for good. */
  lemma RankedStep(p: Provider, song: Song, n: string, t: string, cs: seq<Candidate>, i: nat, d: Dict,
                   s: Result<Option<real>, Error>)
    requires i < |cs| && Ranked(p, song, n, t, cs[..i]) == Success(d) && Score(p, song, n, t, cs[i]) == s
    ensures s.Failure? ==> Ranked(p, song, n, t, cs) == Failure(s.error)
    ensures s.Success? ==>
      Ranked(p, song, n, t, cs[..i + 1]) == Success(if s.value.None? then d else Put(d, cs[i].watchUrl, s.value.value))
  {
    assert cs[..i + 1][..i] == cs[..i];
    if s.Failure? {
      RankedFailureSticks(p, song, n, t, cs, i + 1);
      assert cs[..|cs|] == cs;
    }
  }

  /** Once a result raises, order_results raises that error whatever follows. */
  lemma {:induction false} RankedFailureSticks(p: Provider, song: Song, n: string, t: string, cs: seq<Candidate>, k: nat)
    requires k <= |cs|
    ensures Ranked(p, song, n, t, cs[..k]).Failure? ==> Ranked(p, song, n, t, cs) == Ranked(p, song, n, t, cs[..k])
    decreases |cs| - k
  {
    if k < |cs| && Ranked(p, song, n, t, cs[..k]).Failure? {
      assert cs[..k + 1][..k] == cs[..k];
      RankedFailureSticks(p, song, n, t, cs, k + 1);
    } else if k == |cs| {
      assert cs[..k] == cs;
    }
  }

  // ------------------------------------------------------------------ search

  /** The search term: a direct hit from the ISRC lookup, or a text to search for. */
  datatype Term = Direct(url: Option<string>) | Query(text: string)

  /** The ISRC lookup returned exactly one result and it has a watch URL. */
  predicate IsrcHit(p: Provider, song: Song) {
    Truthy(song.isrc) &&
    var rs := p.getResults(song.isrc.value);
    rs.Some? && |rs.value| == 1 && rs.value[0].watchUrl.Some?
  }

  function SearchTerm(p: Provider, song: Song): Result<Term, Error> {
    if Truthy(p.searchQuery) then
      var q :- CreateSearchQuery(song, p.searchQuery.value, false, None, true);
      Success(Query(q))
    else if IsrcHit(p, song) then Success(Direct(p.getResults(song.isrc.value).value[0].watchUrl))
    else Success(Query(Lower(CreateSongTitle(song.name, song.artists))))
  }

  /**
    The scored results of a search: only the first hit, at 100, when results
    are filtered (an empty list has no first hit), else order_results.
  */
  function Ranking(p: Provider, song: Song, results: seq<Candidate>): Result<Dict, Error> {
    if p.filterResults then
      if |results| == 0 then Failure(IndexError) else Success([(results[0].watchUrl, 100.0)])
    else Ordered(p, results, song)
  }

  /** YouTube.search: the chosen watch URL, or None. */
  function Search(p: Provider, song: Song): Result<Option<string>, Error> {
    var term :- SearchTerm(p, song);
    match term
    case Direct(url) => Success(url)
    case Query(q) =>
      var results := p.getResults(q);
      if results.None? then Success(None)
      else
        var d :- Ranking(p, song, results.value);
        if |d| == 0 then Success(None) else Success(d[Best(d)].0)
  }
}
