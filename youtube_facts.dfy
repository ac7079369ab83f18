/**
  What YouTube.search and YouTube.order_results guarantee: which results
  are scored, what a score is, which URL wins, and where the search term
  comes from.
*/
module YouTubeFacts {
  import opened Wrappers
  import opened Errors
  import opened Strings
  import opened Types
  import opened Formatter
  import opened YouTube

  // ---------------------------------------------------------------- scoring

  /** The average artist match of a result title. */
  function ArtistMatch(p: Provider, song: Song, slugResult: string): real
    requires |song.artists| > 0
  {
    ArtistSum(p, song.artists, slugResult) / (|song.artists| as real)
  }

  /** The three gates of order_results, past which a result (with a video id) is scored. */
  predicate Gates(p: Provider, song: Song, slugName: string, slugTitle: string, c: Candidate) {
    var slugResult := p.slugify(c.title);
    c.videoId.Some? &&
    CommonWord(Words(slugName), slugResult) &&
    |song.artists| > 0 &&
    ArtistMatch(p, song, slugResult) >= 70.0 &&
    p.matchPercentage(slugResult, slugTitle) >= 50.0
  }

  /**
    A result is kept exactly when it passes the gates (and the song's
    duration is not zero); its score is the average of the artist, name and
    time matches, with the time match not clamped.
  */
  lemma ScoreKept(p: Provider, song: Song, n: string, t: string, c: Candidate)
    ensures Score(p, song, n, t, c).Success? && Score(p, song, n, t, c).value.Some?
      <==> Gates(p, song, n, t, c) && song.duration != 0.0
    ensures Gates(p, song, n, t, c) && song.duration != 0.0 ==>
      var slugResult := p.slugify(c.title);
      Score(p, song, n, t, c).value.value ==
        (ArtistMatch(p, song, slugResult) + p.matchPercentage(slugResult, t) + TimeMatch(c.length, song.duration)) / 3.0
  {
  }

  /**
    Scoring raises ZeroDivisionError exactly for a result with a video id
    and a common word when the song has no artists, or when it passes all
    gates and the song's duration is zero.
  */
  lemma ScoreRaises(p: Provider, song: Song, n: string, t: string, c: Candidate)
    ensures Score(p, song, n, t, c).Failure? <==>
      c.videoId.Some? && CommonWord(Words(n), p.slugify(c.title)) &&
      (|song.artists| == 0 || (Gates(p, song, n, t, c) && song.duration == 0.0))
    ensures Score(p, song, n, t, c).Failure? ==> Score(p, song, n, t, c).error == ZeroDivisionError
  {
  }

  /** A result shorter than the square of the song's duration gets a time match above 100. */
  lemma TimeMatchAbove(length: real, duration: real)
    requires duration > 0.0
    ensures TimeMatch(length, duration) > 100.0 <==> length < duration * duration
  {
    var q := (length - duration * duration) / duration;
    assert q * duration == length - duration * duration;
    assert q < 0.0 <==> length - duration * duration < 0.0;
  }

  // ---------------------------------------------------------- order_results

  /** order_results succeeds only when every result's scoring does. */
  lemma {:induction false} RankedScores(p: Provider, song: Song, n: string, t: string, cs: seq<Candidate>)
    requires Ranked(p, song, n, t, cs).Success?
    ensures forall j :: 0 <= j < |cs| ==> Score(p, song, n, t, cs[j]).Success?
    decreases |cs|
  {
    if |cs| > 0 {
      var init := cs[..|cs| - 1];
      RankedScores(p, song, n, t, init);
      assert forall j :: 0 <= j < |init| ==> init[j] == cs[j];
    }
  }

  /** order_results' dict never holds a key twice. */
  lemma {:induction false} RankedDistinct(p: Provider, song: Song, n: string, t: string, cs: seq<Candidate>)
    requires Ranked(p, song, n, t, cs).Success?
    ensures DistinctKeys(Ranked(p, song, n, t, cs).value)
    decreases |cs|
  {
    if |cs| > 0 {
      var init := cs[..|cs| - 1];
      RankedDistinct(p, song, n, t, init);
      var s := Score(p, song, n, t, cs[|cs| - 1]);
      if s.value.Some? {
        PutDistinct(Ranked(p, song, n, t, init).value, cs[|cs| - 1].watchUrl, s.value.value);
      }
    }
  }

  /** A key is in the dict exactly when looking it up finds a value. */
  lemma {:induction false} KeysLookup(d: Dict, k: Key)
    ensures k in Keys(d) <==> Lookup(d, k).Some?
    decreases |d|
  {
    if |d| > 0 {
      KeysLookup(d[1..], k);
      assert Keys(d) == [d[0].0] + Keys(d[1..]);
    }
  }

  /** A value that is found sits at some entry of the dict. */
  lemma {:induction false} LookupIndex(d: Dict, k: Key) returns (i: nat)
    requires Lookup(d, k).Some?
    ensures i < |d| && d[i] == (k, Lookup(d, k).value)
    decreases |d|
  {
    if d[0].0 == k {
      i := 0;
    } else {
      var i' := LookupIndex(d[1..], k);
      i := i' + 1;
    }
  }

  /** Every value in order_results' dict is the score of a kept result with that URL. */
  lemma {:induction false} RankedSound(p: Provider, song: Song, n: string, t: string, cs: seq<Candidate>, k: Key)
    requires Ranked(p, song, n, t, cs).Success?
    requires Lookup(Ranked(p, song, n, t, cs).value, k).Some?
    ensures exists j :: (0 <= j < |cs| && cs[j].watchUrl == k &&
      Score(p, song, n, t, cs[j]) == Success(Lookup(Ranked(p, song, n, t, cs).value, k)))
    decreases |cs|
  {
    var init := cs[..|cs| - 1];
    var c := cs[|cs| - 1];
    var d := Ranked(p, song, n, t, init).value;
    var s := Score(p, song, n, t, c);
    if s.value.Some? && k == c.watchUrl {
      assert Score(p, song, n, t, cs[|cs| - 1]) == Success(Lookup(Ranked(p, song, n, t, cs).value, k));
    } else {
      assert Lookup(Ranked(p, song, n, t, cs).value, k) == Lookup(d, k);
      RankedSound(p, song, n, t, init, k);
      var j :| 0 <= j < |init| && init[j].watchUrl == k && Score(p, song, n, t, init[j]) == Success(Lookup(d, k));
      assert cs[j] == init[j];
    }
  }

  /**
    A kept result's URL maps to its score unless a later result with the
    same URL is kept too: the last kept score wins.
  */
  lemma {:induction false} RankedLastWins(p: Provider, song: Song, n: string, t: string, cs: seq<Candidate>, j: nat)
    requires Ranked(p, song, n, t, cs).Success?
    requires j < |cs| && Score(p, song, n, t, cs[j]).Success? && Score(p, song, n, t, cs[j]).value.Some?
    requires forall l :: j < l < |cs| && cs[l].watchUrl == cs[j].watchUrl ==> Score(p, song, n, t, cs[l]) == Success(None)
    ensures Lookup(Ranked(p, song, n, t, cs).value, cs[j].watchUrl) == Score(p, song, n, t, cs[j]).value
    decreases |cs|
  {
    var init := cs[..|cs| - 1];
    var c := cs[|cs| - 1];
    if j < |cs| - 1 {
      assert init[j] == cs[j];
      forall l | j < l < |init| && init[l].watchUrl == init[j].watchUrl
        ensures Score(p, song, n, t, init[l]) == Success(None)
      {
        assert init[l] == cs[l];
      }
      RankedLastWins(p, song, n, t, init, j);
    }
  }

  /** Every kept result's URL is a key of order_results' dict. */
  lemma {:induction false} RankedComplete(p: Provider, song: Song, n: string, t: string, cs: seq<Candidate>, j: nat)
    requires Ranked(p, song, n, t, cs).Success?
    requires j < |cs| && Score(p, song, n, t, cs[j]).Success? && Score(p, song, n, t, cs[j]).value.Some?
    ensures cs[j].watchUrl in Keys(Ranked(p, song, n, t, cs).value)
    decreases |cs|
  {
    var init := cs[..|cs| - 1];
    var c := cs[|cs| - 1];
    var d := Ranked(p, song, n, t, init).value;
    if j < |cs| - 1 {
      assert init[j] == cs[j];
      RankedComplete(p, song, n, t, init, j);
      KeysLookup(d, cs[j].watchUrl);
      KeysLookup(Ranked(p, song, n, t, cs).value, cs[j].watchUrl);
    } else {
      KeysLookup(Ranked(p, song, n, t, cs).value, cs[j].watchUrl);
    }
  }

  // ------------------------------------------------------------------ search

  /**
    With a search template configured the term is the formatted template,
    and only the results for that term matter: the ISRC is never looked up.
  */
  lemma TemplateSkipsIsrc(p: Provider, song: Song, q: string, g: string -> Option<seq<Candidate>>)
    requires Truthy(p.searchQuery)
    requires CreateSearchQuery(song, p.searchQuery.value, false, None, true) == Success(q)
    requires g(q) == p.getResults(q)
    ensures SearchTerm(p, song) == Success(Query(q))
    ensures Search(p.(getResults := g), song) == Search(p, song)
  {
    var p' := p.(getResults := g);
    assert SlugTitle(p', song) == SlugTitle(p, song);
    if p.getResults(q).Some? {
      var cs := p.getResults(q).value;
      assert Ranking(p', song, cs) == Ranking(p, song, cs) by {
        if !p.filterResults {
          RankedIgnoresResults(p, g, song, p.slugify(song.name), SlugTitle(p, song).value, cs);
        }
      }
    }
  }

  /** Scoring uses the search engine nowhere. */
  lemma {:induction false} RankedIgnoresResults(p: Provider, g: string -> Option<seq<Candidate>>, song: Song, n: string, t: string, cs: seq<Candidate>)
    ensures Ranked(p.(getResults := g), song, n, t, cs) == Ranked(p, song, n, t, cs)
    decreases |cs|
  {
    if |cs| > 0 {
      RankedIgnoresResults(p, g, song, n, t, cs[..|cs| - 1]);
      assert Score(p.(getResults := g), song, n, t, cs[|cs| - 1]) == Score(p, song, n, t, cs[|cs| - 1]) by {
        assert ArtistSum(p.(getResults := g), song.artists, p.slugify(cs[|cs| - 1].title))
          == ArtistSum(p, song.artists, p.slugify(cs[|cs| - 1].title)) by {
          ArtistSumIgnoresResults(p, g, song.artists, p.slugify(cs[|cs| - 1].title));
        }
      }
    }
  }

  lemma {:induction false} ArtistSumIgnoresResults(p: Provider, g: string -> Option<seq<Candidate>>, artists: seq<string>, r: string)
    ensures ArtistSum(p.(getResults := g), artists, r) == ArtistSum(p, artists, r)
    decreases |artists|
  {
    if |artists| > 0 {
      ArtistSumIgnoresResults(p, g, artists[..|artists| - 1], r);
    }
  }

  /** A template that cannot be formatted makes the search raise the same error. */
  lemma TemplateError(p: Provider, song: Song)
    requires Truthy(p.searchQuery)
    requires CreateSearchQuery(song, p.searchQuery.value, false, None, true).Failure?
    ensures Search(p, song) == Failure(CreateSearchQuery(song, p.searchQuery.value, false, None, true).error)
  {
  }

  /**
    Without a template, an ISRC whose lookup gives exactly one result with
    a watch URL returns that URL, without any scoring.
  */
  lemma IsrcShortCircuit(p: Provider, song: Song, c: Candidate)
    requires !Truthy(p.searchQuery) && Truthy(song.isrc)
    requires p.getResults(song.isrc.value) == Some([c]) && c.watchUrl.Some?
    ensures Search(p, song) == Success(c.watchUrl)
  {
  }

  /** Otherwise, without a template, the term is the lower-cased song title. */
  lemma TitleTerm(p: Provider, song: Song)
    requires !Truthy(p.searchQuery) && !IsrcHit(p, song)
    ensures SearchTerm(p, song) == Success(Query(Lower(CreateSongTitle(song.name, song.artists))))
  {
  }

  /** No results (None) is no answer. */
  lemma NoResults(p: Provider, song: Song, q: string)
    requires SearchTerm(p, song) == Success(Query(q)) && p.getResults(q).None?
    ensures Search(p, song) == Success(None)
  {
  }

  /** With filter_results, the answer is the first result's URL; an empty list raises IndexError. */
  lemma FilteredFirst(p: Provider, song: Song, q: string, cs: seq<Candidate>)
    requires p.filterResults && SearchTerm(p, song) == Success(Query(q)) && p.getResults(q) == Some(cs)
    ensures |cs| == 0 ==> Search(p, song) == Failure(IndexError)
    ensures |cs| > 0 ==> Search(p, song) == Success(cs[0].watchUrl)
  {
    if |cs| > 0 {
      assert Best([(cs[0].watchUrl, 100.0)]) == 0;
    }
  }

  /** Without filtering, the answer is the first key of highest score in order_results' dict. */
  lemma PicksFirstMax(p: Provider, song: Song, q: string, cs: seq<Candidate>, d: Dict, i: nat)
    requires !p.filterResults && SearchTerm(p, song) == Success(Query(q)) && p.getResults(q) == Some(cs)
    requires Ordered(p, cs, song) == Success(d) && FirstMax(d, i)
    ensures Search(p, song) == Success(d[i].0)
  {
    FirstMaxUnique(d, i, Best(d));
  }

  /** Without filtering, no kept result means no answer. */
  lemma NothingKept(p: Provider, song: Song, q: string, cs: seq<Candidate>)
    requires !p.filterResults && SearchTerm(p, song) == Success(Query(q)) && p.getResults(q) == Some(cs)
    requires Ordered(p, cs, song) == Success([])
    ensures Search(p, song) == Success(None)
  {
  }

  /**
    Without filtering, the answer is the URL of a kept result whose final
    score in the dict is the highest of all.
  */
  lemma SearchWinner(p: Provider, song: Song, q: string, cs: seq<Candidate>) returns (j: nat)
    requires !p.filterResults && SearchTerm(p, song) == Success(Query(q)) && p.getResults(q) == Some(cs)
    requires SlugTitle(p, song).Success?
    requires Ordered(p, cs, song).Success? && |Ordered(p, cs, song).value| > 0
    ensures var d := Ordered(p, cs, song).value;
      j < |cs| && Search(p, song) == Success(cs[j].watchUrl) &&
      Score(p, song, p.slugify(song.name), SlugTitle(p, song).value, cs[j]) == Success(Lookup(d, cs[j].watchUrl)) &&
      Lookup(d, cs[j].watchUrl).Some? &&
      forall k :: Lookup(d, k).Some? ==> Lookup(d, k).value <= Lookup(d, cs[j].watchUrl).value
  {
    var n := p.slugify(song.name);
    var t := SlugTitle(p, song).value;
    var d := Ordered(p, cs, song).value;
    assert d == Ranked(p, song, n, t, cs).value;
    var b := Best(d);
    RankedDistinct(p, song, n, t, cs);
    LookupAt(d, b);
    RankedSound(p, song, n, t, cs, d[b].0);
    j :| 0 <= j < |cs| && cs[j].watchUrl == d[b].0 && Score(p, song, n, t, cs[j]) == Success(Lookup(d, d[b].0));
    forall k | Lookup(d, k).Some? ensures Lookup(d, k).value <= Lookup(d, cs[j].watchUrl).value {
      var i := LookupIndex(d, k);
    }
  }

  /** Every URL the search returns is the watch URL of one of the engine's results. */
  lemma SearchProvenance(p: Provider, song: Song)
    requires Search(p, song).Success? && Search(p, song).value.Some?
    ensures SearchTerm(p, song).Success?
    ensures match SearchTerm(p, song).value
      case Direct(url) => IsrcHit(p, song) && url == Search(p, song).value
      case Query(q) =>
        p.getResults(q).Some? &&
        exists j :: 0 <= j < |p.getResults(q).value| && p.getResults(q).value[j].watchUrl == Search(p, song).value
  {
    match SearchTerm(p, song).value
    case Direct(url) =>
    case Query(q) =>
      var cs := p.getResults(q).value;
      if p.filterResults {
        FilteredFirst(p, song, q, cs);
        assert cs[0].watchUrl == Search(p, song).value;
      } else {
        var j := SearchWinner(p, song, q, cs);
      }
  }
}
