/**
  What parse_query and get_simple_songs guarantee: which tokens are
  rejected, what a valid paired token yields, and the order of the songs
  they return.
*/
module QueryFacts {
  import opened Wrappers
  import opened Errors
  import opened Strings
  import opened Types
  import opened Query

  /** A token is rejected when it takes the paired branch and its pair is malformed. */
  predicate Rejected(request: string) {
    Classify(request) == Paired && PairedUrls(request).Failure?
  }

  // ------------------------------------------------------------ paired tokens

  /**
    Any token holding `youtube.com/watch?v=` takes the paired branch, so a
    bare watch URL (no `|`) is rejected with QueryError.
  */
  lemma BareWatchUrl(request: string)
    requires Contains(request, "youtube.com/watch?v=") && '|' !in request
    ensures Classify(request) == Paired
    ensures PairedUrls(request) == Failure(QueryError(QueryFormatMessage))
  {
    SplitWithoutSep(request, '|');
  }

  /** A YouTube URL, `|`, and a Spotify URL make a valid pair. */
  lemma ValidPair(a: string, b: string)
    requires '|' !in a && '|' !in b
    requires (Contains(a, "youtube") || Contains(a, "youtu.be")) && Contains(b, "spotify")
    ensures PairedUrls(a + "|" + b) == Success((a, b))
  {
    SplitFirst(a, '|', b);
    SplitWithoutSep(b, '|');
  }

  /** Parts after the second are ignored. */
  lemma ExtraPartsIgnored(a: string, b: string, rest: string)
    requires '|' !in a && '|' !in b
    ensures PairedUrls(a + "|" + b + "|" + rest) == PairedUrls(a + "|" + b)
  {
    SplitFirst(a, '|', b + "|" + rest);
    assert a + "|" + b + "|" + rest == a + ['|'] + (b + "|" + rest);
    SplitFirst(b, '|', rest);
    assert b + "|" + rest == b + ['|'] + rest;
    SplitFirst(a, '|', b);
    SplitWithoutSep(b, '|');
  }

  /**
    A valid paired token yields exactly one song: the Spotify part's song
    with the YouTube part as its download URL.
  */
  lemma PairedSong(c: Catalog, request: string, a: string, b: string)
    requires Classify(request) == Paired && PairedUrls(request) == Success((a, b))
    ensures Contribution(c, request) == Success(Parts([c.fromUrl(b).(downloadUrl := Some(a))], []))
    ensures SimpleContribution(c, request) == Success(Simple([Reference(b, Some(a))], []))
  {
  }

  // ---------------------------------------------------------------- failures

  /** parse_query raises exactly when some token is rejected, and then with QueryError. */
  lemma {:induction false} CollectFails(c: Catalog, query: seq<string>)
    ensures Collect(c, query).Failure? <==> exists i :: 0 <= i < |query| && Rejected(query[i])
    ensures Collect(c, query).Failure? ==> Collect(c, query).error == QueryError(QueryFormatMessage)
    decreases |query|
  {
    if |query| > 0 {
      var init := query[..|query| - 1];
      CollectFails(c, init);
      ContributionFails(c, query[|query| - 1]);
      assert forall i :: 0 <= i < |init| ==> init[i] == query[i];
      if exists i :: 0 <= i < |query| && Rejected(query[i]) {
        var i :| 0 <= i < |query| && Rejected(query[i]);
        if i < |init| {
          assert Rejected(init[i]);
        }
      }
    }
  }

  /** One token's contribution fails exactly when the token is rejected, and then with QueryError. */
  lemma ContributionFails(c: Catalog, request: string)
    ensures Contribution(c, request).Failure? <==> Rejected(request)
    ensures Rejected(request) ==> Contribution(c, request) == Failure(QueryError(QueryFormatMessage))
  {
  }

  /** get_simple_songs rejects exactly the same queries, with the same error. */
  lemma {:induction false} CollectSimpleFails(c: Catalog, query: seq<string>)
    ensures CollectSimple(c, query).Failure? <==> Collect(c, query).Failure?
    ensures CollectSimple(c, query).Failure? ==> CollectSimple(c, query).error == Collect(c, query).error
    decreases |query|
  {
    if |query| > 0 {
      CollectSimpleFails(c, query[..|query| - 1]);
    }
  }

  lemma ParseQueryFails(c: Catalog, query: seq<string>)
    ensures ParsedQuery(c, query).Failure? <==> exists i :: 0 <= i < |query| && Rejected(query[i])
    ensures SimpleSongs(c, query).Failure? <==> ParsedQuery(c, query).Failure?
    ensures SimpleSongs(c, query).Failure? ==> SimpleSongs(c, query).error == QueryError(QueryFormatMessage)
  {
    CollectFails(c, query);
    CollectSimpleFails(c, query);
  }

  // ------------------------------------------------------------------- order

  /** The token loop after one more token. */
  lemma CollectSnoc(c: Catalog, query: seq<string>, request: string)
    requires Collect(c, query).Success?
    ensures Collect(c, query + [request]) == Step(Collect(c, query).value, Contribution(c, request))
  {
    assert (query + [request])[..|query|] == query;
  }

  /** Gathering over two runs of tokens concatenates what each run gathers. */
  lemma {:induction false} CollectConcat(c: Catalog, a: seq<string>, b: seq<string>)
    requires Collect(c, a).Success? && Collect(c, b).Success?
    ensures Collect(c, a + b).Success?
    ensures Collect(c, a + b).value.songs == Collect(c, a).value.songs + Collect(c, b).value.songs
    ensures Collect(c, a + b).value.urls == Collect(c, a).value.urls + Collect(c, b).value.urls
    decreases |b|
  {
    var x := Collect(c, a).value;
    if |b| == 0 {
      assert a + b == a;
      assert x.songs + [] == x.songs && x.urls + [] == x.urls;
    } else {
      var b', r := b[..|b| - 1], b[|b| - 1];
      assert b == b' + [r];
      CollectConcat(c, a, b');
      assert a + b == (a + b') + [r];
      CollectStep(c, a, b', r);
    }
  }

  /** One more token at the end of the second run. */
  lemma CollectStep(c: Catalog, a: seq<string>, b: seq<string>, r: string)
    requires Collect(c, a).Success? && Collect(c, b + [r]).Success? && Collect(c, a + b).Success?
    requires Collect(c, a + b).value.songs == Collect(c, a).value.songs + Collect(c, b).value.songs
    requires Collect(c, a + b).value.urls == Collect(c, a).value.urls + Collect(c, b).value.urls
    ensures Collect(c, a + b + [r]).Success?
    ensures Collect(c, a + b + [r]).value.songs == Collect(c, a).value.songs + Collect(c, b + [r]).value.songs
    ensures Collect(c, a + b + [r]).value.urls == Collect(c, a).value.urls + Collect(c, b + [r]).value.urls
  {
    assert Collect(c, b).Success? by {
      assert (b + [r])[..|b|] == b;
    }
    CollectSnoc(c, b, r);
    CollectSnoc(c, a + b, r);
    StepJoin(Collect(c, a).value, Collect(c, b).value, Contribution(c, r));
  }

  /** One step after two runs' parts joined is the first run's parts joined with the step after the second. */
  lemma StepJoin(x: Parts, y: Parts, add: Result<Parts, Error>)
    requires Step(y, add).Success?
    ensures Step(Parts(x.songs + y.songs, x.urls + y.urls), add) ==
      Success(Parts(x.songs + Step(y, add).value.songs, x.urls + Step(y, add).value.urls))
  {
    var more := add.value;
    assert x.songs + y.songs + more.songs == x.songs + (y.songs + more.songs);
    assert x.urls + y.urls + more.urls == x.urls + (y.urls + more.urls);
  }

  /** Resolving two runs of URLs resolves each in turn. */
  lemma ResolveConcat(c: Catalog, a: seq<string>, b: seq<string>)
    ensures Resolve(c, a + b) == Resolve(c, a) + Resolve(c, b)
  {
    var l := Resolve(c, a + b);
    var r := Resolve(c, a) + Resolve(c, b);
    assert |l| == |r|;
    forall i | 0 <= i < |l| ensures l[i] == r[i] {
      if i < |a| {
        assert (a + b)[i] == a[i];
      } else {
        assert (a + b)[i] == b[i - |a|];
      }
    }
  }

  /**
    The order of parse_query's songs is not token order: the songs built
    directly from both runs of tokens come first, then the URL-resolved
    songs of both runs.
  */
  lemma QueryOrder(c: Catalog, a: seq<string>, b: seq<string>)
    requires Collect(c, a).Success? && Collect(c, b).Success?
    ensures ParsedQuery(c, a + b) == Success(
      Collect(c, a).value.songs + Collect(c, b).value.songs +
      Resolve(c, Collect(c, a).value.urls) + Resolve(c, Collect(c, b).value.urls))
  {
    CollectConcat(c, a, b);
    var x := Collect(c, a).value;
    var y := Collect(c, b).value;
    var z := Collect(c, a + b).value;
    ResolveConcat(c, x.urls, y.urls);
    assert z.songs + Resolve(c, z.urls) == x.songs + y.songs + Resolve(c, x.urls) + Resolve(c, y.urls);
  }

  /** A track token before a search term still comes out after the search term's song. */
  lemma TrackAfterSearch(c: Catalog, track: string, term: string)
    requires Classify(track) == Track && Classify(term) == SearchTerm
    ensures ParsedQuery(c, [track, term]) == Success([c.fromSearchTerm(term), c.fromUrl(track)])
  {
    CollectSnoc(c, [], track);
    assert [] + [track] == [track];
    var one := Collect(c, [track]).value;
    assert one.songs == [] && one.urls == [track];
    CollectSnoc(c, [track], term);
    assert [track] + [term] == [track, term];
    var two := Collect(c, [track, term]).value;
    assert two.songs == [c.fromSearchTerm(term)] && two.urls == [track];
    assert two.songs + Resolve(c, two.urls) == [c.fromSearchTerm(term), c.fromUrl(track)];
  }

  /** A manifest contributes one song per record, in file order. */
  lemma ManifestSongs(c: Catalog, request: string)
    requires Classify(request) == Manifest
    ensures ParsedQuery(c, [request]) == Success(c.manifest(request))
  {
    CollectSnoc(c, [], request);
    assert [] + [request] == [request];
    var one := Collect(c, [request]).value;
    assert one.songs == c.manifest(request) && one.urls == [];
    assert one.songs + Resolve(c, one.urls) == c.manifest(request);
  }

  /** The URLs an artist token gathers: each album's URLs, album after album. */
  lemma {:induction false} ArtistUrlsConcat(c: Catalog, a: seq<string>, b: seq<string>)
    ensures ArtistUrls(c, a + b) == ArtistUrls(c, a) + ArtistUrls(c, b)
    decreases |b|
  {
    if |b| == 0 {
      assert a + b == a;
    } else {
      var b' := b[..|b| - 1];
      assert (a + b)[..|a + b| - 1] == a + b';
      assert (a + b)[|a + b| - 1] == b[|b| - 1];
      ArtistUrlsConcat(c, a, b');
    }
  }

  // --------------------------------------------------------- get_simple_songs

  /** The number of URLs in the collections. */
  function TotalUrls(lists: seq<SongList>): nat
    decreases |lists|
  {
    if |lists| == 0 then 0 else TotalUrls(lists[..|lists| - 1]) + |lists[|lists| - 1].urls|
  }

  /** The `j`-th URL of collection `l` becomes the placeholder at `TotalUrls(lists[..l]) + j`. */
  lemma {:induction false} ExpandAt(c: Catalog, lists: seq<SongList>, l: nat, j: nat)
    requires l < |lists| && j < |lists[l].urls|
    ensures |Expand(c, lists)| == TotalUrls(lists)
    ensures TotalUrls(lists[..l]) + j < |Expand(c, lists)|
    ensures Expand(c, lists)[TotalUrls(lists[..l]) + j] == c.emptySong(lists[l].urls[j], lists[l])
    decreases |lists|
  {
    var init := lists[..|lists| - 1];
    ExpandLength(c, init);
    if l == |lists| - 1 {
      assert lists[..l] == init;
    } else {
      ExpandAt(c, init, l, j);
      assert init[l] == lists[l];
      assert init[..l] == lists[..l];
      TotalUrlsPrefix(init, l);
    }
  }

  lemma {:induction false} ExpandLength(c: Catalog, lists: seq<SongList>)
    ensures |Expand(c, lists)| == TotalUrls(lists)
    decreases |lists|
  {
    if |lists| > 0 {
      ExpandLength(c, lists[..|lists| - 1]);
    }
  }

  lemma {:induction false} TotalUrlsPrefix(lists: seq<SongList>, l: nat)
    requires l <= |lists|
    ensures TotalUrls(lists[..l]) <= TotalUrls(lists)
    decreases |lists|
  {
    if l < |lists| {
      assert lists[..|lists| - 1][..l] == lists[..l];
      TotalUrlsPrefix(lists[..|lists| - 1], l);
    } else {
      assert lists[..l] == lists;
    }
  }

  /**
    get_simple_songs returns the directly built songs first, then one
    placeholder per collection URL: as many songs as both together.
  */
  lemma SimpleShape(c: Catalog, query: seq<string>)
    requires CollectSimple(c, query).Success?
    ensures var parts := CollectSimple(c, query).value;
      SimpleSongs(c, query).Success? &&
      |SimpleSongs(c, query).value| == |parts.songs| + TotalUrls(parts.lists) &&
      SimpleSongs(c, query).value[..|parts.songs|] == parts.songs
  {
    var parts := CollectSimple(c, query).value;
    ExpandLength(c, parts.lists);
    assert (parts.songs + Expand(c, parts.lists))[..|parts.songs|] == parts.songs;
  }
}
