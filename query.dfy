/**
  The query dispatcher (spotdl/utils/query.py): how each command-line token
  becomes songs, and the order in which parse_query and get_simple_songs
  return them.

  Everything that talks to Spotify or reads a file is a collaborator in
  `Catalog`; the thread pool of parse_query is an in-order map.
*/
module Query {
  import opened Wrappers
  import opened Errors
  import opened Strings
  import opened Types

  /** The collaborators the dispatcher calls. */
  datatype Catalog = Catalog(
    fromUrl: string -> Song,                 // Song.from_url
    fromSearchTerm: string -> Song,          // Song.from_search_term
    playlistUrls: string -> seq<string>,     // Playlist.get_urls
    albumUrls: string -> seq<string>,        // Album.get_urls
    artistAlbums: string -> seq<string>,     // Artist.get_albums
    savedUrls: seq<string>,                  // Saved.get_urls()
    manifest: string -> seq<Song>,           // the records of a .spotdl file, each through Song.from_dict
    playlistList: string -> SongList,        // Playlist.create_basic_list
    albumList: string -> SongList,           // Album.create_basic_list
    artistList: string -> SongList,          // Artist.create_basic_list
    savedList: SongList,                     // Saved.create_basic_list()
    emptySong: (string, SongList) -> Song)   // create_empty_song(url=..., song_list=...)

  // ---------------------------------------------------------- classification

  /**
    The paired-token test. Python's `and` binds tighter than `or`, so a
    token holding `youtube.com/watch?v=` is paired whatever else it holds.
  */
  predicate IsPaired(request: string) {
    Contains(request, "youtube.com/watch?v=") ||
    (Contains(request, "youtu.be/") && Contains(request, "open.spotify.com") &&
     Contains(request, "track") && Contains(request, "|"))
  }

  datatype Kind = Paired | Track | Playlist | Album | Artist | Saved | Manifest | SearchTerm

  /** The first branch of the dispatcher's `if`/`elif` chain that a token takes. */
  function Classify(request: string): Kind {
    var spotify := Contains(request, "open.spotify.com");
    if IsPaired(request) then Paired
    else if spotify && Contains(request, "track") then Track
    else if spotify && Contains(request, "playlist") then Playlist
    else if spotify && Contains(request, "album") then Album
    else if spotify && Contains(request, "artist") then Artist
    else if request == "saved" then Saved
    else if EndsWith(request, ".spotdl") then Manifest
    else SearchTerm
  }

  /**
    A paired token split on `|`: the YouTube URL and the Spotify URL, or
    QueryError when there is no second part, the first part names neither
    `youtube` nor `youtu.be`, or the second lacks `spotify`. Parts after the
    second are ignored.
  */
  function PairedUrls(request: string): Result<(string, string), Error> {
    var parts := Split(request, '|');
    if |parts| <= 1 || (!Contains(parts[0], "youtube") && !Contains(parts[0], "youtu.be")) || !Contains(parts[1], "spotify")
    then Failure(QueryError(QueryFormatMessage))
    else Success((parts[0], parts[1]))
  }

  // ------------------------------------------------------------- parse_query

  /** What the token loop has gathered: songs built at once, and URLs to resolve later. */
  datatype Parts = Parts(songs: seq<Song>, urls: seq<string>)

  /** The track URLs of an artist: each album's URLs, album after album. */
  function ArtistUrls(c: Catalog, albums: seq<string>): seq<string>
    decreases |albums|
  {
    if |albums| == 0 then []
    else ArtistUrls(c, albums[..|albums| - 1]) + c.albumUrls(albums[|albums| - 1])
  }

  /** What one token adds to the songs and to the URLs. */
  function Contribution(c: Catalog, request: string): Result<Parts, Error> {
    match Classify(request)
    case Paired =>
      var pair :- PairedUrls(request);
      Success(Parts([c.fromUrl(pair.1).(downloadUrl := Some(pair.0))], []))
    case Track => Success(Parts([], [request]))
    case Playlist => Success(Parts([], c.playlistUrls(request)))
    case Album => Success(Parts([], c.albumUrls(request)))
    case Artist => Success(Parts([], ArtistUrls(c, c.artistAlbums(request))))
    case Saved => Success(Parts([], c.savedUrls))
    case Manifest => Success(Parts(c.manifest(request), []))
    case SearchTerm => Success(Parts([c.fromSearchTerm(request)], []))
  }

  /** The token loop over `query`, failing at the first malformed paired token. */
  function Collect(c: Catalog, query: seq<string>): Result<Parts, Error>
    decreases |query|
  {
    if |query| == 0 then Success(Parts([], []))
    else
      var acc :- Collect(c, query[..|query| - 1]);
      Step(acc, Contribution(c, query[|query| - 1]))
  }

  /** The gathered parts after one more token's contribution. */
  function Step(acc: Parts, add: Result<Parts, Error>): Result<Parts, Error> {
    var a :- add;
    Success(Parts(acc.songs + a.songs, acc.urls + a.urls))
  }

  /** `Song.from_url` mapped over the URLs, in order. */
  function Resolve(c: Catalog, urls: seq<string>): (songs: seq<Song>)
    ensures |songs| == |urls| && forall i :: 0 <= i < |urls| ==> songs[i] == c.fromUrl(urls[i])
  {
    seq(|urls|, i requires 0 <= i < |urls| => c.fromUrl(urls[i]))
  }

  /** What parse_query returns: the songs built at once, then the resolved URLs. */
  function ParsedQuery(c: Catalog, query: seq<string>): Result<seq<Song>, Error> {
    var parts :- Collect(c, query);
    Success(parts.songs + Resolve(c, parts.urls))
  }

  /** parse_query. */
  method ParseQuery(c: Catalog, query: seq<string>) returns (r: Result<seq<Song>, Error>)
    ensures r == ParsedQuery(c, query)
  {
    var urls: seq<string> := [];
    var songs: seq<Song> := [];
    var i := 0;
    while i < |query|
      invariant 0 <= i <= |query|
      invariant Collect(c, query[..i]) == Success(Parts(songs, urls))
    {
      assert query[..i + 1][..i] == query[..i];
      var parts := Dispatch(c, query[i], Parts(songs, urls));
      if parts.Failure? {
        CollectFailureSticks(c, query, i + 1);
        assert query[..|query|] == query;
        return Failure(parts.error);
      }
      songs, urls := parts.value.songs, parts.value.urls;
      i := i + 1;
    }
    assert query[..i] == query;
    var k := 0;
    ghost var direct := songs;
    while k < |urls|
      invariant 0 <= k <= |urls|
      invariant songs == direct + Resolve(c, urls[..k])
    {
      songs := songs + [c.fromUrl(urls[k])];
      k := k + 1;
    }
    assert urls[..k] == urls;
    return Success(songs);
  }

  /** One pass of parse_query's token loop: the `if`/`elif` chain on one token. */
  method Dispatch(c: Catalog, request: string, acc: Parts) returns (r: Result<Parts, Error>)
    ensures r == Step(acc, Contribution(c, request))
  {
    var songs, urls := acc.songs, acc.urls;
    var spotify := Contains(request, "open.spotify.com");
    if IsPaired(request) {
      var pair := PairedUrls(request);
      if pair.Failure? {
        return Failure(pair.error);
      }
      songs := songs + [c.fromUrl(pair.value.1).(downloadUrl := Some(pair.value.0))];
    } else if spotify && Contains(request, "track") {
      urls := urls + [request];
    } else if spotify && Contains(request, "playlist") {
      urls := urls + c.playlistUrls(request);
    } else if spotify && Contains(request, "album") {
      urls := urls + c.albumUrls(request);
    } else if spotify && Contains(request, "artist") {
      var albums := c.artistAlbums(request);
      var k := 0;
      ghost var before := urls;
      while k < |albums|
        invariant 0 <= k <= |albums|
        invariant urls == before + ArtistUrls(c, albums[..k])
      {
        assert albums[..k + 1][..k] == albums[..k];
        urls := urls + c.albumUrls(albums[k]);
        k := k + 1;
      }
      assert albums[..k] == albums;
    } else if request == "saved" {
      urls := urls + c.savedUrls;
    } else if EndsWith(request, ".spotdl") {
      songs := songs + c.manifest(request);
    } else {
      songs := songs + [c.fromSearchTerm(request)];
    }
    assert Contribution(c, request).Success?;
    assert songs == acc.songs + Contribution(c, request).value.songs;
    assert urls == acc.urls + Contribution(c, request).value.urls;
    return Success(Parts(songs, urls));
  }

  /** Once a token raises, the token loop raises that error whatever follows. */
  lemma {:induction false} CollectFailureSticks(c: Catalog, query: seq<string>, k: nat)
    requires k <= |query|
    ensures Collect(c, query[..k]).Failure? ==> Collect(c, query) == Collect(c, query[..k])
    decreases |query| - k
  {
    if k < |query| && Collect(c, query[..k]).Failure? {
      assert query[..k + 1][..k] == query[..k];
      CollectFailureSticks(c, query, k + 1);
    } else if k == |query| {
      assert query[..k] == query;
    }
  }

  // -------------------------------------------------------- get_simple_songs

  /** What get_simple_songs' token loop gathers: songs, and collections to expand. */
  datatype Simple = Simple(songs: seq<Song>, lists: seq<SongList>)

  /** What one token adds, without fetching any track. */
  function SimpleContribution(c: Catalog, request: string): Result<Simple, Error> {
    match Classify(request)
    case Paired =>
      var pair :- PairedUrls(request);
      Success(Simple([Reference(pair.1, Some(pair.0))], []))
    case Track => Success(Simple([Reference(request, None)], []))
    case Playlist => Success(Simple([], [c.playlistList(request)]))
    case Album => Success(Simple([], [c.albumList(request)]))
    case Artist => Success(Simple([], [c.artistList(request)]))
    case Saved => Success(Simple([], [c.savedList]))
    case Manifest => Success(Simple(c.manifest(request), []))
    case SearchTerm => Success(Simple([c.fromSearchTerm(request)], []))
  }

  function CollectSimple(c: Catalog, query: seq<string>): Result<Simple, Error>
    decreases |query|
  {
    if |query| == 0 then Success(Simple([], []))
    else
      var acc :- CollectSimple(c, query[..|query| - 1]);
      StepSimple(acc, SimpleContribution(c, query[|query| - 1]))
  }

  function StepSimple(acc: Simple, add: Result<Simple, Error>): Result<Simple, Error> {
    var a :- add;
    Success(Simple(acc.songs + a.songs, acc.lists + a.lists))
  }

  /** One empty song per URL of a collection, in the collection's order. */
  function Placeholders(c: Catalog, list: SongList): (songs: seq<Song>)
    ensures |songs| == |list.urls| && forall i :: 0 <= i < |songs| ==> songs[i] == c.emptySong(list.urls[i], list)
  {
    seq(|list.urls|, i requires 0 <= i < |list.urls| => c.emptySong(list.urls[i], list))
  }

  /** The placeholders of every collection, collection after collection. */
  function Expand(c: Catalog, lists: seq<SongList>): seq<Song>
    decreases |lists|
  {
    if |lists| == 0 then []
    else Expand(c, lists[..|lists| - 1]) + Placeholders(c, lists[|lists| - 1])
  }

  /** What get_simple_songs returns. */
  function SimpleSongs(c: Catalog, query: seq<string>): Result<seq<Song>, Error> {
    var parts :- CollectSimple(c, query);
    Success(parts.songs + Expand(c, parts.lists))
  }

  /** get_simple_songs. */
  method GetSimpleSongs(c: Catalog, query: seq<string>) returns (r: Result<seq<Song>, Error>)
    ensures r == SimpleSongs(c, query)
  {
    var songs: seq<Song> := [];
    var lists: seq<SongList> := [];
    var i := 0;
    while i < |query|
      invariant 0 <= i <= |query|
      invariant CollectSimple(c, query[..i]) == Success(Simple(songs, lists))
    {
      assert query[..i + 1][..i] == query[..i];
      var parts := DispatchSimple(c, query[i], Simple(songs, lists));
      if parts.Failure? {
        CollectSimpleFailureSticks(c, query, i + 1);
        assert query[..|query|] == query;
        return Failure(parts.error);
      }
      songs, lists := parts.value.songs, parts.value.lists;
      i := i + 1;
    }
    assert query[..i] == query;
    var k := 0;
    ghost var direct := songs;
    while k < |lists|
      invariant 0 <= k <= |lists|
      invariant songs == direct + Expand(c, lists[..k])
    {
      assert lists[..k + 1][..k] == lists[..k];
      songs := songs + Placeholders(c, lists[k]);
      k := k + 1;
    }
    assert lists[..k] == lists;
    return Success(songs);
  }

  /** One pass of get_simple_songs' token loop. */
  method DispatchSimple(c: Catalog, request: string, acc: Simple) returns (r: Result<Simple, Error>)
    ensures r == StepSimple(acc, SimpleContribution(c, request))
  {
    var songs, lists := acc.songs, acc.lists;
    var spotify := Contains(request, "open.spotify.com");
    if IsPaired(request) {
      var pair := PairedUrls(request);
      if pair.Failure? {
        return Failure(pair.error);
      }
      songs := songs + [Reference(pair.value.1, Some(pair.value.0))];
    } else if spotify && Contains(request, "track") {
      songs := songs + [Reference(request, None)];
    } else if spotify && Contains(request, "playlist") {
      lists := lists + [c.playlistList(request)];
    } else if spotify && Contains(request, "album") {
      lists := lists + [c.albumList(request)];
    } else if spotify && Contains(request, "artist") {
      lists := lists + [c.artistList(request)];
    } else if request == "saved" {
      lists := lists + [c.savedList];
    } else if EndsWith(request, ".spotdl") {
      songs := songs + c.manifest(request);
    } else {
      songs := songs + [c.fromSearchTerm(request)];
    }
    assert SimpleContribution(c, request).Success?;
    assert songs == acc.songs + SimpleContribution(c, request).value.songs;
    assert lists == acc.lists + SimpleContribution(c, request).value.lists;
    return Success(Simple(songs, lists));
  }

  lemma {:induction false} CollectSimpleFailureSticks(c: Catalog, query: seq<string>, k: nat)
    requires k <= |query|
    ensures CollectSimple(c, query[..k]).Failure? ==> CollectSimple(c, query) == CollectSimple(c, query[..k])
    decreases |query| - k
  {
    if k < |query| && CollectSimple(c, query[..k]).Failure? {
      assert query[..k + 1][..k] == query[..k];
      CollectSimpleFailureSticks(c, query, k + 1);
    } else if k == |query| {
      assert query[..k] == query;
    }
  }
}
