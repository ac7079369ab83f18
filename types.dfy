/**
  The records the modelled code passes around: songs and the collections
  (playlists, albums, artists, saved tracks) they come from. The Song class
  itself is not part of this model; only the attributes the modelled code
  reads appear here.
*/
module Types {
  import opened Wrappers

  /** A collection: its name and the URLs of its tracks, in collection order. */
  datatype SongList = SongList(name: string, urls: seq<string>)

  /**
    The metadata a template can print, each already in its `str()` form;
    `None` is an attribute that holds Python's None.
  */
  datatype Tags = Tags(
    albumName: Option<string>,
    albumArtist: Option<string>,
    discNumber: Option<string>,
    discCount: Option<string>,
    duration: Option<string>,
    year: Option<string>,
    date: Option<string>,
    trackNumber: Option<string>,
    tracksCount: Option<string>,
    songId: Option<string>,
    publisher: Option<string>)

  /**
    A song: Spotify metadata, its URL and, once known, the URL to download
    from. `artist` is the main artist the progress messages name;
    `duration` is the length in seconds that search results are compared
    against; `tags.duration` is its printed form.
  */
  datatype Song = Song(
    name: string,
    artists: seq<string>,
    artist: string,
    genres: seq<string>,
    duration: real,
    isrc: Option<string>,
    tags: Tags,
    url: string,
    downloadUrl: Option<string>,
    displayName: string,
    songList: Option<SongList>)

  const NoTags := Tags(None, None, None, None, None, None, None, None, None, None, None)

  /**
    A song known only by where it lives, as built from a URL (and possibly
    a download URL) without fetching any metadata.
  */
  function Reference(url: string, downloadUrl: Option<string>): Song {
    Song("", [], "", [], 0.0, None, NoTags, url, downloadUrl, "", None)
  }
}
