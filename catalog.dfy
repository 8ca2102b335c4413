/** The data the pipeline handles: the provider's track and artist objects
    as far as the enrichment reads them, the two batched lookups, the
    per-track attribute record and the emitted enriched record. */
module Catalog {
  import opened Common

  /** One entry of an album's `images` list. */
  datatype Image = Image(url: string)

  /** A track's `album` object; each field is None when the key is absent
      or null. */
  datatype Album = Album(releaseDate: Option<string>, albumType: Option<string>, images: Option<seq<Image>>)

  /** One entry of a track's `artists` list; `id` is None when absent or null. */
  datatype ArtistRef = ArtistRef(id: Option<string>)

  /** A track object returned by the track lookup. An absent `album` is
      None and an absent `artists` list is the empty sequence. */
  datatype Track = Track(
    durationMs: Option<int>,
    popularity: Option<int>,
    explicit: Option<bool>,
    album: Option<Album>,
    artists: seq<ArtistRef>)

  /** An artist object returned by the artist lookup; `genres` is None when
      the key is absent. */
  datatype Artist = Artist(genres: Option<seq<string>>)

  function NoTracks(ids: seq<string>): seq<Option<Track>> {
    seq(|ids|, i => None)
  }

  function NoArtists(ids: seq<string>): seq<Option<Artist>> {
    seq(|ids|, i => None)
  }

  /** The batched track lookup: one nullable track per requested key, in
      the positions of the request (None means not found). */
  type TrackLookup = f: seq<string> -> seq<Option<Track>> | forall ids :: |f(ids)| == |ids|
    witness NoTracks

  /** The batched artist lookup, with the same positional contract. */
  type ArtistLookup = f: seq<string> -> seq<Option<Artist>> | forall ids :: |f(ids)| == |ids|
    witness NoArtists

  /** The attributes kept for a found track. */
  datatype Attributes = Attributes(
    durationMs: Option<int>,
    durationSec: Option<real>,
    popularity: Option<int>,
    explicit: Option<bool>,
    albumReleaseDate: Option<string>,
    albumType: Option<string>,
    albumCoverUrl: Option<string>)

  /** What the track resolver records for a key: the empty dictionary for a
      miss, or the attributes together with the track's artist keys. */
  datatype TrackData = Empty | Found(attributes: Attributes, artistIds: seq<string>)
  {
    /** The fields other than `artist_ids`, as they appear in a record. */
    function Fields(): Option<Attributes> {
      if Found? then Some(attributes) else None
    }

    /** `track_data.get("artist_ids", [])`. */
    function Artists(): seq<string> {
      if Found? then artistIds else []
    }
  }

  /** One output row: the reference as supplied, the track's attributes
      (None when the track was not resolved) and the joined genre string. */
  datatype Record = Record(uri: string, attributes: Option<Attributes>, artistGenres: Option<string>)
}
