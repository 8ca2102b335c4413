/** The two resolvers: `fetch_tracks` (spotify_enrichment.py:87-120),
    `fetch_artist_genres` (spotify_enrichment.py:123-130), and the batch
    loops of the pipeline that merge their results with `dict.update`
    (spotify_enrichment.py:157-174). */
module Resolve {
  import opened Common
  import opened Catalog
  import opened Batching

  /** The dictionary built by assigning vals[i] to keys[i] for i = 0, 1, ...
      in turn: a key listed twice keeps the value of its last position. */
  function ZipMap<V>(keys: seq<string>, vals: seq<V>): (m: map<string, V>)
    requires |keys| == |vals|
    ensures m.Keys == Elems(keys)
    decreases |keys|
  {
    if |keys| == 0 then map[]
    else
      var n := |keys| - 1;
      assert keys == keys[..n] + [keys[n]];
      ElemsAppend(keys[..n], [keys[n]]);
      ZipMap(keys[..n], vals[..n])[keys[n] := vals[n]]
  }

  /** The value of a key is the one at its last position. */
  lemma {:induction false} ZipMapLastWins<V>(keys: seq<string>, vals: seq<V>, i: nat)
    requires |keys| == |vals| && i < |keys| && keys[i] !in keys[i + 1..]
    ensures keys[i] in ZipMap(keys, vals) && ZipMap(keys, vals)[keys[i]] == vals[i]
    decreases |keys|
  {
    var n := |keys| - 1;
    if i < n {
      assert keys[n] in keys[i + 1..];
      assert keys[..n][i + 1..] == keys[i + 1..n];
      ZipMapLastWins(keys[..n], vals[..n], i);
    }
  }

  /** When every position holds the value a function gives its key, so
      does the dictionary, whichever position wins. */
  lemma {:induction false} ZipMapUniform<V>(keys: seq<string>, vals: seq<V>, f: string -> V)
    requires |keys| == |vals|
    requires forall i :: 0 <= i < |keys| ==> vals[i] == f(keys[i])
    ensures forall k :: k in ZipMap(keys, vals) ==> ZipMap(keys, vals)[k] == f(k)
    decreases |keys|
  {
    if |keys| > 0 {
      var n := |keys| - 1;
      ZipMapUniform(keys[..n], vals[..n], f);
    }
  }

  /** `duration_ms / 1000` (real division) when `duration_ms` is truthy,
      that is present and non-zero; otherwise None. */
  function DurationSec(durationMs: Option<int>): (r: Option<real>)
    ensures r.Some? <==> durationMs.Some? && durationMs.value != 0
    ensures r.Some? ==> r.value * 1000.0 == durationMs.value as real
  {
    if durationMs.Some? && durationMs.value != 0 then Some(durationMs.value as real / 1000.0) else None
  }

  /** A track of 200000 ms lasts 200.0 seconds; a zero duration is falsy. */
  lemma DurationExamples()
    ensures DurationSec(Some(200000)) == Some(200.0)
    ensures DurationSec(Some(0)) == None && DurationSec(None) == None
  {
  }

  /** The URL of the album's first image, or None when the album or its
      image list is absent or the list is empty. */
  function CoverUrl(album: Option<Album>): (r: Option<string>)
    ensures r.Some? <==> album.Some? && album.value.images.Some? && |album.value.images.value| > 0
    ensures r.Some? ==> r.value == album.value.images.value[0].url
  {
    if album.Some? && album.value.images.Some? && |album.value.images.value| > 0 then
      Some(album.value.images.value[0].url)
    else None
  }

  /** An artist entry is kept when its id is truthy: present and non-empty. */
  predicate HasId(a: ArtistRef) {
    a.id.Some? && a.id.value != ""
  }

  /** `[a["id"] for a in artists if a.get("id")]`. */
  function ArtistIdsOf(artists: seq<ArtistRef>): (ids: seq<string>)
    ensures |ids| <= |artists|
    ensures forall id :: id in ids <==> id != "" && ArtistRef(Some(id)) in artists
    decreases |artists|
  {
    if |artists| == 0 then []
    else
      var rest := ArtistIdsOf(artists[1..]);
      assert forall a :: a in artists <==> a == artists[0] || a in artists[1..];
      (if HasId(artists[0]) then [artists[0].id.value] else []) + rest
  }

  /** Keeping artist ids is a filter: it distributes over concatenation,
      so the kept ids appear in the order of the artist list. */
  lemma {:induction false} ArtistIdsOfAppend(a: seq<ArtistRef>, b: seq<ArtistRef>)
    ensures ArtistIdsOf(a + b) == ArtistIdsOf(a) + ArtistIdsOf(b)
    decreases |a|
  {
    if |a| > 0 {
      assert (a + b)[0] == a[0] && (a + b)[1..] == a[1..] + b;
      ArtistIdsOfAppend(a[1..], b);
    } else {
      assert a + b == b;
    }
  }

  /** The dictionary `fetch_tracks` stores for a track the provider found. */
  function TrackRecord(t: Track): TrackData {
    var album := if t.album.Some? then t.album.value else Album(None, None, None);
    Found(
      Attributes(
        t.durationMs,
        DurationSec(t.durationMs),
        t.popularity,
        t.explicit,
        album.releaseDate,
        album.albumType,
        CoverUrl(t.album)),
      ArtistIdsOf(t.artists))
  }

  /** An empty record for a miss, the track's record otherwise. */
  function Resolved(t: Option<Track>): TrackData {
    if t.None? then Empty else TrackRecord(t.value)
  }

  function ResolvedAll(results: seq<Option<Track>>): (r: seq<TrackData>)
    ensures |r| == |results|
  {
    seq(|results|, i requires 0 <= i < |results| => Resolved(results[i]))
  }

  /** What `fetch_tracks` returns for one batch and the lookup's answer:
      every requested key is present, and a key's value is built from the
      answer at its last position in the batch. */
  function TracksMap(trackIds: seq<string>, results: seq<Option<Track>>): (m: map<string, TrackData>)
    requires |trackIds| == |results|
    ensures m.Keys == Elems(trackIds)
    ensures forall i :: 0 <= i < |trackIds| && trackIds[i] !in trackIds[i + 1..] && results[i].None? ==>
              m[trackIds[i]] == Empty
    ensures forall i :: 0 <= i < |trackIds| && trackIds[i] !in trackIds[i + 1..] && results[i].Some? ==>
              m[trackIds[i]] == TrackRecord(results[i].value)
  {
    var datas := ResolvedAll(results);
    forall i | 0 <= i < |trackIds| && trackIds[i] !in trackIds[i + 1..]
      ensures ZipMap(trackIds, datas)[trackIds[i]] == Resolved(results[i])
    {
      ZipMapLastWins(trackIds, datas, i);
    }
    ZipMap(trackIds, datas)
  }

  /** `fetch_tracks`: one lookup for the batch, then the answer is walked in
      order, storing an empty record for a miss and the track's record
      otherwise. */
  method FetchTracks(trackIds: seq<string>, lookup: TrackLookup) returns (output: map<string, TrackData>)
    ensures output == TracksMap(trackIds, lookup(trackIds))
  {
    var results := lookup(trackIds);
    ghost var datas := ResolvedAll(results);
    output := map[];
    for index := 0 to |results|
      invariant output == ZipMap(trackIds[..index], datas[..index])
    {
      var trackId := trackIds[index];
      var track := results[index];
      assert trackIds[..index + 1][..index] == trackIds[..index];
      assert datas[..index + 1][..index] == datas[..index];
      if track.None? {
        output := output[trackId := Empty];
        continue;
      }
      output := output[trackId := TrackRecord(track.value)];
    }
    assert trackIds[..|results|] == trackIds && datas[..|results|] == datas;
  }

  /** `artist.get("genres", []) if artist else []`. */
  function GenresOf(artist: Option<Artist>): seq<string> {
    if artist.None? || artist.value.genres.None? then [] else artist.value.genres.value
  }

  function GenresAll(results: seq<Option<Artist>>): (r: seq<seq<string>>)
    ensures |r| == |results|
  {
    seq(|results|, i requires 0 <= i < |results| => GenresOf(results[i]))
  }

  /** `fetch_artist_genres`: every requested artist key is present; a null
      artist or one without `genres` maps to [], any other to the
      provider's list unchanged. */
  function FetchArtistGenres(artistIds: seq<string>, lookup: ArtistLookup): (m: map<string, seq<string>>)
    ensures m.Keys == Elems(artistIds)
    ensures forall i :: 0 <= i < |artistIds| && artistIds[i] !in artistIds[i + 1..] ==>
              m[artistIds[i]] == GenresOf(lookup(artistIds)[i])
  {
    var results := lookup(artistIds);
    var genres := GenresAll(results);
    forall i | 0 <= i < |artistIds| && artistIds[i] !in artistIds[i + 1..]
      ensures ZipMap(artistIds, genres)[artistIds[i]] == GenresOf(results[i])
    {
      ZipMapLastWins(artistIds, genres, i);
    }
    ZipMap(artistIds, genres)
  }

  /** `all_tracks` after the first b batches have been fetched and merged
      with `update`: it holds every key of those batches. */
  function ResolveTracks(batches: seq<seq<string>>, lookup: TrackLookup): (m: map<string, TrackData>)
    ensures m.Keys == Elems(Flatten(batches))
    decreases |batches|
  {
    if |batches| == 0 then map[]
    else
      var n := |batches| - 1;
      FlattenSnoc(batches, n);
      assert batches[..n + 1] == batches;
      ElemsAppend(Flatten(batches[..n]), batches[n]);
      ResolveTracks(batches[..n], lookup) + TracksMap(batches[n], lookup(batches[n]))
  }

  /** `all_artist_genres` after the first b batches, likewise. */
  function ResolveGenres(batches: seq<seq<string>>, lookup: ArtistLookup): (m: map<string, seq<string>>)
    ensures m.Keys == Elems(Flatten(batches))
    decreases |batches|
  {
    if |batches| == 0 then map[]
    else
      var n := |batches| - 1;
      FlattenSnoc(batches, n);
      assert batches[..n + 1] == batches;
      ElemsAppend(Flatten(batches[..n]), batches[n]);
      ResolveGenres(batches[..n], lookup) + FetchArtistGenres(batches[n], lookup)
  }

  /** The track lookup answers each position from its own key alone, as a
      catalog does. */
  ghost predicate TracksPointwise(lookup: TrackLookup, catalog: string -> Option<Track>) {
    forall ids: seq<string>, i :: 0 <= i < |ids| ==> lookup(ids)[i] == catalog(ids[i])
  }

  ghost predicate ArtistsPointwise(lookup: ArtistLookup, catalog: string -> Option<Artist>) {
    forall ids: seq<string>, i :: 0 <= i < |ids| ==> lookup(ids)[i] == catalog(ids[i])
  }

  /** With a pointwise lookup, batching and duplicate keys make no
      difference: every resolved key holds its own track's record. */
  lemma {:induction false} ResolveTracksPointwise(batches: seq<seq<string>>, lookup: TrackLookup, catalog: string -> Option<Track>)
    requires TracksPointwise(lookup, catalog)
    ensures forall id :: id in ResolveTracks(batches, lookup) ==>
              ResolveTracks(batches, lookup)[id] == Resolved(catalog(id))
    decreases |batches|
  {
    if |batches| > 0 {
      var n := |batches| - 1;
      ResolveTracksPointwise(batches[..n], lookup, catalog);
      var b := batches[n];
      var datas := ResolvedAll(lookup(b));
      ZipMapUniform(b, datas, id => Resolved(catalog(id)));
    }
  }

  lemma {:induction false} ResolveGenresPointwise(batches: seq<seq<string>>, lookup: ArtistLookup, catalog: string -> Option<Artist>)
    requires ArtistsPointwise(lookup, catalog)
    ensures forall id :: id in ResolveGenres(batches, lookup) ==>
              ResolveGenres(batches, lookup)[id] == GenresOf(catalog(id))
    decreases |batches|
  {
    if |batches| > 0 {
      var n := |batches| - 1;
      ResolveGenresPointwise(batches[..n], lookup, catalog);
      var b := batches[n];
      ZipMapUniform(b, GenresAll(lookup(b)), id => GenresOf(catalog(id)));
    }
  }
}
