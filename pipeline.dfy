/** The enrichment pipeline of `main` (spotify_enrichment.py:148-197),
    with the two network lookups as parameters: normalise the references,
    resolve the track keys batch by batch, collect the artist keys,
    resolve their genres batch by batch, and emit one record per
    reference. */
module Pipeline {
  import opened Common
  import opened Normalize
  import opened Batching
  import opened Catalog
  import opened Resolve
  import opened Aggregate

  /** The keys sent to the track lookup: each reference normalised, in
      order, keeping only truthy keys (present and non-empty). Two
      references with the same key both contribute it. */
  function TrackIds(uris: seq<string>): (ids: seq<string>)
    ensures |ids| <= |uris|
    ensures forall id :: id in ids <==> id != "" && exists uri :: uri in uris && ExtractTrackId(Text(uri)) == Some(id)
    decreases |uris|
  {
    if |uris| == 0 then []
    else
      var rest := TrackIds(uris[1..]);
      var key := ExtractTrackId(Text(uris[0]));
      assert forall u :: u in uris <==> u == uris[0] || u in uris[1..];
      (if key.Some? && key.value != "" then [key.value] else []) + rest
  }

  /** The keys of a longer list of references are those of its first part
      followed by those of the rest: the filter keeps reference order and
      does not deduplicate. */
  lemma {:induction false} TrackIdsAppend(a: seq<string>, b: seq<string>)
    ensures TrackIds(a + b) == TrackIds(a) + TrackIds(b)
    decreases |a|
  {
    if |a| == 0 {
      assert a + b == b;
    } else {
      assert (a + b)[0] == a[0] && (a + b)[1..] == a[1..] + b;
      TrackIdsAppend(a[1..], b);
    }
  }

  /** One reference contributes exactly its key when that key is truthy,
      and nothing otherwise. */
  lemma TrackIdsOne(uri: string)
    ensures TrackIds([uri]) ==
              var key := ExtractTrackId(Text(uri));
              if key.Some? && key.value != "" then [key.value] else []
  {
    assert [uri][1..] == [];
  }

  /** Two references with the same key send it twice. */
  lemma SharedKeyIsSentTwice(id: string)
    requires |id| == TRACK_ID_LENGTH && !Occurs(TRACK_PREFIX, id)
    ensures TrackIds([TRACK_PREFIX + id, id]) == [id, id]
  {
    UriAndBareIdAgree(id);
    TrackIdsAppend([TRACK_PREFIX + id], [id]);
    TrackIdsOne(TRACK_PREFIX + id);
    TrackIdsOne(id);
    assert [TRACK_PREFIX + id] + [id] == [TRACK_PREFIX + id, id];
  }

  /** Every artist key of every resolved track. */
  function ArtistIdSet(tracks: map<string, TrackData>): set<string> {
    set id, a | id in tracks && a in tracks[id].Artists() :: a
  }

  /** `list({...})` over the resolved tracks' artist keys: no key twice and
      exactly the keys of the set. The order is the set's iteration order,
      which is left unspecified. */
  method CollectArtistIds(tracks: map<string, TrackData>) returns (artistIds: seq<string>)
    ensures Distinct(artistIds)
    ensures Elems(artistIds) == ArtistIdSet(tracks)
  {
    var remaining := ArtistIdSet(tracks);
    artistIds := [];
    while remaining != {}
      invariant Distinct(artistIds)
      invariant Elems(artistIds) !! remaining
      invariant Elems(artistIds) + remaining == ArtistIdSet(tracks)
      decreases remaining
    {
      var a :| a in remaining;
      ElemsAppend(artistIds, [a]);
      artistIds := artistIds + [a];
      remaining := remaining - {a};
    }
  }

  /** `all_tracks` once every batch of track keys has been fetched. */
  function AllTracks(uris: seq<string>, trackLookup: TrackLookup, batchSize: nat): (m: map<string, TrackData>)
    requires batchSize > 0
    ensures m.Keys == Elems(TrackIds(uris))
  {
    ResolveTracks(BatchItems(TrackIds(uris), batchSize), trackLookup)
  }

  /** `all_artist_genres` once every batch of the collected artist keys has
      been fetched. */
  function AllGenres(artistIds: seq<string>, artistLookup: ArtistLookup, batchSize: nat): (m: map<string, seq<string>>)
    requires batchSize > 0
    ensures m.Keys == Elems(artistIds)
  {
    ResolveGenres(BatchItems(artistIds, batchSize), artistLookup)
  }

  /** The first batch loop: `all_tracks.update(fetch_tracks(sp, batch))`
      for every batch of the track keys. */
  method FetchAllTracks(trackIds: seq<string>, trackLookup: TrackLookup, batchSize: nat)
    returns (allTracks: map<string, TrackData>)
    requires batchSize > 0
    ensures allTracks == ResolveTracks(BatchItems(trackIds, batchSize), trackLookup)
  {
    var batches := BatchItems(trackIds, batchSize);
    allTracks := map[];
    for b := 0 to |batches|
      invariant allTracks == ResolveTracks(batches[..b], trackLookup)
    {
      var part := FetchTracks(batches[b], trackLookup);
      assert batches[..b + 1][..b] == batches[..b];
      allTracks := allTracks + part;
    }
    assert batches[..|batches|] == batches;
  }

  /** The second batch loop:
      `all_artist_genres.update(fetch_artist_genres(sp, batch))`. */
  method FetchAllGenres(artistIds: seq<string>, artistLookup: ArtistLookup, batchSize: nat)
    returns (allArtistGenres: map<string, seq<string>>)
    requires batchSize > 0
    ensures allArtistGenres == ResolveGenres(BatchItems(artistIds, batchSize), artistLookup)
  {
    var batches := BatchItems(artistIds, batchSize);
    allArtistGenres := map[];
    for b := 0 to |batches|
      invariant allArtistGenres == ResolveGenres(batches[..b], artistLookup)
    {
      assert batches[..b + 1][..b] == batches[..b];
      allArtistGenres := allArtistGenres + FetchArtistGenres(batches[b], artistLookup);
    }
    assert batches[..|batches|] == batches;
  }

  /** The whole pipeline. One record per reference, in input order; the
      records are those of the aggregation over the batched track results
      and over the genres of the artist keys, taken in the order the
      artist-key set was listed (returned as the ghost `artistOrder`). */
  method Enrich(uris: seq<string>, trackLookup: TrackLookup, artistLookup: ArtistLookup, batchSize: nat)
    returns (records: seq<Record>, ghost artistOrder: seq<string>)
    requires batchSize > 0
    ensures |records| == |uris|
    ensures forall i :: 0 <= i < |uris| ==> records[i].uri == uris[i]
    ensures Distinct(artistOrder) && Elems(artistOrder) == ArtistIdSet(AllTracks(uris, trackLookup, batchSize))
    ensures forall i :: 0 <= i < |uris| ==>
              records[i] == RecordFor(uris[i], AllTracks(uris, trackLookup, batchSize), AllGenres(artistOrder, artistLookup, batchSize))
  {
    var trackIds := TrackIds(uris);
    var allTracks := FetchAllTracks(trackIds, trackLookup, batchSize);
    var artistIds := CollectArtistIds(allTracks);
    var allArtistGenres := FetchAllGenres(artistIds, artistLookup, batchSize);
    records := AggregateRecords(uris, allTracks, allArtistGenres);
    artistOrder := artistIds;
  }

  /** After both batch loops the two maps are total: every key sent to the
      track lookup is resolved, and every artist key of every resolved
      track has a genre entry. */
  lemma ResolvedMapsAreTotal(uris: seq<string>, trackLookup: TrackLookup, artistLookup: ArtistLookup,
                             batchSize: nat, artistOrder: seq<string>)
    requires batchSize > 0
    requires Elems(artistOrder) == ArtistIdSet(AllTracks(uris, trackLookup, batchSize))
    ensures forall id :: id in TrackIds(uris) ==> id in AllTracks(uris, trackLookup, batchSize)
    ensures forall id, a :: id in AllTracks(uris, trackLookup, batchSize) && a in AllTracks(uris, trackLookup, batchSize)[id].Artists() ==>
              a in AllGenres(artistOrder, artistLookup, batchSize)
  {
    var all := AllTracks(uris, trackLookup, batchSize);
    forall id, a | id in all && a in all[id].Artists()
      ensures a in ArtistIdSet(all)
    {
    }
  }

  /** The record the pipeline should emit for a reference when the lookups
      answer each key on its own: computed directly from the two catalogs,
      without batching, merging or the artist-key set. */
  function ReferenceRecord(uri: string, tracks: string -> Option<Track>, artists: string -> Option<Artist>): Record {
    var key := ExtractTrackId(Text(uri));
    var data := if key.Some? && key.value != "" then Resolved(tracks(key.value)) else Empty;
    var ids := data.Artists();
    var genres := map a | a in Elems(ids) :: GenresOf(artists(a));
    Record(uri, data.Fields(), GenreField(Dedup(GenreList(ids, genres))))
  }

  /** One reference: with every resolved key holding its own track's
      record and every listed artist key its own genres, the aggregated
      record is the reference record. */
  lemma RecordMatchesReference(uri: string, all: map<string, TrackData>, genreMap: map<string, seq<string>>,
                               tracks: string -> Option<Track>, artists: string -> Option<Artist>)
    requires forall id :: id in all ==> all[id] == Resolved(tracks(id))
    requires "" !in all
    requires var key := ExtractTrackId(Text(uri)); key.Some? && key.value != "" ==> key.value in all
    requires forall a :: a in ArtistIdSet(all) ==> a in genreMap && genreMap[a] == GenresOf(artists(a))
    ensures RecordFor(uri, all, genreMap) == ReferenceRecord(uri, tracks, artists)
  {
    var key := ExtractTrackId(Text(uri));
    var data := if key.Some? && key.value != "" then Resolved(tracks(key.value)) else Empty;
    assert TrackDataFor(uri, all) == data;
    var ids := data.Artists();
    var direct := map a | a in Elems(ids) :: GenresOf(artists(a));
    forall a | a in ids
      ensures a in genreMap && a in direct && genreMap[a] == direct[a]
    {
      assert a in ArtistIdSet(all);
    }
    GenreListAgree(ids, genreMap, direct);
  }

  /** With lookups that answer each key on its own, every record equals
      the reference record: the batch size, references that share a key
      and the order in which the artist-key set is listed make no
      difference to the output. */
  lemma EnrichMatchesReference(
      uris: seq<string>, trackLookup: TrackLookup, artistLookup: ArtistLookup, batchSize: nat,
      tracks: string -> Option<Track>, artists: string -> Option<Artist>, artistOrder: seq<string>)
    requires batchSize > 0
    requires TracksPointwise(trackLookup, tracks) && ArtistsPointwise(artistLookup, artists)
    requires Elems(artistOrder) == ArtistIdSet(AllTracks(uris, trackLookup, batchSize))
    ensures forall i :: 0 <= i < |uris| ==>
              RecordFor(uris[i], AllTracks(uris, trackLookup, batchSize), AllGenres(artistOrder, artistLookup, batchSize))
              == ReferenceRecord(uris[i], tracks, artists)
  {
    var all := AllTracks(uris, trackLookup, batchSize);
    var genreMap := AllGenres(artistOrder, artistLookup, batchSize);
    ResolveTracksPointwise(BatchItems(TrackIds(uris), batchSize), trackLookup, tracks);
    ResolveGenresPointwise(BatchItems(artistOrder, batchSize), artistLookup, artists);
    forall i | 0 <= i < |uris|
      ensures RecordFor(uris[i], all, genreMap) == ReferenceRecord(uris[i], tracks, artists)
    {
      var key := ExtractTrackId(Text(uris[i]));
      assert key.Some? && key.value != "" ==> key.value in TrackIds(uris) by {
        assert uris[i] in uris;
      }
      RecordMatchesReference(uris[i], all, genreMap, tracks, artists);
    }
  }
}
