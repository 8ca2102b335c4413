# Catalog enrichment, modelled in Dafny

This project models the catalog-enrichment pipeline of `spotify_enrichment.py`.
The pipeline takes the ordered list of track references (`unique_uris`) and
normalises each reference to a track key, or to none when it is not
recognised. It resolves the keys
through the provider's batched track lookup, in batches of at most 50. It then
collects the artist keys of the resolved tracks and resolves their genres
through a second batched lookup. Finally it emits one enriched record per
reference, in input order. Each record holds the reference, the track's
attributes (duration in ms and in s, popularity, explicit flag, album release
date and type, cover URL) and the artists' genres. The genres are concatenated
in artist order, deduplicated keeping first occurrences, and joined with
`", "`; the field is None when there are none.

The two network calls `sp.tracks` and `sp.artists` are parameters. They are
functions from a batch of keys to a same-length sequence of nullable provider
objects (`Catalog.TrackLookup`, `Catalog.ArtistLookup`; the length is part of
the type).

Modules, leaves first:

- `Common` (common.dfy): `Option`, `Distinct`, `Elems`, `StartsWith`, `Occurs`.
- `Normalize` (normalize.dfy): `extract_track_id`, with `str.replace` modelled as
  `RemoveAll`. It removes every occurrence of the prefix, not only the leading one.
- `Batching` (batching.dfy): `batch_items`.
- `Catalog` (catalog.dfy): the provider objects, the lookups, the per-track
  `TrackData` (the empty dict `Empty` or `Found`) and the output `Record`.
  A record has no artist-key field, so no record carries `artist_ids`.
- `Resolve` (resolve.dfy): `fetch_tracks` (a method with its loop), its
  derived fields, `fetch_artist_genres`, and the batch merges done with
  `dict.update`.
- `Aggregate` (aggregate.dfy): the per-reference join, `dict.fromkeys`
  deduplication, `", ".join` and the aggregation loop.
- `Pipeline` (pipeline.dfy): the key filter, the artist-key set, the two batch
  loops and `Enrich`, the whole pipeline as one method.

A dictionary filled in enumeration order keeps, for a repeated key, the value
of its last position (`Resolve.ZipMap`). This matters because `track_ids` is
not deduplicated: `spotify:track:X` and `X` both put `X` in a batch. Python
iterates the artist-key set in hash order, so that order is not modelled:
`Enrich` returns it as the ghost `artistOrder`, with its contract. When each
lookup answers a position from its own key alone ("pointwise", as a catalog
does), `Pipeline.EnrichMatchesReference` proves the output equals a direct
per-reference computation. That computation has no batches, no merges and no
artist-key set. So for such lookups, neither the batch size, nor shared keys,
nor the set's order changes any record.

Details of the code that the model follows on purpose:

- `duration_sec` is None for a duration of 0, not only for a missing one, because the code tests truthiness (spotify_enrichment.py:104-107).
- Artist entries are kept when their id is truthy. An empty-string id is dropped too, not only a null one (spotify_enrichment.py:117).
- Normalisation removes every occurrence of `spotify:track:`, not only the leading prefix (spotify_enrichment.py:74).
- The code has no handling of a failing batch call: an exception aborts the run rather than turning the batch into misses. Such failures are not modelled.

## Model

| member | source | states |
|---|---|---|
| `Normalize.RemoveAll` | spotify_enrichment.py:73-74 | removing every occurrence of the prefix never lengthens the string, shortens a prefixed string by at least the prefix, and leaves a string without the prefix unchanged |
| `Normalize.RemoveAllAround` | spotify_enrichment.py:74 | a copy of the prefix anywhere in the string is removed, and the text on either side is treated independently, so every occurrence goes, not only the leading one |
| `Normalize.InnerPrefixRemoved` | spotify_enrichment.py:73-74 | the prefix, then A, the prefix again, then B normalises to A followed by B when neither part contains the prefix: a second copy inside the key is removed too |
| `Normalize.ExtractTrackId` | spotify_enrichment.py:68-78 | a key exists iff the cell is text that starts with `spotify:track:` or has exactly 22 characters; NaN and non-string cells give None; an unprefixed key is the input itself; a prefix occurring once gives the tail after the 14-character prefix; a prefixed URI gives the URI with every occurrence of the prefix removed |
| `Normalize.UriAndBareIdAgree` | spotify_enrichment.py:68-78 | `spotify:track:X` and a 22-character `X` normalise to the same key `X` |
| `Normalize.DoublePrefixRemovesBoth` | spotify_enrichment.py:74 | a URI repeating the prefix loses both copies, as `str.replace` removes all occurrences |
| `Batching.BatchItems` | spotify_enrichment.py:81-84 | the batches concatenate to the input; each holds 1 to size items; all but the last hold exactly size; there are ceil(n / size) of them, so zero for an empty input |
| `Batching.BatchesOf130` | spotify_enrichment.py:81-84 | 130 items in batches of 50 give sizes 50, 50, 30 |
| `Resolve.ZipMap` | spotify_enrichment.py:91-98 | a dictionary filled position by position holds exactly the listed keys |
| `Resolve.ZipMapLastWins` | spotify_enrichment.py:93-102 | a key's value is the one at its last position in the batch |
| `Resolve.ZipMapUniform` | spotify_enrichment.py:93-102 | when each position's value depends on its key alone, every entry holds that value, whichever duplicate wins |
| `Resolve.DurationSec` | spotify_enrichment.py:104-107 | the seconds field exists iff `duration_ms` is present and non-zero, and then times 1000 gives back the milliseconds exactly (real division) |
| `Resolve.DurationExamples` | spotify_enrichment.py:104-107 | 200000 ms gives 200.0 s; 0 ms and an absent duration give None |
| `Resolve.CoverUrl` | spotify_enrichment.py:112-116 | the cover URL exists iff the album has a non-empty image list, and is then the first image's URL |
| `Resolve.ArtistIdsOf` | spotify_enrichment.py:117 | the kept ids are exactly the truthy (present, non-empty) artist ids, never more than there are artists |
| `Resolve.ArtistIdsOfAppend` | spotify_enrichment.py:117 | keeping ids distributes over concatenation of artist lists, so kept ids stay in artist order |
| `Resolve.TracksMap` | spotify_enrichment.py:91-120 | the batch's map has exactly the requested keys; a None answer gives the empty record; a found track gives its derived record |
| `Resolve.FetchTracks` | spotify_enrichment.py:87-120 | the loop over the lookup's answer builds exactly the batch map of `TracksMap` |
| `Resolve.FetchArtistGenres` | spotify_enrichment.py:123-130 | the map has exactly the requested artist keys, each holding the genres of the artist at its position (`[]` for a null artist or a missing `genres`) |
| `Resolve.ResolveTracks` | spotify_enrichment.py:157-160 | merging the batch maps with `update` gives a map whose keys are exactly all the batched keys |
| `Resolve.ResolveGenres` | spotify_enrichment.py:171-174 | the same totality for the artist-genre map |
| `Resolve.ResolveTracksPointwise` | spotify_enrichment.py:157-160 | with a pointwise track lookup, every merged entry is its own key's record |
| `Resolve.ResolveGenresPointwise` | spotify_enrichment.py:171-174 | with a pointwise artist lookup, every merged entry is its own artist's genres |
| `Aggregate.GenreList` | spotify_enrichment.py:185-187 | a genre is in the concatenation iff some listed artist with an entry has it |
| `Aggregate.GenreListAppend` | spotify_enrichment.py:185-187 | the concatenation follows the artist list: the genres of `a + b` are those of `a` followed by those of `b` |
| `Aggregate.GenreListOne` | spotify_enrichment.py:186-187 | one artist contributes its own genre list, or nothing when it has no entry (`get(artist_id, [])`) |
| `Aggregate.GenreListAgree` | spotify_enrichment.py:185-187 | genre maps that agree on the listed artists give the same concatenation |
| `Aggregate.Dedup` | spotify_enrichment.py:189 | the result has no duplicates, the same elements as the input, and is no longer |
| `Aggregate.DedupKeepsFirstSeenOrder` | spotify_enrichment.py:189 | kept elements appear in the order of their first occurrences in the input |
| `Aggregate.DedupOfDistinct` | spotify_enrichment.py:189 | a list without duplicates is unchanged, so deduplication is idempotent |
| `Aggregate.SplitJoin` | spotify_enrichment.py:194 | splitting the `", "`-joined string on `", "` gives back the list when no label contains the delimiter |
| `Aggregate.GenreField` | spotify_enrichment.py:194 | the genre field is None iff there are no genres, and otherwise splits back into the list |
| `Aggregate.RecordFor` | spotify_enrichment.py:181-195 | the record keeps the reference; an unnormalisable or unresolved reference gets no attributes and no genres; a resolved one keeps its attributes; the genre field is None iff the concatenation is empty, and otherwise splits into the deduplicated concatenation |
| `Aggregate.AggregateRecords` | spotify_enrichment.py:179-197 | the loop emits exactly one record per reference, in order, each being `RecordFor` of that reference |
| `Aggregate.TwoArtistsExample` | spotify_enrichment.py:185-194 | artists with [pop, rock] and [rock, jazz] give "pop, rock, jazz" |
| `Pipeline.TrackIds` | spotify_enrichment.py:149-150 | a key is sent to lookup iff it is the truthy normalised key of some reference; there are no more keys than references |
| `Pipeline.TrackIdsAppend` | spotify_enrichment.py:149-150 | the key list of `a + b` is that of `a` followed by that of `b`: reference order is kept and nothing is deduplicated |
| `Pipeline.TrackIdsOne` | spotify_enrichment.py:149-150 | one reference contributes exactly its key when the key is truthy, and nothing otherwise |
| `Pipeline.SharedKeyIsSentTwice` | spotify_enrichment.py:149-150 | the references `spotify:track:X` and `X` both send `X`, so the key list holds it twice |
| `Pipeline.CollectArtistIds` | spotify_enrichment.py:165-169 | the collected artist keys have no duplicates and are exactly the artist keys of all resolved tracks |
| `Pipeline.AllTracks` | spotify_enrichment.py:157-160 | `all_tracks` holds exactly the keys sent to the track lookup |
| `Pipeline.AllGenres` | spotify_enrichment.py:171-174 | `all_artist_genres` holds exactly the collected artist keys |
| `Pipeline.FetchAllTracks` | spotify_enrichment.py:157-160 | the batch loop computes `all_tracks` |
| `Pipeline.FetchAllGenres` | spotify_enrichment.py:171-174 | the batch loop computes `all_artist_genres` |
| `Pipeline.Enrich` | spotify_enrichment.py:148-197 | one record per reference, in order, each carrying its reference; the artist-key listing is duplicate-free and covers the artist keys of all resolved tracks; every record is the aggregation of the resolved maps |
| `Pipeline.ResolvedMapsAreTotal` | spotify_enrichment.py:157-174 | every key sent to lookup is in `all_tracks`, and every artist key of every resolved track is in `all_artist_genres` |
| `Pipeline.RecordMatchesReference` | spotify_enrichment.py:179-197 | given maps holding each key's own data, the aggregated record equals the direct per-reference record |
| `Pipeline.EnrichMatchesReference` | spotify_enrichment.py:148-197 | with pointwise lookups, every record equals the direct per-reference record, whatever the batch size and artist-key order |

## Left out

- Credentials and client construction (`authenticate_spotify`, spotify_enrichment.py:41-61): environment variables and an OAuth library.
- CSV reading and writing, the input-file and column checks, DataFrame construction and logging (spotify_enrichment.py:139-146, 152, 162, 176, 199-205): file and library I/O.
- `df["uri"].dropna().unique()` (spotify_enrichment.py:148) is pandas. `Enrich` takes the list of references as its input, and takes it as strings. A non-string cell that survives `dropna` is covered by `Normalize.ExtractTrackId` but not by the pipeline.
- `time.sleep(0.2)` between batches (spotify_enrichment.py:160, 174): a pacing policy with no effect on the data.
- The network calls `sp.tracks` and `sp.artists` (spotify_enrichment.py:89, 125) are function parameters. Their answers are assumed to be as long as the request. Transport failures, and the IndexError an over-long answer would raise, are not modelled.
- Python's iteration order of the artist-key set (spotify_enrichment.py:165-169) depends on hashing. `Pipeline.CollectArtistIds` picks an arbitrary order, and `Pipeline.Enrich` exposes the order it picked as a ghost out-parameter.
- A non-positive batch size: the only caller passes 50. Size 0 raises ValueError and a negative size yields no batches; `Batching.BatchItems` requires a positive size.
- Crashes on malformed provider objects are not modelled: a null `album` or `artists` value, an image without `url`, a null entry in the `artists` list (spotify_enrichment.py:117 calls `a.get` on it), and a `genres` value that is present but null (which `extend` rejects). Absent keys are modelled.
- `duration_sec` is a Dafny `real`, not a binary float, and its CSV rendering is not modelled.
- combine_charts.py and VADER_sentiment_analysis.py are not part of this model: they are file globbing and concatenation, and a wrapper over an external sentiment analyser.
