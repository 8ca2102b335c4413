/** The join and aggregation loop of the pipeline
    (spotify_enrichment.py:179-197): one record per reference, carrying the
    track's attributes and its artists' genres, deduplicated in first-seen
    order and joined with ", ". */
module Aggregate {
  import opened Common
  import opened Normalize
  import opened Catalog

  const DELIMITER: string := ", "

  /** The genre lists of the given artists, concatenated in artist order;
      an artist without an entry contributes nothing. */
  function GenreList(artistIds: seq<string>, genres: map<string, seq<string>>): (g: seq<string>)
    ensures forall x :: x in g <==> exists a :: a in artistIds && a in genres && x in genres[a]
    decreases |artistIds|
  {
    if |artistIds| == 0 then []
    else
      var n := |artistIds| - 1;
      var a := artistIds[n];
      assert forall b :: b in artistIds <==> b in artistIds[..n] || b == a by {
        assert artistIds == artistIds[..n] + [a];
      }
      GenreList(artistIds[..n], genres) + (if a in genres then genres[a] else [])
  }

  /** Two genre maps that agree on the given artists give the same list. */
  lemma {:induction false} GenreListAgree(artistIds: seq<string>, m1: map<string, seq<string>>, m2: map<string, seq<string>>)
    requires forall a :: a in artistIds ==> a in m1 && a in m2 && m1[a] == m2[a]
    ensures GenreList(artistIds, m1) == GenreList(artistIds, m2)
    decreases |artistIds|
  {
    if |artistIds| > 0 {
      var n := |artistIds| - 1;
      assert forall a :: a in artistIds[..n] ==> a in artistIds;
      GenreListAgree(artistIds[..n], m1, m2);
    }
  }

  /** Concatenation follows the artist list: the genres of a longer list
      are those of its first part followed by those of the rest. */
  lemma {:induction false} GenreListAppend(a: seq<string>, b: seq<string>, genres: map<string, seq<string>>)
    ensures GenreList(a + b, genres) == GenreList(a, genres) + GenreList(b, genres)
    decreases |b|
  {
    if |b| == 0 {
      assert a + b == a;
    } else {
      var n := |b| - 1;
      assert (a + b)[..|a| + n] == a + b[..n];
      GenreListAppend(a, b[..n], genres);
    }
  }

  /** One artist contributes its own genre list, or nothing without an entry. */
  lemma GenreListOne(artistId: string, genres: map<string, seq<string>>)
    ensures GenreList([artistId], genres) == if artistId in genres then genres[artistId] else []
  {
    assert [artistId][..0] == [];
  }

  /** `list(dict.fromkeys(s))`: each element is kept at its first
      occurrence only. */
  function Dedup(s: seq<string>): (r: seq<string>)
    ensures Distinct(r)
    ensures forall x :: x in r <==> x in s
    ensures |r| <= |s|
    decreases |s|
  {
    if |s| == 0 then []
    else
      var n := |s| - 1;
      var d := Dedup(s[..n]);
      assert s == s[..n] + [s[n]];
      if s[n] in d then d else d + [s[n]]
  }

  /** Position i holds the first occurrence of x in s. */
  ghost predicate FirstAt(s: seq<string>, x: string, i: int) {
    0 <= i < |s| && s[i] == x && x !in s[..i]
  }

  /** Dedup keeps first-seen order: of two kept elements, the one whose
      first occurrence comes earlier in the input comes earlier. */
  lemma {:induction false} DedupKeepsFirstSeenOrder(s: seq<string>, i: nat, j: nat, p: int, q: int)
    requires i < j < |Dedup(s)|
    requires FirstAt(s, Dedup(s)[i], p) && FirstAt(s, Dedup(s)[j], q)
    ensures p < q
    decreases |s|
  {
    var n := |s| - 1;
    var d := Dedup(s[..n]);
    var r := Dedup(s);
    assert s[..n][..p] == s[..p] by { assert p <= n; }
    if j < |d| {
      // Both were kept before the last element: their first occurrences lie in s[..n].
      assert r[i] == d[i] && r[j] == d[j];
      assert p < n && q < n by {
        assert d[i] in s[..n] && d[j] in s[..n];
      }
      assert s[..n][..q] == s[..q];
      DedupKeepsFirstSeenOrder(s[..n], i, j, p, q);
    } else {
      // r[j] is the last element, kept because it was new.
      assert r[j] == s[n] && s[n] !in s[..n];
      assert r[i] in s[..n];
    }
  }

  /** A list without repetitions is left unchanged; in particular Dedup is
      idempotent. */
  lemma {:induction false} DedupOfDistinct(s: seq<string>)
    requires Distinct(s)
    ensures Dedup(s) == s
    decreases |s|
  {
    if |s| > 0 {
      var n := |s| - 1;
      assert Distinct(s[..n]);
      DedupOfDistinct(s[..n]);
      assert s[n] !in s[..n];
      assert s[..n] + [s[n]] == s;
    }
  }

  /** `sep.join(parts)`. */
  function Join(parts: seq<string>, sep: string): string
    decreases |parts|
  {
    if |parts| == 0 then ""
    else if |parts| == 1 then parts[0]
    else parts[0] + sep + Join(parts[1..], sep)
  }

  /** `s.split(", ")`: the pieces between the occurrences of the delimiter,
      found left to right. */
  function SplitGenres(s: string): (pieces: seq<string>)
    ensures |pieces| >= 1
    decreases |s|
  {
    if |s| < 2 then [s]
    else if s[0] == ',' && s[1] == ' ' then [""] + SplitGenres(s[2..])
    else
      var rest := SplitGenres(s[1..]);
      [[s[0]] + rest[0]] + rest[1..]
  }

  lemma {:induction false} SplitWithoutDelimiter(p: string)
    requires !Occurs(DELIMITER, p)
    ensures SplitGenres(p) == [p]
    decreases |p|
  {
    if |p| >= 2 {
      assert !StartsWith(p, DELIMITER);
      assert p[..2] == [p[0], p[1]];
      SplitWithoutDelimiter(p[1..]);
      assert [p[0]] + p[1..] == p;
    }
  }

  lemma {:induction false} SplitAfterPiece(p: string, t: string)
    requires !Occurs(DELIMITER, p)
    ensures SplitGenres(p + DELIMITER + t) == [p] + SplitGenres(t)
    decreases |p|
  {
    var s := p + DELIMITER + t;
    if |p| == 0 {
      assert s == DELIMITER + t && s[2..] == t;
    } else {
      assert !StartsWith(p, DELIMITER);
      if |p| >= 2 {
        assert p[..2] == [p[0], p[1]];
      }
      assert s[0] == p[0] && !(s[0] == ',' && s[1] == ' ') by {
        if |p| == 1 {
          assert s[1] == ',';
        } else {
          assert s[1] == p[1];
        }
      }
      assert s[1..] == p[1..] + DELIMITER + t;
      SplitAfterPiece(p[1..], t);
      assert [p[0]] + p[1..] == p;
    }
  }

  /** Joining with ", " and splitting on ", " round-trip whenever no label
      contains the delimiter. */
  lemma {:induction false} SplitJoin(parts: seq<string>)
    requires |parts| >= 1
    requires forall p :: p in parts ==> !Occurs(DELIMITER, p)
    ensures SplitGenres(Join(parts, DELIMITER)) == parts
    decreases |parts|
  {
    if |parts| == 1 {
      SplitWithoutDelimiter(parts[0]);
    } else {
      assert forall p :: p in parts[1..] ==> p in parts;
      SplitJoin(parts[1..]);
      SplitAfterPiece(parts[0], Join(parts[1..], DELIMITER));
      assert [parts[0]] + parts[1..] == parts;
    }
  }

  /** `", ".join(genres) if genres else None`: None exactly when there are
      no genres, and otherwise a string that splits back into the list. */
  function GenreField(genres: seq<string>): (r: Option<string>)
    ensures r.None? <==> |genres| == 0
    ensures r.Some? && (forall g :: g in genres ==> !Occurs(DELIMITER, g)) ==> SplitGenres(r.value) == genres
  {
    if |genres| == 0 then None
    else
      assert (forall g :: g in genres ==> !Occurs(DELIMITER, g)) ==> SplitGenres(Join(genres, DELIMITER)) == genres by {
        if forall g :: g in genres ==> !Occurs(DELIMITER, g) {
          SplitJoin(genres);
        }
      }
      Some(Join(genres, DELIMITER))
  }

  /** `all_tracks.get(extract_track_id(uri), {})`. */
  function TrackDataFor(uri: string, tracks: map<string, TrackData>): TrackData {
    var id := ExtractTrackId(Text(uri));
    if id.Some? && id.value in tracks then tracks[id.value] else Empty
  }

  /** The record emitted for one reference: the reference itself, the
      track's fields except its artist keys, and its artists' genres. A
      reference that does not normalise or was not resolved gets neither
      attributes nor genres. */
  function RecordFor(uri: string, tracks: map<string, TrackData>, genres: map<string, seq<string>>): (r: Record)
    ensures r.uri == uri
    ensures TrackDataFor(uri, tracks).Empty? ==> r.attributes.None? && r.artistGenres.None?
    ensures TrackDataFor(uri, tracks).Found? ==> r.attributes == Some(TrackDataFor(uri, tracks).attributes)
    ensures r.artistGenres.None? <==> GenreList(TrackDataFor(uri, tracks).Artists(), genres) == []
    ensures r.artistGenres.Some? && (forall g :: g in GenreList(TrackDataFor(uri, tracks).Artists(), genres) ==> !Occurs(DELIMITER, g)) ==>
              SplitGenres(r.artistGenres.value) == Dedup(GenreList(TrackDataFor(uri, tracks).Artists(), genres))
  {
    var data := TrackDataFor(uri, tracks);
    var tags := GenreList(data.Artists(), genres);
    assert |Dedup(tags)| == 0 <==> tags == [] by {
      if tags != [] {
        assert tags[0] in Dedup(tags);
      }
    }
    Record(uri, data.Fields(), GenreField(Dedup(tags)))
  }

  /** The aggregation loop: one record per reference, in input order. */
  method AggregateRecords(uris: seq<string>, allTracks: map<string, TrackData>, allArtistGenres: map<string, seq<string>>)
    returns (records: seq<Record>)
    ensures |records| == |uris|
    ensures forall i :: 0 <= i < |uris| ==> records[i] == RecordFor(uris[i], allTracks, allArtistGenres)
  {
    records := [];
    for k := 0 to |uris|
      invariant |records| == k
      invariant forall i :: 0 <= i < k ==> records[i] == RecordFor(uris[i], allTracks, allArtistGenres)
    {
      var uri := uris[k];
      var trackId := ExtractTrackId(Text(uri));
      var trackData := if trackId.Some? && trackId.value in allTracks then allTracks[trackId.value] else Empty;
      var artistIds := trackData.Artists();
      var genres: seq<string> := [];
      for j := 0 to |artistIds|
        invariant genres == GenreList(artistIds[..j], allArtistGenres)
      {
        assert artistIds[..j + 1][..j] == artistIds[..j];
        var artistId := artistIds[j];
        genres := genres + if artistId in allArtistGenres then allArtistGenres[artistId] else [];
      }
      assert artistIds[..|artistIds|] == artistIds;
      genres := Dedup(genres);
      records := records + [Record(uri, trackData.Fields(), GenreField(genres))];
    }
  }

  /** Artists with genres [pop, rock] and [rock, jazz] give "pop, rock, jazz". */
  lemma TwoArtistsExample()
    ensures GenreField(Dedup(GenreList(["A1", "A2"], map["A1" := ["pop", "rock"], "A2" := ["rock", "jazz"]])))
            == Some("pop, rock, jazz")
  {
    ConcatExample();
    DedupExample();
    JoinExample();
  }

  lemma ConcatExample()
    ensures GenreList(["A1", "A2"], map["A1" := ["pop", "rock"], "A2" := ["rock", "jazz"]]) == ["pop", "rock", "rock", "jazz"]
  {
    var m := map["A1" := ["pop", "rock"], "A2" := ["rock", "jazz"]];
    assert ["A1", "A2"][..1] == ["A1"];
    assert ["A1"][..0] == [];
    assert GenreList(["A1"], m) == ["pop", "rock"];
  }

  lemma DedupExample()
    ensures Dedup(["pop", "rock", "rock", "jazz"]) == ["pop", "rock", "jazz"]
  {
    var s := ["pop", "rock", "rock", "jazz"];
    assert s[..3] == ["pop", "rock", "rock"];
    assert s[..3][..2] == ["pop", "rock"];
    assert s[..3][..2][..1] == ["pop"];
    assert ["pop"][..0] == [];
    assert Dedup(["pop"]) == ["pop"];
    assert Dedup(["pop", "rock"]) == ["pop", "rock"];
    assert Dedup(["pop", "rock", "rock"]) == ["pop", "rock"];
  }

  lemma JoinExample()
    ensures Join(["pop", "rock", "jazz"], DELIMITER) == "pop, rock, jazz"
  {
    assert ["pop", "rock", "jazz"][1..] == ["rock", "jazz"];
    assert ["rock", "jazz"][1..] == ["jazz"];
  }
}
