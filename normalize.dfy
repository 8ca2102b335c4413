/** Identifier normalisation: `extract_track_id` (spotify_enrichment.py:68-78). */
module Normalize {
  import opened Common

  /** A cell of the input's `uri` column: a missing value (NaN or None),
      a value of some other type, or text. */
  datatype Cell = Absent | NonText | Text(s: string)

  const TRACK_PREFIX: string := "spotify:track:"
  const TRACK_ID_LENGTH: nat := 22

  /** Python's `s.replace(pat, "")`: scanning left to right, every
      non-overlapping occurrence of pat is removed, not only a leading one. */
  function RemoveAll(s: string, pat: string): (r: string)
    requires |pat| > 0
    ensures |r| <= |s|
    ensures StartsWith(s, pat) ==> |r| <= |s| - |pat|
    ensures !Occurs(pat, s) ==> r == s
    decreases |s|
  {
    if |s| < |pat| then s
    else if StartsWith(s, pat) then RemoveAll(s[|pat|..], pat)
    else [s[0]] + RemoveAll(s[1..], pat)
  }

  /** The canonical track key of a cell, or None when it is not recognised.
      The prefix test comes first, so a prefixed URI of any length is
      accepted; a bare key must have exactly 22 characters. */
  function ExtractTrackId(c: Cell): (r: Option<string>)
    ensures r.Some? <==> c.Text? && (StartsWith(c.s, TRACK_PREFIX) || |c.s| == TRACK_ID_LENGTH)
    ensures c.Text? && r.Some? && !StartsWith(c.s, TRACK_PREFIX) ==> r.value == c.s
    ensures c.Text? && StartsWith(c.s, TRACK_PREFIX) && !Occurs(TRACK_PREFIX, c.s[|TRACK_PREFIX|..]) ==>
              r == Some(c.s[|TRACK_PREFIX|..])
    ensures c.Text? && StartsWith(c.s, TRACK_PREFIX) ==> r == Some(RemoveAll(c.s, TRACK_PREFIX))
    ensures c.Text? && r.Some? ==> |r.value| <= |c.s|
  {
    match c
    case Text(s) =>
      if StartsWith(s, TRACK_PREFIX) then
        var tail := s[|TRACK_PREFIX|..];
        assert !Occurs(TRACK_PREFIX, tail) ==> RemoveAll(s, TRACK_PREFIX) == tail;
        Some(RemoveAll(s, TRACK_PREFIX))
      else if |s| == TRACK_ID_LENGTH then Some(s)
      else None
    case _ => None
  }

  /** A URI and the bare key it carries normalise to the same key, so both
      references receive the same resolved data. */
  lemma UriAndBareIdAgree(id: string)
    requires |id| == TRACK_ID_LENGTH && !Occurs(TRACK_PREFIX, id)
    ensures ExtractTrackId(Text(TRACK_PREFIX + id)) == ExtractTrackId(Text(id)) == Some(id)
  {
    var uri := TRACK_PREFIX + id;
    assert uri[..|TRACK_PREFIX|] == TRACK_PREFIX && uri[|TRACK_PREFIX|..] == id;
  }

  /** Because `replace` removes every occurrence, a URI that repeats the
      prefix loses both copies. */
  lemma DoublePrefixRemovesBoth(id: string)
    requires !Occurs(TRACK_PREFIX, id)
    ensures ExtractTrackId(Text(TRACK_PREFIX + TRACK_PREFIX + id)) == Some(id)
  {
    var uri := TRACK_PREFIX + TRACK_PREFIX + id;
    assert uri[..|TRACK_PREFIX|] == TRACK_PREFIX;
    var rest := uri[|TRACK_PREFIX|..];
    assert rest == TRACK_PREFIX + id;
    assert rest[..|TRACK_PREFIX|] == TRACK_PREFIX && rest[|TRACK_PREFIX|..] == id;
    assert RemoveAll(rest, TRACK_PREFIX) == id;
    assert RemoveAll(uri, TRACK_PREFIX) == id;
  }

  /** The prefix begins with the only 's' it contains, so no occurrence of
      it can start in a short non-empty text and run into a following copy. */
  lemma NoStraddle(a: string, t: string)
    requires 0 < |a| < |TRACK_PREFIX|
    ensures !StartsWith(a + TRACK_PREFIX + t, TRACK_PREFIX)
  {
    var s := a + TRACK_PREFIX + t;
    assert s[|a|] == 's';
    assert forall k :: 0 < k < |TRACK_PREFIX| ==> TRACK_PREFIX[k] != 's';
  }

  /** Removing every occurrence from a string with a copy of the prefix in
      its middle is removing them on either side of that copy. */
  lemma {:induction false} RemoveAllAround(a: string, b: string)
    ensures RemoveAll(a + TRACK_PREFIX + b, TRACK_PREFIX) == RemoveAll(a, TRACK_PREFIX) + RemoveAll(b, TRACK_PREFIX)
    decreases |a|
  {
    var p := TRACK_PREFIX;
    var s := a + p + b;
    if |a| == 0 {
      assert s == p + b && s[..|p|] == p && s[|p|..] == b;
    } else if StartsWith(a, p) {
      assert s[..|p|] == a[..|p|];
      assert s[|p|..] == a[|p|..] + p + b;
      RemoveAllAround(a[|p|..], b);
    } else {
      if |a| >= |p| {
        assert s[..|p|] == a[..|p|];
      } else {
        NoStraddle(a, b);
      }
      assert s[1..] == a[1..] + p + b;
      RemoveAllAround(a[1..], b);
      if |a| < |p| {
        assert [a[0]] + a[1..] == a;
      }
    }
  }

  /** The prefix is removed wherever it occurs, not only at the start: a
      URI carrying a second copy of the prefix inside its key keeps only
      the text around it. */
  lemma InnerPrefixRemoved(a: string, b: string)
    requires !Occurs(TRACK_PREFIX, a) && !Occurs(TRACK_PREFIX, b)
    ensures ExtractTrackId(Text(TRACK_PREFIX + a + TRACK_PREFIX + b)) == Some(a + b)
  {
    var uri := TRACK_PREFIX + a + TRACK_PREFIX + b;
    assert uri == TRACK_PREFIX + (a + TRACK_PREFIX + b);
    RemoveAllAround([], a + TRACK_PREFIX + b);
    RemoveAllAround(a, b);
    assert RemoveAll([], TRACK_PREFIX) == [];
  }
}
