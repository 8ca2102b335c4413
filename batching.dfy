/** Splitting keys into provider-sized batches: `batch_items`
    (spotify_enrichment.py:81-84). */
module Batching {

  /** Provider limit on the number of keys in one lookup. */
  const BATCH_SIZE: nat := 50

  /** The batches laid end to end. */
  function Flatten<T>(batches: seq<seq<T>>): seq<T>
    decreases |batches|
  {
    if |batches| == 0 then [] else batches[0] + Flatten(batches[1..])
  }

  lemma {:induction false} FlattenAppend<T>(a: seq<seq<T>>, b: seq<seq<T>>)
    ensures Flatten(a + b) == Flatten(a) + Flatten(b)
    decreases |a|
  {
    if |a| == 0 {
      assert a + b == b;
    } else {
      assert (a + b)[1..] == a[1..] + b;
      FlattenAppend(a[1..], b);
    }
  }

  /** Flattening a prefix one batch longer appends that batch. */
  lemma FlattenSnoc<T>(batches: seq<seq<T>>, k: nat)
    requires k < |batches|
    ensures Flatten(batches[..k + 1]) == Flatten(batches[..k]) + batches[k]
  {
    assert batches[..k + 1] == batches[..k] + [batches[k]];
    FlattenAppend(batches[..k], [batches[k]]);
    assert Flatten([batches[k]]) == batches[k] + Flatten([]);
  }

  /** The slices items[i:i + size] for i = 0, size, 2 * size, ...: they
      cover the input in order, every one but the last holds exactly size
      items, the last holds between 1 and size, and there are
      ceil(|items| / size) of them (none for an empty input). */
  function BatchItems<T>(items: seq<T>, size: nat): (batches: seq<seq<T>>)
    requires size > 0
    ensures Flatten(batches) == items
    ensures forall i :: 0 <= i < |batches| ==> 0 < |batches[i]| <= size
    ensures forall i :: 0 <= i < |batches| - 1 ==> |batches[i]| == size
    ensures |batches| == (|items| + size - 1) / size
    decreases |items|
  {
    if |items| == 0 then []
    else
      var n := if |items| < size then |items| else size;
      var rest := BatchItems(items[n..], size);
      assert items[..n] + items[n..] == items;
      assert ([items[..n]] + rest)[1..] == rest;
      assert n < size ==> |items| + size - 1 < 2 * size;
      assert n == size ==> (|items| + size - 1) / size == (|items[n..]| + size - 1) / size + 1 by {
        DivPlusOne(|items[n..]| + size - 1, size);
      }
      [items[..n]] + rest
  }

  lemma DivPlusOne(x: int, d: int)
    requires d > 0 && x >= 0
    ensures (x + d) / d == x / d + 1
  {
    var q, r := x / d, x % d;
    assert x == q * d + r && 0 <= r < d;
    assert x + d == (q + 1) * d + r;
    DivUnique(x + d, d, q + 1, r);
  }

  lemma DivUnique(x: int, d: int, q: int, r: int)
    requires d > 0 && 0 <= r < d && x == q * d + r
    ensures x / d == q
  {
    var q', r' := x / d, x % d;
    assert x == q' * d + r' && 0 <= r' < d;
    MulSign(q - q', d);
    assert (q - q') * d == q * d - q' * d;
  }

  /** A non-zero multiple of d is at least d away from zero. */
  lemma MulSign(a: int, d: int)
    requires d > 0
    ensures a >= 1 ==> a * d >= d
    ensures a <= -1 ==> a * d <= -d
  {
  }

  /** 130 items in batches of 50 give batches of 50, 50 and 30. */
  lemma {:induction false} BatchesOf130<T>(items: seq<T>)
    requires |items| == 130
    ensures var b := BatchItems(items, BATCH_SIZE);
      |b| == 3 && |b[0]| == 50 && |b[1]| == 50 && |b[2]| == 30
  {
    var b := BatchItems(items, BATCH_SIZE);
    assert |b| == 3;
    FlattenAppend(b[..2], b[2..]);
    assert b[..2] + b[2..] == b;
    assert b[2..] == [b[2]];
    assert Flatten([b[2]]) == b[2] + Flatten([]);
    FlattenAppend([b[0]], [b[1]]);
    assert [b[0]] + [b[1]] == b[..2];
    assert Flatten([b[0]]) == b[0] + Flatten([]);
    assert Flatten([b[1]]) == b[1] + Flatten([]);
  }
}
