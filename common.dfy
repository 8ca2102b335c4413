/** Vocabulary shared by the pipeline's components: Python's None as an
    option type, and a few facts about sequences and strings. */
module Common {

  /** A value that may be None. */
  datatype Option<T> = None | Some(value: T)

  /** No element occurs twice. */
  predicate Distinct<T(==)>(s: seq<T>) {
    forall i, j :: 0 <= i < j < |s| ==> s[i] != s[j]
  }

  /** The elements of a sequence, as a set. */
  function Elems<T>(s: seq<T>): set<T> {
    set x | x in s
  }

  lemma ElemsAppend<T>(a: seq<T>, b: seq<T>)
    ensures Elems(a + b) == Elems(a) + Elems(b)
  {
  }

  /** Python's `s.startswith(p)`. */
  predicate StartsWith(s: string, p: string) {
    |p| <= |s| && s[..|p|] == p
  }

  /** Python's `p in s`: p occurs in s as a contiguous substring. */
  predicate Occurs(p: string, s: string)
    decreases |s|
  {
    StartsWith(s, p) || (|s| > 0 && Occurs(p, s[1..]))
  }
}
