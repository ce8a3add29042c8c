/** Small shared vocabulary: optional values, generated identifiers, instants and symbolic digests. */
module Common {

  datatype Option<+T> = None | Some(value: T)

  /** A generated identifier. Freshness is "not yet a key of the table". */
  type Uuid = nat

  /** Seconds on the service clock. Nothing below assumes that the clock is monotone. */
  type Instant = int

  /** A provider post identity; unique in the posts table, so it stands for the post row too. */
  type PostId = string

  /** A SHA-256 digest, treated as a free constructor: injective and never empty. */
  datatype Digest = Sha256(preimage: string)

  function Min(x: int, y: int): int { if x <= y then x else y }

  /** Removing one element of a set lowers its size by exactly one. */
  lemma CardinalityRemove<T>(s: set<T>, x: T)
    requires x in s
    ensures |s - {x}| == |s| - 1
  {
  }

  /** A subset is no larger than its superset. */
  lemma {:induction false} CardinalityMonotone<T>(a: set<T>, b: set<T>)
    requires a <= b
    ensures |a| <= |b|
    decreases |a|
  {
    if a != {} {
      var x :| x in a;
      CardinalityMonotone(a - {x}, b - {x});
      CardinalityRemove(a, x);
      CardinalityRemove(b, x);
    }
  }

  /** A set splits into the part inside another set and the part outside it. */
  lemma CardinalitySplit<T>(a: set<T>, b: set<T>)
    ensures |a * b| + |a - b| == |a|
  {
    assert (a * b) + (a - b) == a;
    assert (a * b) !! (a - b);
  }
}
