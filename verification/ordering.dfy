/**
 * Rust's `std::cmp::Ordering`, the `Ordering::then` chaining that derived `Ord`
 * implementations are built from, and the lexicographic order on `str` that
 * every string-wrapping newtype of the model inherits.
 */
module Ord {

  datatype Ordering = Less | Equal | Greater

  /** `Ordering::reverse`: the answer to the comparison asked the other way round. */
  function Reverse(o: Ordering): Ordering
  {
    match o
    case Less => Greater
    case Equal => Equal
    case Greater => Less
  }

  /** `Ordering::then`: the second comparison only breaks a tie of the first. */
  function Then(first: Ordering, next: Ordering): Ordering
  {
    if first == Equal then next else first
  }

  /** Comparison of two naturals, as `Ord for usize` / `u64` does it. */
  function NatCmp(a: nat, b: nat): Ordering
  {
    if a < b then Less else if a == b then Equal else Greater
  }

  /** Comparison of two characters by code point. */
  function CharCmp(a: char, b: char): Ordering
  {
    if a < b then Less else if a == b then Equal else Greater
  }

  /**
   * What `Ord` demands of `cmp`: `Equal` exactly on equal values, asking the
   * other way round reverses the answer, and `Less` is transitive.
   */
  ghost predicate IsTotalOrder<T(!new)>(cmp: (T, T) -> Ordering)
  {
    && (forall x, y :: cmp(x, y) == Equal <==> x == y)
    && (forall x, y :: cmp(y, x) == Reverse(cmp(x, y)))
    && (forall x, y, z :: cmp(x, y) == Less && cmp(y, z) == Less ==> cmp(x, z) == Less)
  }

  lemma NatCmpTotal()
    ensures IsTotalOrder(NatCmp)
  {
  }

  /**
   * `Ord for str`: lexicographic, element by element, a proper prefix before
   * the longer string. Rust compares the UTF-8 bytes; on well-formed text
   * that is the same order as comparing code points, which is what this does.
   */
  function StrCmp(a: string, b: string): Ordering
    decreases |a|
  {
    if a == [] then (if b == [] then Equal else Less)
    else if b == [] then Greater
    else Then(CharCmp(a[0], b[0]), StrCmp(a[1..], b[1..]))
  }

  /** A proper prefix sorts first. */
  lemma {:induction false} StrCmpPrefix(a: string, b: string)
    requires |a| < |b| && a == b[..|a|]
    ensures StrCmp(a, b) == Less
  {
    if a != [] {
      assert a[1..] == b[1..][..|a| - 1];
      StrCmpPrefix(a[1..], b[1..]);
    }
  }

  /** The first differing character decides. */
  lemma {:induction false} StrCmpFirstDifference(a: string, b: string, k: nat)
    requires k < |a| && k < |b| && a[..k] == b[..k] && a[k] != b[k]
    ensures StrCmp(a, b) == CharCmp(a[k], b[k])
  {
    if k > 0 {
      assert a[0] == a[..k][0] == b[..k][0] == b[0];
      assert a[1..][..k - 1] == a[..k][1..] == b[..k][1..] == b[1..][..k - 1];
      StrCmpFirstDifference(a[1..], b[1..], k - 1);
    }
  }

  lemma {:induction false} StrCmpEqual(a: string, b: string)
    ensures StrCmp(a, b) == Equal <==> a == b
  {
    if a != [] && b != [] {
      StrCmpEqual(a[1..], b[1..]);
      assert a == [a[0]] + a[1..] && b == [b[0]] + b[1..];
    }
  }

  lemma {:induction false} StrCmpReverse(a: string, b: string)
    ensures StrCmp(b, a) == Reverse(StrCmp(a, b))
  {
    if a != [] && b != [] {
      StrCmpReverse(a[1..], b[1..]);
    }
  }

  lemma {:induction false} StrCmpTransitive(a: string, b: string, c: string)
    requires StrCmp(a, b) == Less && StrCmp(b, c) == Less
    ensures StrCmp(a, c) == Less
  {
    if a != [] && b != [] && c != [] && a[0] == b[0] == c[0] {
      StrCmpTransitive(a[1..], b[1..], c[1..]);
    }
  }

  /** The order on strings is a total order in the sense of `Ord`. */
  lemma StrCmpTotal()
    ensures IsTotalOrder(StrCmp)
  {
    forall x: string, y: string ensures StrCmp(x, y) == Equal <==> x == y {
      StrCmpEqual(x, y);
    }
    forall x: string, y: string ensures StrCmp(y, x) == Reverse(StrCmp(x, y)) {
      StrCmpReverse(x, y);
    }
    forall x: string, y: string, z: string | StrCmp(x, y) == Less && StrCmp(y, z) == Less
      ensures StrCmp(x, z) == Less
    {
      StrCmpTransitive(x, y, z);
    }
  }
}
