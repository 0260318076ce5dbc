/** Small shared vocabulary: an optional value, bytes, and the concatenation
    of a list of byte chunks (a Blob built from parts, or an audio stream
    assembled from segments). */
module Common {

  datatype Option<T> = None | Some(value: T)

  /** One octet, as produced by `Uint8Array`, `Blob` or Python `bytes`. */
  newtype byte = x: int | 0 <= x < 256

  /** The bytes of `Blob(parts)` / `b"".join(parts)`: every part, in order. */
  function Concat<T>(parts: seq<seq<T>>): (r: seq<T>)
  {
    if parts == [] then [] else parts[0] + Concat(parts[1..])
  }

  /** Appending one part appends its bytes at the end. */
  lemma {:induction false} ConcatSnoc<T>(parts: seq<seq<T>>, last: seq<T>)
    ensures Concat(parts + [last]) == Concat(parts) + last
  {
    if parts == [] {
      assert [] + [last] == [last];
    } else {
      assert (parts + [last])[1..] == parts[1..] + [last];
      ConcatSnoc(parts[1..], last);
    }
  }

  /** Sum of the part lengths. */
  function TotalLength<T>(parts: seq<seq<T>>): nat
  {
    if parts == [] then 0 else |parts[0]| + TotalLength(parts[1..])
  }

  lemma {:induction false} ConcatLength<T>(parts: seq<seq<T>>)
    ensures |Concat(parts)| == TotalLength(parts)
  {
    if parts != [] {
      ConcatLength(parts[1..]);
    }
  }

  /** `f` applied to every element, in order (a list comprehension). */
  function Map<T, U>(f: T -> U, xs: seq<T>): (r: seq<U>)
    ensures |r| == |xs|
    ensures forall i :: 0 <= i < |xs| ==> r[i] == f(xs[i])
  {
    seq(|xs|, i requires 0 <= i < |xs| => f(xs[i]))
  }

  /** A non-empty list is its first element followed by the rest. */
  lemma HeadTail<T>(s: seq<T>)
    requires |s| > 0
    ensures s == [s[0]] + s[1..]
  {
  }

  /** A slice holds nothing its list does not. */
  lemma NotInSlice<T>(x: T, s: seq<T>, i: int, j: int)
    requires 0 <= i <= j <= |s| && x !in s
    ensures x !in s[i..j]
  {
    forall k | 0 <= k < j - i ensures s[i..j][k] != x {
      assert s[i..j][k] == s[i + k];
    }
  }

  /** Mapping a one-element list. */
  lemma MapSingle<T, U>(f: T -> U, x: T)
    ensures Map(f, [x]) == [f(x)]
  {
  }

  /** Mapping a list with one more element in front. */
  lemma MapCons<T, U>(f: T -> U, x: T, xs: seq<T>)
    ensures Map(f, [x] + xs) == [f(x)] + Map(f, xs)
  {
    var l, r := Map(f, [x] + xs), [f(x)] + Map(f, xs);
    forall i | 0 <= i < |l| ensures l[i] == r[i] {
      if i > 0 {
        assert ([x] + xs)[i] == xs[i - 1];
      }
    }
  }

  /** Two lists that differ at most in their first element, where `f`
      agrees, map alike. */
  lemma MapFirstSame<T, U>(f: T -> U, a: seq<T>, b: seq<T>)
    requires |a| == |b| > 0 && f(a[0]) == f(b[0]) && a[1..] == b[1..]
    ensures Map(f, a) == Map(f, b)
  {
    var l, r := Map(f, a), Map(f, b);
    forall i | 0 <= i < |l| ensures l[i] == r[i] {
      if i > 0 {
        assert a[i] == a[1..][i - 1] && b[i] == b[1..][i - 1];
      }
    }
  }

  /** Appending three sequences to a fourth, one at a time or at once. */
  lemma AppendThree<T>(a: seq<T>, b: seq<T>, c: seq<T>, d: seq<T>)
    ensures a + b + c + d == a + (b + c + d)
  {
  }

  function MaxReal(a: real, b: real): (r: real)
    ensures r >= a && r >= b
    ensures r == a || r == b
  {
    if a < b then b else a
  }
}
