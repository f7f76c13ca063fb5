/** Geographic points and the small numeric and list helpers the geometry code relies on. */
module Geo {

  /** A (latitude, longitude) pair in degrees, as the Python tuples `(lat, lon)`. */
  datatype Point = Point(lat: real, lon: real)

  function LatOf(p: Point): real { p.lat }

  function LonOf(p: Point): real { p.lon }

  /** Python's `x % 360` on floats: the remainder takes the sign of the divisor. */
  function Mod360(x: real): (r: real)
    ensures 0.0 <= r < 360.0
  {
    x - 360.0 * ((x / 360.0).Floor as real)
  }

  /** Mod360 is the unique representative in [0, 360) of x modulo 360. */
  lemma Mod360Unique(x: real, k: int)
    requires 0.0 <= x - 360.0 * (k as real) < 360.0
    ensures Mod360(x) == x - 360.0 * (k as real)
  {
    var y := x / 360.0;
    assert (k as real) <= y < (k as real) + 1.0;
    assert y.Floor == k;
  }

  /** Python's `s[::-1]`. */
  function Reverse<T>(s: seq<T>): (r: seq<T>)
    ensures |r| == |s|
    ensures forall i :: 0 <= i < |s| ==> r[i] == s[|s| - 1 - i]
  {
    if s == [] then [] else Reverse(s[1..]) + [s[0]]
  }

  /** Python's `sum(f(x) for x in s)`. */
  function SumOf<T>(s: seq<T>, f: T -> real): real
  {
    if s == [] then 0.0 else f(s[0]) + SumOf(s[1..], f)
  }

  lemma {:induction false} SumOfConcat<T>(a: seq<T>, b: seq<T>, f: T -> real)
    ensures SumOf(a + b, f) == SumOf(a, f) + SumOf(b, f)
  {
    if a == [] {
      assert a + b == b;
    } else {
      assert (a + b)[1..] == a[1..] + b;
      SumOfConcat(a[1..], b, f);
    }
  }

  /** Taking the term at index k out of a sum. */
  lemma SumOfRemove<T>(t: seq<T>, k: nat, f: T -> real)
    requires k < |t|
    ensures SumOf(t, f) == f(t[k]) + SumOf(t[..k] + t[k + 1..], f)
  {
    assert t == t[..k] + ([t[k]] + t[k + 1..]);
    SumOfConcat(t[..k], [t[k]] + t[k + 1..], f);
    assert ([t[k]] + t[k + 1..])[1..] == t[k + 1..];
    SumOfConcat(t[..k], t[k + 1..], f);
  }

  /** Removing the same element from two permutations of each other leaves permutations. */
  lemma PermutationRemove<T>(s: seq<T>, t: seq<T>, k: nat)
    requires multiset(s) == multiset(t) && s != [] && k < |t| && t[k] == s[0]
    ensures multiset(s[1..]) == multiset(t[..k] + t[k + 1..])
  {
    assert t == t[..k] + [t[k]] + t[k + 1..];
    assert multiset(t) == multiset(t[..k]) + multiset{t[k]} + multiset(t[k + 1..]);
    assert s == [s[0]] + s[1..];
    assert multiset(s) == multiset{s[0]} + multiset(s[1..]);
    assert multiset(s[1..]) == multiset(s) - multiset{s[0]};
    assert multiset(t[..k] + t[k + 1..]) == multiset(t) - multiset{t[k]};
  }

  /** An element of the multiset of a sequence sits at some index of it. */
  lemma IndexOf<T>(t: seq<T>, x: T) returns (k: nat)
    requires x in multiset(t)
    ensures k < |t| && t[k] == x
  {
    k :| 0 <= k < |t| && t[k] == x;
  }

  /** A sum does not depend on the order of its terms. */
  lemma {:induction false} SumOfPermutation<T>(s: seq<T>, t: seq<T>, f: T -> real)
    requires multiset(s) == multiset(t)
    ensures SumOf(s, f) == SumOf(t, f)
  {
    if s == [] {
      assert |t| == |multiset(t)| == 0;
    } else {
      assert s[0] in multiset(s);
      var k := IndexOf(t, s[0]);
      PermutationRemove(s, t, k);
      SumOfPermutation(s[1..], t[..k] + t[k + 1..], f);
      SumOfRemove(t, k, f);
    }
  }
}
