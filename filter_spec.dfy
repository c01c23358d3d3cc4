/**
 The specification every benchmark body of collection_loop_benchmark.cc is
 proved against: the filter-copy that keeps the even values of a sequence in
 their original order, the ascending input that the fixture builds, and the
 closed form of the filter on that input.
 */
module FilterSpec {

  /** C++'s `a % d` for a positive divisor: the remainder truncated towards
      zero, negative for a negative dividend that `d` does not divide. */
  function TruncatingRem(a: int, d: int): int
    requires d > 0
  {
    if a >= 0 then a % d else -((-a) % d)
  }

  /** The test `value % 2 == 0` of every benchmark body. Dafny's `%` is
      Euclidean and C++'s truncates, but for the divisor 2 both remainders
      are zero on exactly the same integers, negative ones included. */
  predicate IsEven(v: int)
    ensures IsEven(v) <==> TruncatingRem(v, 2) == 0
  {
    v % 2 == 0
  }

  /** Filter-copy: the even elements of `s`, in their original order. */
  function FilterEven(s: seq<int>): (r: seq<int>)
    ensures |r| <= |s|
    ensures forall k :: 0 <= k < |r| ==> IsEven(r[k]) && r[k] in s
  {
    if s == [] then []
    else if IsEven(s[0]) then [s[0]] + FilterEven(s[1..])
    else FilterEven(s[1..])
  }

  /** `r` can be obtained from `s` by deleting elements (order is kept). */
  ghost predicate IsSubsequence(r: seq<int>, s: seq<int>)
    decreases |s|
  {
    r == [] ||
    (s != [] && ((r[0] == s[0] && IsSubsequence(r[1..], s[1..])) || IsSubsequence(r, s[1..])))
  }

  /** Filtering a concatenation filters each part: the filter never
      reorders elements across positions. */
  lemma {:induction false} FilterEvenAppend(s: seq<int>, t: seq<int>)
    ensures FilterEven(s + t) == FilterEven(s) + FilterEven(t)
  {
    if s == [] {
      assert s + t == t;
    } else {
      assert (s + t)[0] == s[0];
      assert (s + t)[1..] == s[1..] + t;
      FilterEvenAppend(s[1..], t);
    }
  }

  /** One more element at the end: appended to the result iff it is even.
      This is the step of every benchmark loop. */
  lemma FilterEvenSnoc(s: seq<int>, x: int)
    ensures FilterEven(s + [x]) == FilterEven(s) + (if IsEven(x) then [x] else [])
  {
    FilterEvenAppend(s, [x]);
    assert [x][1..] == [];
  }

  /** The result is an order-preserving selection of the input. */
  lemma {:induction false} FilterEvenIsSubsequence(s: seq<int>)
    ensures IsSubsequence(FilterEven(s), s)
  {
    if s != [] {
      FilterEvenIsSubsequence(s[1..]);
      var r := FilterEven(s);
      if IsEven(s[0]) {
        assert r[0] == s[0] && r[1..] == FilterEven(s[1..]);
      } else {
        assert r == FilterEven(s[1..]);
      }
    }
  }

  /** Every even value occurs in the result exactly as often as in the input,
      and no odd value occurs at all: nothing even is dropped, nothing odd kept.
      Together with FilterEvenIsSubsequence this pins the result down. */
  lemma {:induction false} FilterEvenCounts(s: seq<int>)
    ensures forall v :: multiset(FilterEven(s))[v] == if IsEven(v) then multiset(s)[v] else 0
  {
    if s != [] {
      FilterEvenCounts(s[1..]);
      assert s == [s[0]] + s[1..];
      assert multiset(s) == multiset([s[0]]) + multiset(s[1..]);
      if IsEven(s[0]) {
        assert multiset(FilterEven(s)) == multiset([s[0]]) + multiset(FilterEven(s[1..]));
      }
    }
  }

  /** The input built by the fixture's SetUp: `push_back(i)` for i = 0 .. n-1. */
  function Ascending(n: nat): (r: seq<int>)
    ensures |r| == n
    ensures forall i :: 0 <= i < n ==> r[i] == i
  {
    if n == 0 then [] else Ascending(n - 1) + [n - 1]
  }

  /** The even integers below n, ascending: 0, 2, 4, ... */
  function EvensBelow(n: nat): seq<int> {
    seq((n + 1) / 2, k => 2 * k)
  }

  /** On the fixture's input the filter yields exactly the even integers
      below n, (n + 1) / 2 of them. */
  lemma {:induction false} FilterEvenAscending(n: nat)
    ensures FilterEven(Ascending(n)) == EvensBelow(n)
    ensures |FilterEven(Ascending(n))| == (n + 1) / 2
    ensures forall k :: 0 <= k < (n + 1) / 2 ==> FilterEven(Ascending(n))[k] == 2 * k
  {
    if n > 0 {
      FilterEvenAscending(n - 1);
      FilterEvenSnoc(Ascending(n - 1), n - 1);
      if IsEven(n - 1) {
        assert EvensBelow(n) == EvensBelow(n - 1) + [n - 1];
      } else {
        assert EvensBelow(n) == EvensBelow(n - 1);
      }
    }
  }

  /** The sizes the benchmarks are registered with (0, 1, 10, 100, 1000). */
  lemma RegisteredSizes()
    ensures FilterEven(Ascending(0)) == []
    ensures FilterEven(Ascending(1)) == [0]
    ensures FilterEven(Ascending(10)) == [0, 2, 4, 6, 8]
    ensures |FilterEven(Ascending(100))| == 50 && FilterEven(Ascending(100))[49] == 98
    ensures |FilterEven(Ascending(1000))| == 500 && FilterEven(Ascending(1000))[499] == 998
  {
    FilterEvenAscending(0);
    FilterEvenAscending(1);
    FilterEvenAscending(10);
    FilterEvenAscending(100);
    FilterEvenAscending(1000);
  }
}
