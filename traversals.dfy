/**
 The five benchmark bodies of collection_loop_benchmark.cc, each building a
 fresh `result` from the fixture's `values` by one traversal mechanism. The
 input arrives as a sequence value, as the bodies see it through a const
 reference: no body can change it. Each `result.push_back(value)` becomes
 `result := result + [value]`; `result.reserve(size)` only fixes the capacity,
 which the loops carry as the bound `|result| <= |values|`.
 */
module Traversals {
  import opened FilterSpec

  /** The five benchmarks, by the mechanism each one measures. */
  datatype Traversal = ByIndex | RangeFor | IteratorPerStepEnd | IteratorCachedEnd | ForEachClosure

  /** `std::vector::at`: the element, or the `std::out_of_range` it throws. */
  datatype Checked = InRange(value: int) | OutOfRange

  function At(values: seq<int>, i: nat): (r: Checked)
    ensures r.InRange? <==> i < |values|
    ensures r.InRange? ==> r.value == values[i]
  {
    if i < |values| then InRange(values[i]) else OutOfRange
  }

  /** `values.end()`: the position one past the last element, so every
      element lies before it and none at or after it. */
  function End(values: seq<int>): (e: nat)
    ensures e <= |values| && values[..e] == values && values[e..] == []
  {
    |values|
  }

  /** Benchmark `loop`: index from 0 to the cached size, element by `at(i)`.
      The out-of-range branch is proved dead: `at` never throws here. */
  method Loop(values: seq<int>) returns (result: seq<int>)
    ensures result == FilterEven(values)
  {
    var size := |values|;
    result := [];
    var i := 0;
    while i < size
      invariant i <= size
      invariant result == FilterEven(values[..i])
      invariant |result| <= size
    {
      var checked := At(values, i);
      if checked.OutOfRange? {
        assert false;
      }
      var value := checked.value;
      if value % 2 == 0 {
        result := result + [value];
      }
      assert values[..i + 1] == values[..i] + [values[i]];
      FilterEvenSnoc(values[..i], values[i]);
      i := i + 1;
    }
    assert values[..size] == values;
  }

  /** Benchmark `enhancedLoop`: a range-for over the elements. */
  method EnhancedLoop(values: seq<int>) returns (result: seq<int>)
    ensures result == FilterEven(values)
  {
    result := [];
    for k := 0 to |values|
      invariant result == FilterEven(values[..k])
      invariant |result| <= |values|
    {
      var value := values[k];
      if value % 2 == 0 {
        result := result + [value];
      }
      assert values[..k + 1] == values[..k] + [values[k]];
      FilterEvenSnoc(values[..k], values[k]);
    }
    assert values[..|values|] == values;
  }

  /** Benchmark `iterator`: a cursor from `begin()` compared against a freshly
      fetched `end()` on every step. `steps` counts the loop iterations. */
  method Iterator(values: seq<int>) returns (result: seq<int>, ghost steps: nat)
    ensures result == FilterEven(values)
    ensures steps == |values|
  {
    result := [];
    steps := 0;
    var it: nat := 0;
    while it != End(values)
      invariant it <= |values| && steps == it
      invariant result == FilterEven(values[..it])
      invariant |result| <= |values|
      decreases |values| - it
    {
      var value := values[it];
      if value % 2 == 0 {
        result := result + [value];
      }
      assert values[..it + 1] == values[..it] + [values[it]];
      FilterEvenSnoc(values[..it], values[it]);
      it := it + 1;
      steps := steps + 1;
    }
    assert values[..it] == values;
  }

  /** Benchmark `iteratorConstEnd`: the same cursor, compared against an
      `end` fetched once before the loop. */
  method IteratorConstEnd(values: seq<int>) returns (result: seq<int>, ghost steps: nat)
    ensures result == FilterEven(values)
    ensures steps == |values|
  {
    result := [];
    steps := 0;
    var end := End(values);
    var it: nat := 0;
    while it != end
      invariant it <= end == |values| && steps == it
      invariant result == FilterEven(values[..it])
      invariant |result| <= |values|
      decreases end - it
    {
      var value := values[it];
      if value % 2 == 0 {
        result := result + [value];
      }
      assert values[..it + 1] == values[..it] + [values[it]];
      FilterEvenSnoc(values[..it], values[it]);
      it := it + 1;
      steps := steps + 1;
    }
    assert values[..it] == values;
  }

  /** What applying `f` to every element, front to back, does to the state
      `acc` that `f` updates. */
  function Fold<A>(f: (A, int) -> A, acc: A, s: seq<int>): A
    decreases |s|
  {
    if s == [] then acc else Fold(f, f(acc, s[0]), s[1..])
  }

  /** `std::for_each(begin, end, f)`: calls `f` on each element in order.
      The closure's effect on the state it captures is threaded through as
      `acc`. */
  method StdForEach<A>(values: seq<int>, init: A, f: (A, int) -> A) returns (acc: A)
    ensures acc == Fold(f, init, values)
  {
    acc := init;
    var it := 0;
    while it < |values|
      invariant it <= |values|
      invariant Fold(f, acc, values[it..]) == Fold(f, init, values)
    {
      assert values[it..][1..] == values[it + 1..];
      acc := f(acc, values[it]);
      it := it + 1;
    }
  }

  /** The closure of benchmark `forEach`, as its effect on the captured
      `result`: it extends `result` by the filter of the one value it sees. */
  function AppendIfEven(result: seq<int>, value: int): (r: seq<int>)
    ensures r == result + FilterEven([value])
  {
    assert [value][1..] == [];
    if value % 2 == 0 then result + [value] else result
  }

  /** Folding the closure over `s` appends exactly the filter of `s`. */
  lemma {:induction false} FoldAppendIfEven(acc: seq<int>, s: seq<int>)
    ensures Fold(AppendIfEven, acc, s) == acc + FilterEven(s)
    decreases |s|
  {
    if s != [] {
      FoldAppendIfEven(AppendIfEven(acc, s[0]), s[1..]);
      if IsEven(s[0]) {
        assert acc + ([s[0]] + FilterEven(s[1..])) == (acc + [s[0]]) + FilterEven(s[1..]);
      }
    }
  }

  /** Benchmark `forEach`: `std::for_each` with the appending closure. After
      the closure has seen any prefix of `values`, the captured `result` is
      still within the capacity reserved for `values.size()` elements. */
  method ForEach(values: seq<int>) returns (result: seq<int>)
    ensures result == FilterEven(values)
    ensures forall j :: 0 <= j <= |values| ==> |Fold(AppendIfEven, [], values[..j])| <= |values|
  {
    result := StdForEach(values, [], AppendIfEven);
    FoldAppendIfEven([], values);
    forall j | 0 <= j <= |values|
      ensures |Fold(AppendIfEven, [], values[..j])| <= |values|
    {
      FoldAppendIfEven([], values[..j]);
    }
  }

  /** The filter-copy of one timed iteration, by the chosen mechanism. */
  method FilterBy(traversal: Traversal, values: seq<int>) returns (result: seq<int>)
    ensures result == FilterEven(values)
  {
    ghost var steps: nat;
    match traversal {
      case ByIndex => result := Loop(values);
      case RangeFor => result := EnhancedLoop(values);
      case IteratorPerStepEnd => result, steps := Iterator(values);
      case IteratorCachedEnd => result, steps := IteratorConstEnd(values);
      case ForEachClosure => result := ForEach(values);
    }
  }

  /** The five mechanisms are performance variants only: on the same input
      they build the same result, and the two iterator loops, whichever
      `end` they compare against, run the same number of steps. */
  method VariantsAgree(values: seq<int>)
    returns (byIndex: seq<int>, rangeFor: seq<int>, perStepEnd: seq<int>,
             cachedEnd: seq<int>, forEach: seq<int>, ghost perStepSteps: nat, ghost cachedSteps: nat)
    ensures byIndex == rangeFor == perStepEnd == cachedEnd == forEach
    ensures perStepSteps == cachedSteps
  {
    byIndex := Loop(values);
    rangeFor := EnhancedLoop(values);
    perStepEnd, perStepSteps := Iterator(values);
    cachedEnd, cachedSteps := IteratorConstEnd(values);
    forEach := ForEach(values);
  }
}
