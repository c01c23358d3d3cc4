/**
 `CollectionLoopFixture` of collection_loop_benchmark.cc and the protocol each
 of its five benchmark bodies follows: zero the allocation counters, run the
 filter-copy once per timed iteration, then read the counters.
 */
module Fixture {
  import opened FilterSpec
  import opened Traversals
  import opened Allocation

  class CollectionLoopFixture {
    /** The size argument of the current run (`state.range(0)`). */
    var loopIterations: nat
    /** The input every benchmark body filters. */
    var values: seq<int>

    /** The fixture as declared: `values` starts as an empty vector.
        `loopIterations` has no initializer in the source and is only
        meaningful once SetUp has assigned it, so nothing is promised
        about it here. */
    constructor ()
      ensures values == []
    {
      loopIterations := 0;
      values := [];
    }

    /** Clears `values` and refills it with 0, 1, ..., range - 1. The
        `reserve` call only sets the capacity and is not modelled. */
    method SetUp(range: nat)
      modifies this
      ensures loopIterations == range
      ensures values == Ascending(range)
    {
      loopIterations := range;
      values := [];
      var i := 0;
      while i < range
        invariant i <= range && loopIterations == range
        invariant values == Ascending(i)
      {
        values := values + [i];
        i := i + 1;
      }
    }

    /** Clears `values`; the size argument stays as it was. */
    method TearDown()
      modifies this`values
      ensures values == []
    {
      values := [];
    }

    /** One benchmark body: `traffic[k]` is the sequence of heap calls made
        while timed iteration k runs (by `reserve`, `push_back` and anything
        else in the process), which the model takes as given. Heap calls the
        iteration machinery makes after the reset but before the first
        iteration, or after the last one but before the counters are read,
        are counted as part of the first or last iteration's `traffic`.
        Every iteration yields the filter of `values`; on the input SetUp
        builds that is the even integers below the size argument. The counters
        read at the end hold exactly the allocations and bytes made since the
        reset. The fixture itself is not modified. */
    method Run(traversal: Traversal, counters: AllocationCounters, traffic: seq<seq<HeapCall>>)
      returns (results: seq<seq<int>>, allocCount: nat, allocBytes: nat)
      modifies counters
      ensures |results| == |traffic|
      ensures forall k :: 0 <= k < |results| ==> results[k] == FilterEven(values)
      ensures values == Ascending(loopIterations) ==>
                forall k :: 0 <= k < |results| ==> results[k] == EvensBelow(loopIterations)
      ensures allocCount == counters.allocationCount == Allocations(Concat(traffic))
      ensures allocBytes == counters.allocatedBytes == BytesRequested(Concat(traffic))
    {
      counters.Reset();
      results := [];
      var k := 0;
      while k < |traffic|
        invariant k <= |traffic|
        invariant |results| == k
        invariant forall j :: 0 <= j < k ==> results[j] == FilterEven(values)
        invariant counters.Current() == Replay(Tally(0, 0), Concat(traffic[..k]))
      {
        var result := FilterBy(traversal, values);
        counters.Perform(traffic[k]);
        assert traffic[..k + 1][..k] == traffic[..k];
        ReplayAppend(Tally(0, 0), Concat(traffic[..k]), traffic[k]);
        results := results + [result];
        k := k + 1;
      }
      assert traffic[..k] == traffic;
      ReplayTotals(Tally(0, 0), Concat(traffic));
      allocCount := counters.allocationCount;
      allocBytes := counters.allocatedBytes;
      if values == Ascending(loopIterations) {
        FilterEvenAscending(loopIterations);
      }
    }
  }
}
