/**
 The allocation-accounting shim of collection_loop_benchmark.cc: the global
 `allocationCount` and `allocatedBytes`, bumped by the replaced `operator new`
 and `operator new[]` and left alone by `operator delete` and
 `operator delete[]`. The pure part describes the counters after any sequence
 of heap calls; the class holds the two globals and the four entry points.
 */
module Allocation {

  /** One call into the replaced global allocation functions. */
  datatype HeapCall = New(size: nat) | NewArray(size: nat) | Delete | DeleteArray

  /** The two counters, as a value. */
  datatype Tally = Tally(count: nat, bytes: nat)

  /** The effect of one heap call on the counters: the count grows by the
      number of allocations the call makes and the bytes by what it requests. */
  function Step(t: Tally, call: HeapCall): (r: Tally)
    ensures r == Tally(t.count + Allocations([call]), t.bytes + BytesRequested([call]))
  {
    assert [call][1..] == [];
    match call
    case New(size) => Tally(t.count + 1, t.bytes + size)
    case NewArray(size) => Tally(t.count + 1, t.bytes + size)
    case Delete => t
    case DeleteArray => t
  }

  /** The counters after the calls run in order, starting from `t`.
      Neither counter ever goes down. */
  function Replay(t: Tally, calls: seq<HeapCall>): (r: Tally)
    ensures t.count <= r.count && t.bytes <= r.bytes
    decreases |calls|
  {
    if calls == [] then t else Replay(Step(t, calls[0]), calls[1..])
  }

  /** How many of the calls allocate (single object or array). */
  function Allocations(calls: seq<HeapCall>): nat {
    if calls == [] then 0
    else (if calls[0].New? || calls[0].NewArray? then 1 else 0) + Allocations(calls[1..])
  }

  /** The bytes the allocating calls request, in total. */
  function BytesRequested(calls: seq<HeapCall>): nat {
    if calls == [] then 0
    else (match calls[0]
          case New(size) => size
          case NewArray(size) => size
          case _ => 0) + BytesRequested(calls[1..])
  }

  /** The counters add exactly one per allocating call and exactly its size in
      bytes; deallocations add nothing. */
  lemma {:induction false} ReplayTotals(t: Tally, calls: seq<HeapCall>)
    ensures Replay(t, calls) == Tally(t.count + Allocations(calls), t.bytes + BytesRequested(calls))
    decreases |calls|
  {
    if calls != [] {
      ReplayTotals(Step(t, calls[0]), calls[1..]);
    }
  }

  /** Counting over a concatenation adds the counts of the parts. */
  lemma {:induction false} TotalsAppend(a: seq<HeapCall>, b: seq<HeapCall>)
    ensures Allocations(a + b) == Allocations(a) + Allocations(b)
    ensures BytesRequested(a + b) == BytesRequested(a) + BytesRequested(b)
  {
    if a == [] {
      assert a + b == b;
    } else {
      assert (a + b)[0] == a[0];
      assert (a + b)[1..] == a[1..] + b;
      TotalsAppend(a[1..], b);
    }
  }

  /** Running two batches of calls one after the other is running their
      concatenation: the counters carry over from one batch to the next. */
  lemma {:induction false} ReplayAppend(t: Tally, a: seq<HeapCall>, b: seq<HeapCall>)
    ensures Replay(t, a + b) == Replay(Replay(t, a), b)
    decreases |a|
  {
    if a == [] {
      assert a + b == b;
    } else {
      assert (a + b)[0] == a[0];
      assert (a + b)[1..] == a[1..] + b;
      ReplayAppend(Step(t, a[0]), a[1..], b);
    }
  }

  /** The heap calls of several timed iterations, one after the other. */
  function Concat(traffic: seq<seq<HeapCall>>): seq<HeapCall> {
    if traffic == [] then [] else Concat(traffic[..|traffic| - 1]) + traffic[|traffic| - 1]
  }

  /** When every iteration makes the same calls, the totals are the
      per-iteration figures times the number of iterations, so the averages
      reported per iteration are the per-iteration figures. */
  lemma {:induction false} UniformTraffic(traffic: seq<seq<HeapCall>>, calls: seq<HeapCall>)
    requires forall k :: 0 <= k < |traffic| ==> traffic[k] == calls
    ensures Allocations(Concat(traffic)) == |traffic| * Allocations(calls)
    ensures BytesRequested(Concat(traffic)) == |traffic| * BytesRequested(calls)
  {
    if traffic != [] {
      var n := |traffic|;
      var front := traffic[..n - 1];
      assert forall k :: 0 <= k < |front| ==> front[k] == traffic[k];
      UniformTraffic(front, calls);
      assert Concat(traffic) == Concat(front) + calls;
      TotalsAppend(Concat(front), calls);
      MulSucc(n - 1, Allocations(calls));
      MulSucc(n - 1, BytesRequested(calls));
    }
  }

  /** (m + 1) * x, unfolded once: kept apart so that the nonlinear step
      does not enter UniformTraffic's own proof context. */
  lemma MulSucc(m: nat, x: nat)
    ensures m * x + x == (m + 1) * x
  {
  }

  /** The two process-wide counters and the replaced allocation functions.
      Each function only does the bookkeeping; the memory itself comes from
      and goes back to `malloc`/`free`, which are not part of this model. */
  class AllocationCounters {
    var allocationCount: nat
    var allocatedBytes: nat

    function Current(): Tally
      reads this
    {
      Tally(allocationCount, allocatedBytes)
    }

    /** Static storage: both counters start at zero. */
    constructor ()
      ensures allocationCount == 0 && allocatedBytes == 0
    {
      allocationCount := 0;
      allocatedBytes := 0;
    }

    /** What every benchmark body does before its measured loop. */
    method Reset()
      modifies this
      ensures allocationCount == 0 && allocatedBytes == 0
    {
      allocationCount := 0;
      allocatedBytes := 0;
    }

    /** `operator new(size)`. */
    method Allocate(size: nat)
      modifies this
      ensures allocationCount == old(allocationCount) + 1
      ensures allocatedBytes == old(allocatedBytes) + size
    {
      allocationCount := allocationCount + 1;
      allocatedBytes := allocatedBytes + size;
    }

    /** `operator new[](size)`: the same bookkeeping as the single-object form. */
    method AllocateArray(size: nat)
      modifies this
      ensures allocationCount == old(allocationCount) + 1
      ensures allocatedBytes == old(allocatedBytes) + size
    {
      allocationCount := allocationCount + 1;
      allocatedBytes := allocatedBytes + size;
    }

    /** `operator delete(p)`: frees the memory, touches no counter. */
    method Release()
      ensures unchanged(this)
    {
    }

    /** `operator delete[](p)`: frees the memory, touches no counter. */
    method ReleaseArray()
      ensures unchanged(this)
    {
    }

    /** Routes each call, in order, to the replaced function it names. */
    method Perform(calls: seq<HeapCall>)
      modifies this
      ensures Current() == Replay(old(Current()), calls)
    {
      var i := 0;
      while i < |calls|
        invariant i <= |calls|
        invariant Replay(Current(), calls[i..]) == Replay(old(Current()), calls)
      {
        assert calls[i..][1..] == calls[i + 1..];
        match calls[i] {
          case New(size) => Allocate(size);
          case NewArray(size) => AllocateArray(size);
          case Delete => Release();
          case DeleteArray => ReleaseArray();
        }
        i := i + 1;
      }
    }
  }
}
