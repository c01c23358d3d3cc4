# Collection-loop benchmark, modelled in Dafny

The repository is a Google Benchmark program (`collection_loop_benchmark.cc`).
It compares five ways to copy the even values of a `std::vector<int>` into a
fresh vector. It also replaces the global `operator new`/`new[]`/`delete`/`delete[]`
to count heap allocations and the bytes they request. This project models three
parts of that file and proves properties about them:

- **Input construction** (`FilterSpec.Ascending`, `Fixture.CollectionLoopFixture.SetUp`).
  The fixture's `SetUp` clears `values` and pushes `0, 1, …, N-1`.
- **Filter-copy, five ways** (`Traversals`). Each of the benchmark bodies `loop`,
  `enhancedLoop`, `iterator`, `iteratorConstEnd` and `forEach` is a method
  whose loop grows `result` one `push_back` at a time. Each is proved equal to
  one specification function, `FilterSpec.FilterEven`. That function is
  characterised in three ways: it splits over concatenation, it is an
  order-preserving subsequence of the input, and it keeps exactly the even
  occurrences. On the fixture's input its result is the closed form
  `0, 2, 4, …` with `(N + 1) / 2` elements.
- **Allocation accounting** (`Allocation`). A class holds the two global
  counters. `Allocate`/`AllocateArray` add one allocation and `size` bytes.
  `Release`/`ReleaseArray` leave both counters unchanged, and `Reset` zeroes them.
  A pure `Replay` over a sequence of heap calls specifies what any run of
  calls does to the counters.

`Fixture.CollectionLoopFixture.Run` puts these together as one benchmark body.
It zeroes the counters and then runs one filter-copy per timed iteration. It
returns every iteration's result and the counters read at the end. The heap
calls made during each iteration come from `std::vector` and the benchmark
library, so they are a parameter (`traffic`) rather than predicted.

The C++ test `value % 2 == 0` truncates and Dafny's `%` is Euclidean. For the
divisor 2, both remainders are zero exactly on even integers, so
`FilterSpec.IsEven` matches the source on every `int`, including negative ones.
A `std::vector` is a `seq<int>`. The benchmark bodies take `values` through a
const reference, so here it is a sequence parameter that no body can change.
`values.at(i)` is `Traversals.At`, which returns `OutOfRange` where the
source throws `std::out_of_range`. The `loop` body proves that branch cannot
be reached.

## Model

| member | source | states |
|---|---|---|
| `FilterSpec.IsEven` | collection_loop_benchmark.cc:88 | the evenness test, with Dafny's Euclidean `%`, holds exactly when C++'s truncating `value % 2` is zero, for every integer including negative ones (the same test stands at lines 122, 156, 192 and 225) |
| `FilterSpec.FilterEven` | collection_loop_benchmark.cc:86-91 | the filter-copy: its result is never longer than the input, and every element is even and taken from the input |
| `FilterSpec.FilterEvenAppend` | collection_loop_benchmark.cc:86-91 | filtering `s + t` gives the filter of `s` followed by the filter of `t`, so input order is kept |
| `FilterSpec.FilterEvenSnoc` | collection_loop_benchmark.cc:88-90 | one more input element is appended to the result if and only if it is even |
| `FilterSpec.FilterEvenIsSubsequence` | collection_loop_benchmark.cc:121-125 | the result is a subsequence of the input, in the input's relative order |
| `FilterSpec.FilterEvenCounts` | collection_loop_benchmark.cc:156-158 | every even value occurs in the result as often as in the input, and no odd value occurs |
| `FilterSpec.Ascending` | collection_loop_benchmark.cc:66-70 | the input pushed by SetUp for size N has length N and holds `i` at position `i`; N = 0 gives the empty sequence |
| `FilterSpec.FilterEvenAscending` | collection_loop_benchmark.cc:68-70 | on SetUp's input for size N the filter gives the even integers below N, `2k` at position `k`, `(N + 1) / 2` of them |
| `FilterSpec.RegisteredSizes` | collection_loop_benchmark.cc:104-109 | for the registered sizes 0, 1, 10, 100 and 1000 the results are `[]`, `[0]`, `[0,2,4,6,8]`, 50 values ending in 98, and 500 values ending in 998 |
| `Traversals.Loop` | collection_loop_benchmark.cc:81-91 | the index loop over the cached size builds exactly `FilterEven(values)`; `at(i)` is only called with `i < size`, so it never throws; `result` stays within the reserved capacity |
| `Traversals.EnhancedLoop` | collection_loop_benchmark.cc:117-125 | the range-for builds exactly `FilterEven(values)` |
| `Traversals.Iterator` | collection_loop_benchmark.cc:150-159 | the iterator loop compared against `end()` each step builds exactly `FilterEven(values)` and runs `|values|` steps |
| `Traversals.IteratorConstEnd` | collection_loop_benchmark.cc:185-195 | the iterator loop compared against a cached `end` builds exactly `FilterEven(values)` and runs `|values|` steps |
| `Traversals.End` | collection_loop_benchmark.cc:154 | `values.end()` is the position with every element before it and none at or after it (fetched each step here, once at line 189) |
| `Traversals.At` | collection_loop_benchmark.cc:87 | `values.at(i)` yields the element at `i` exactly when `i < values.size()`, and otherwise the `std::out_of_range` it throws |
| `Traversals.AppendIfEven` | collection_loop_benchmark.cc:224-228 | the appending closure extends the captured `result` by exactly the filter of the one value it is called with |
| `Traversals.StdForEach` | collection_loop_benchmark.cc:224 | `std::for_each` applies the closure to each element from first to last: its result is the left fold of the closure over the input |
| `Traversals.FoldAppendIfEven` | collection_loop_benchmark.cc:224-228 | folding the appending closure over an input appends exactly that input's filter to the captured result |
| `Traversals.ForEach` | collection_loop_benchmark.cc:220-228 | `for_each` with the appending closure, starting from an empty result, builds exactly `FilterEven(values)`; after any prefix of `values` the captured result is within the capacity reserved at line 222 |
| `Traversals.FilterBy` | collection_loop_benchmark.cc:80-95 | whichever of the five mechanisms times an iteration, the iteration builds `FilterEven(values)` |
| `Traversals.VariantsAgree` | collection_loop_benchmark.cc:154-190 | all five bodies build identical results for the same input, and the per-step and cached `end` loops run the same number of steps |
| `Allocation.Step` | collection_loop_benchmark.cc:41-55 | one `operator new`/`new[]` call adds its one allocation and its requested size to the counters; one `operator delete`/`delete[]` call adds nothing |
| `Allocation.Replay` | collection_loop_benchmark.cc:41-55 | after any sequence of allocation and deallocation calls, neither counter is lower than before |
| `Allocation.ReplayTotals` | collection_loop_benchmark.cc:41-53 | a run of heap calls adds exactly the number of allocating calls to the count and exactly their sizes to the bytes; deallocations add nothing |
| `Allocation.ReplayAppend` | collection_loop_benchmark.cc:38-55 | two batches of calls run one after the other leave the counters as their concatenation does |
| `Allocation.TotalsAppend` | collection_loop_benchmark.cc:41-53 | allocation count and requested bytes of a concatenation are the sums over its parts |
| `Allocation.UniformTraffic` | collection_loop_benchmark.cc:97-102 | if every timed iteration makes the same heap calls, the final counters are the iteration count times the per-iteration figures, so the per-iteration averages equal those figures |
| `Allocation.AllocationCounters.constructor` | collection_loop_benchmark.cc:38-39 | both counters start at zero |
| `Allocation.AllocationCounters.Reset` | collection_loop_benchmark.cc:77-78 | both counters are zero afterwards |
| `Allocation.AllocationCounters.Allocate` | collection_loop_benchmark.cc:41-45 | `operator new(size)` adds one to the count and `size` to the bytes |
| `Allocation.AllocationCounters.AllocateArray` | collection_loop_benchmark.cc:49-53 | `operator new[](size)` adds one to the count and `size` to the bytes |
| `Allocation.AllocationCounters.Release` | collection_loop_benchmark.cc:47 | `operator delete` leaves both counters unchanged |
| `Allocation.AllocationCounters.ReleaseArray` | collection_loop_benchmark.cc:55 | `operator delete[]` leaves both counters unchanged |
| `Allocation.AllocationCounters.Perform` | collection_loop_benchmark.cc:41-55 | running a sequence of heap calls through the four entry points leaves the counters at `Replay` of the calls |
| `Fixture.CollectionLoopFixture.constructor` | collection_loop_benchmark.cc:57-60 | a fresh fixture's `values` is empty; nothing is promised about `loopIterations`, which has no initializer |
| `Fixture.CollectionLoopFixture.SetUp` | collection_loop_benchmark.cc:63-71 | records the size argument and leaves `values` equal to `Ascending(N)` |
| `Fixture.CollectionLoopFixture.TearDown` | collection_loop_benchmark.cc:73 | `values` is empty afterwards |
| `Fixture.CollectionLoopFixture.Run` | collection_loop_benchmark.cc:76-102 | a benchmark body zeroes the counters, and every timed iteration builds `FilterEven(values)`, which after SetUp is the even integers below N; the counters read at the end hold exactly the allocations and bytes made between the reset and the read, with any calls made outside an iteration counted in the first or last iteration's `traffic`; the fixture is not modified |

## Left out

- The Google Benchmark library is not modelled: `benchmark::State` iteration, `state.range`, `DoNotOptimize`, `ClobberMemory`, registration and `BENCHMARK_MAIN`. It is external code. The number of timed iterations is the length of `Run`'s `traffic` parameter.
- Fixture.CollectionLoopFixture.Run: does not compute the reported `AllocCount`/`AllocBytes`, which are the totals divided by the iteration count as floating-point `benchmark::Counter` values (`kAvgIterations`). It returns the totals; `UniformTraffic` relates them to per-iteration figures.
- How many allocations `std::vector::reserve` and `push_back` make, and of what size, depends on the standard library. Inside a benchmark body it is taken as the given `traffic` and never predicted. So is any allocation by the benchmark library inside the timed region, which the process-wide counters also see. The `reserve` and `push_back` calls in `SetUp` also go through the counting `operator new`, but the model's `SetUp` leaves them out: every benchmark body zeroes the counters before it reads them (lines 77-78), so those calls never reach a reported value.
- `malloc` and `free`, and the pointer that `operator new` returns, are not modelled. Allocation failure, which the source does not handle, is not modelled either.
- The counters are `nat`: the 64-bit wrap-around of `unsigned long long` is not modelled.
- Elements are `int`: the 32-bit range of `int` and the `size_t` to `int` conversion in `SetUp`'s `push_back(i)` are not modelled. The registered sizes stay far below that range.
- `reserve` is not modelled as an operation, because it only sets capacity. Instead, the four explicit loops carry, as an invariant, the bound that `result` never outgrows the reserved `values.size()`. `ForEach` states the same bound for the closure's result after every prefix of `values`.
- Timing is not modelled: wall-clock and CPU time are what the benchmark measures.
