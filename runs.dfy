/**
 * The run orchestrator of elk/run.py: the result writer `write_func_to_file`,
 * which writes a CSV header, buffers every per-layer result and flushes the
 * buffer in sorted order on every exit path; `apply_to_layers`, which feeds
 * the per-layer results of a sequential map or of a worker pool into the
 * writer; and the device choice `get_device`.
 *
 * The comparison of results (`StatResult`'s ordering) is a parameter `le`,
 * assumed a total order; the per-layer function is a parameter that either
 * returns a result or raises (`fails`). The file system is a trace of events.
 */
module Runs {
  import opened Wrappers
  import opened Seqs
  import opened Strs

  /** One observable effect of a run, in the order it happens. */
  datatype Event =
    | Opened(path: Path)                   // `open(path, "w")`: truncates the file
    | RowWritten(path: Path, cells: seq<string>)   // `writer.writerow(cells)`
    | DebugLogSaved(outDir: Path)                 // `save_debug_log(dataset, out_dir)`

  /** The file system as the run sees it: the events it has caused so far. */
  class Disk {
    var events: seq<Event>

    constructor ()
      ensures events == []
    {
      events := [];
    }

    method Open(path: Path)
      modifies this
      ensures events == old(events) + [Opened(path)]
    {
      events := events + [Opened(path)];
    }

    method WriteRow(path: Path, cells: seq<string>)
      modifies this
      ensures events == old(events) + [RowWritten(path, cells)]
    {
      events := events + [RowWritten(path, cells)];
    }

    method SaveDebugLog(outDir: Path)
      modifies this
      ensures events == old(events) + [DebugLogSaved(outDir)]
    {
      events := events + [DebugLogSaved(outDir)];
    }
  }

  /** What an iterator of results does: yields `items`, then stops or raises. */
  datatype Stream<R> = Stream(items: seq<R>, raises: bool)

  /** The lines of the CSV file: the header, then one line per result in sorted order. */
  function CsvLines<R(==)>(columns: seq<string>, toCsv: R -> seq<string>, le: (R, R) -> bool,
                           results: seq<R>): (lines: seq<seq<string>>)
    ensures |lines| == 1 + |results|
    ensures lines[0] == columns
  {
    [columns] + Map(toCsv, Sort(le, results))
  }

  /** The write events that put `lines` into the file at `path`. */
  function RowEvents(path: Path, lines: seq<seq<string>>): (events: seq<Event>)
    ensures |events| == |lines|
    ensures forall i :: 0 <= i < |lines| ==> events[i] == RowWritten(path, lines[i])
  {
    if lines == [] then [] else [RowWritten(path, lines[0])] + RowEvents(path, lines[1..])
  }

  lemma {:induction false} RowEventsAppend(path: Path, a: seq<seq<string>>, b: seq<seq<string>>)
    ensures RowEvents(path, a + b) == RowEvents(path, a) + RowEvents(path, b)
  {
    if a != [] {
      assert (a + b)[1..] == a[1..] + b;
      RowEventsAppend(path, a[1..], b);
    }
  }

  lemma FlushStep<R>(path: Path, toCsv: R -> seq<string>, sorted: seq<R>, j: nat)
    requires j < |sorted|
    ensures RowEvents(path, Map(toCsv, sorted[..j + 1]))
            == RowEvents(path, Map(toCsv, sorted[..j])) + [RowWritten(path, toCsv(sorted[j]))]
  {
    assert sorted[..j + 1] == sorted[..j] + [sorted[j]];
    MapAppend(toCsv, sorted[..j], [sorted[j]]);
    RowEventsAppend(path, Map(toCsv, sorted[..j]), [toCsv(sorted[j])]);
  }

  /** The events of the method below are those that write `CsvLines` to the file. */
  lemma CsvLinesEvents<R>(path: Path, columns: seq<string>, toCsv: R -> seq<string>,
                              le: (R, R) -> bool, items: seq<R>)
    ensures RowEvents(path, CsvLines(columns, toCsv, le, items))
            == [RowWritten(path, columns)] + RowEvents(path, Map(toCsv, Sort(le, items)))
  {
    RowEventsAppend(path, [columns], Map(toCsv, Sort(le, items)));
  }

  /**
   * After the header come the results, each rendered by `toCsv`, in an order
   * that is sorted and is a permutation of the results received: none is lost
   * and none is repeated.
   */
  lemma CsvLinesSortedPermutation<R(!new)>(columns: seq<string>, toCsv: R -> seq<string>,
                                          le: (R, R) -> bool, results: seq<R>)
    requires TotalOrder(le)
    ensures var lines := CsvLines(columns, toCsv, le, results);
      && lines[0] == columns
      && |lines| == 1 + |results|
      && exists sorted: seq<R> ::
           && SortedBy(le, sorted)
           && multiset(sorted) == multiset(results)
           && lines[1..] == Map(toCsv, sorted)
  {
    SortSorted(le, results);
    assert CsvLines(columns, toCsv, le, results)[1..] == Map(toCsv, Sort(le, results));
  }

  /** The file's contents do not depend on the order in which the results arrived. */
  lemma CsvLinesArrivalOrderIrrelevant<R(!new)>(columns: seq<string>, toCsv: R -> seq<string>,
                                               le: (R, R) -> bool, a: seq<R>, b: seq<R>)
    requires TotalOrder(le)
    requires multiset(a) == multiset(b)
    ensures CsvLines(columns, toCsv, le, a) == CsvLines(columns, toCsv, le, b)
  {
    SortPermutationInvariant(le, a, b);
  }

  /**
   * `write_func_to_file`: writes the header, buffers every result the stream
   * yields, and in the `finally` block writes the buffered results in sorted
   * order and then, when `debug` is set, saves the debug log. The return value
   * says whether the stream's exception propagates to the caller.
   */
  method WriteFuncToFile<R(==)>(stream: Stream<R>, columns: seq<string>, toCsv: R -> seq<string>,
                                le: (R, R) -> bool, disk: Disk, path: Path, debug: bool,
                                outDir: Path)
    returns (raised: bool)
    modifies disk
    ensures raised == stream.raises
    ensures disk.events == old(disk.events)
                           + [RowWritten(path, columns)]
                           + RowEvents(path, Map(toCsv, Sort(le, stream.items)))
                           + (if debug then [DebugLogSaved(outDir)] else [])
  {
    var rowBuf: seq<R> := [];
    disk.WriteRow(path, columns);
    var i := 0;
    while i < |stream.items|
      invariant 0 <= i <= |stream.items|
      invariant rowBuf == stream.items[..i]
      invariant disk.events == old(disk.events) + [RowWritten(path, columns)]
    {
      rowBuf := rowBuf + [stream.items[i]];
      i := i + 1;
    }
    assert rowBuf == stream.items;
    // The `finally` block: runs whether or not the stream raised.
    Flush(disk, path, toCsv, Sort(le, rowBuf));
    if debug {
      disk.SaveDebugLog(outDir);
    }
    raised := stream.raises;
  }

  /** Writes the buffered results, already sorted, one line each. */
  method Flush<R>(disk: Disk, path: Path, toCsv: R -> seq<string>, sorted: seq<R>)
    modifies disk
    ensures disk.events == old(disk.events) + RowEvents(path, Map(toCsv, sorted))
  {
    for j := 0 to |sorted|
      invariant disk.events == old(disk.events) + RowEvents(path, Map(toCsv, sorted[..j]))
    {
      FlushStep(path, toCsv, sorted, j);
      disk.WriteRow(path, toCsv(sorted[j]));
    }
    assert sorted[..|sorted|] == sorted;
  }

  /** Index of the first call whose layer raises, or the number of calls if none does. */
  function FirstFailure(fails: int -> bool, calls: seq<int>): (k: nat)
    ensures k <= |calls|
    ensures forall i :: 0 <= i < k ==> !fails(calls[i])
    ensures k < |calls| ==> fails(calls[k])
  {
    if calls == [] || fails(calls[0]) then 0 else 1 + FirstFailure(fails, calls[1..])
  }

  /**
   * The stream the writer consumes when the per-layer results come back for
   * the layers `calls`, in that order: the results up to the first layer that
   * raised, then that layer's exception.
   */
  function LayerStream<R>(func: int -> R, fails: int -> bool, calls: seq<int>): (st: Stream<R>)
    ensures st.raises <==> exists i :: 0 <= i < |calls| && fails(calls[i])
    ensures !st.raises ==> st.items == Map(func, calls)
    ensures |st.items| <= |calls|
    ensures forall i :: 0 <= i < |st.items| ==> !fails(calls[i]) && st.items[i] == func(calls[i])
    ensures st.raises ==> |st.items| < |calls| && fails(calls[|st.items|])
  {
    var k := FirstFailure(fails, calls);
    assert calls[..|calls|] == calls;
    Stream(Map(func, calls[..k]), k < |calls|)
  }

  /**
   * The order in which per-layer results reach the writer: the layers in order
   * for the plain `map`, the pool's completion order for `imap_unordered`.
   */
  function Arrival(layers: seq<int>, numDevices: int, completion: seq<int>): (calls: seq<int>)
    requires numDevices > 1 ==> multiset(completion) == multiset(layers)
    ensures multiset(calls) == multiset(layers)
    ensures numDevices <= 1 ==> calls == layers
  {
    if numDevices > 1 then completion else layers
  }

  datatype Outcome =
    | Finished
    | LayerRaised        // a per-layer call raised; the exception propagates
    | PoolRefused        // `mp.Pool(n)` raises `ValueError` for n < 1

  /** The CSV written by `apply_to_layers`, which it names `eval.csv` inside the run's output directory. */
  function EvalCsvPath(outDir: Path): Path {
    outDir + ["eval.csv"]
  }

  /**
   * `apply_to_layers`: opens a pool of `numDevices` workers and the CSV file,
   * maps `func` over the layers (sequentially when there is one device, in the
   * pool's completion order `completion` otherwise) and hands the results to
   * the writer.
   */
  method ApplyToLayers<R(==)>(func: int -> R, fails: int -> bool, layers: seq<int>,
                              numDevices: int, completion: seq<int>,
                              toCsv: R -> seq<string>, le: (R, R) -> bool, columns: seq<string>,
                              outDir: Path, debug: bool, disk: Disk)
    returns (outcome: Outcome)
    requires numDevices > 1 ==> multiset(completion) == multiset(layers)
    modifies disk
    ensures numDevices < 1 ==> outcome == PoolRefused && disk.events == old(disk.events)
    ensures numDevices >= 1 ==>
      var st := LayerStream(func, fails, Arrival(layers, numDevices, completion));
      && outcome == (if st.raises then LayerRaised else Finished)
      && disk.events == old(disk.events) + [Opened(EvalCsvPath(outDir))]
                        + [RowWritten(EvalCsvPath(outDir), columns)]
                        + RowEvents(EvalCsvPath(outDir), Map(toCsv, Sort(le, st.items)))
                        + (if debug then [DebugLogSaved(outDir)] else [])
  {
    if numDevices < 1 {
      return PoolRefused;
    }
    var path := EvalCsvPath(outDir);
    disk.Open(path);
    var calls := Arrival(layers, numDevices, completion);
    var stream := LayerStream(func, fails, calls);
    var raised := WriteFuncToFile(stream, columns, toCsv, le, disk, path, debug, outDir);
    outcome := if raised then LayerRaised else Finished;
  }

  /**
   * When no layer raises, the sequential path and the pool path write the same
   * file, whatever the pool's completion order: one result per layer, sorted.
   */
  lemma ParallelAgreesWithSequential<R(!new)>(func: int -> R, fails: int -> bool, layers: seq<int>,
                                             numDevices: int, completion: seq<int>,
                                             toCsv: R -> seq<string>, le: (R, R) -> bool,
                                             columns: seq<string>)
    requires TotalOrder(le)
    requires numDevices > 1 ==> multiset(completion) == multiset(layers)
    requires forall i :: 0 <= i < |layers| ==> !fails(layers[i])
    ensures var st := LayerStream(func, fails, Arrival(layers, numDevices, completion));
      && !st.raises
      && multiset(st.items) == multiset(Map(func, layers))
      && CsvLines(columns, toCsv, le, st.items) == CsvLines(columns, toCsv, le, Map(func, layers))
  {
    var calls := Arrival(layers, numDevices, completion);
    forall i | 0 <= i < |calls| ensures !fails(calls[i]) {
      assert calls[i] in multiset(layers);
    }
    var st := LayerStream(func, fails, calls);
    MapPermutation(func, calls, layers);
    CsvLinesArrivalOrderIrrelevant(columns, toCsv, le, st.items, Map(func, layers));
  }

  /** Python's `a % b`: the remainder takes the sign of the divisor. */
  function PyMod(a: int, b: int): (r: int)
    requires b != 0
    ensures b > 0 ==> 0 <= r < b
    ensures b < 0 ==> b < r <= 0
    ensures b > 0 ==> r == a % b
  {
    var e := a % b;
    if b < 0 && e != 0 then e + b else e
  }

  /** Python's `s[i]`: a negative index counts from the end; out of range raises. */
  function PyIndex<T>(s: seq<T>, i: int): (r: Option<T>)
    ensures r.Some? <==> -|s| <= i < |s|
    ensures 0 <= i < |s| ==> r == Some(s[i])
  {
    if 0 <= i < |s| then Some(s[i])
    else if -|s| <= i < 0 then Some(s[|s| + i])
    else None
  }

  datatype DeviceError = ZeroDivision | IndexOutOfRange

  /** `get_device`: the device at index `pid % world_size`, with `pid` the worker's process id. */
  function GetDevice(devices: seq<string>, worldSize: int, pid: nat): (r: Result<string, DeviceError>)
    ensures r.Success? ==> r.value in devices
    ensures r == Failure(ZeroDivision) <==> worldSize == 0
  {
    if worldSize == 0 then Failure(ZeroDivision)
    else match PyIndex(devices, PyMod(pid, worldSize))
      case Some(d) => Success(d)
      case None => Failure(IndexOutOfRange)
  }

  /**
   * With a positive world size and at least that many devices, the device is
   * the one at the rank `pid` modulo `world_size`, a rank in [0, world_size);
   * with fewer devices, exactly the ranks past the end of the list raise.
   */
  lemma GetDeviceRank(devices: seq<string>, worldSize: int, pid: nat)
    requires worldSize > 0
    ensures 0 <= pid % worldSize < worldSize
    ensures pid % worldSize < |devices| ==> GetDevice(devices, worldSize, pid) == Success(devices[pid % worldSize])
    ensures pid % worldSize >= |devices| ==> GetDevice(devices, worldSize, pid) == Failure(IndexOutOfRange)
    ensures worldSize <= |devices| ==> GetDevice(devices, worldSize, pid).Success?
  {
  }

  /** Two workers whose process ids agree modulo the world size get the same device. */
  lemma GetDeviceCongruent(devices: seq<string>, worldSize: int, p: nat, q: nat)
    requires worldSize > 0
    requires p % worldSize == q % worldSize
    ensures GetDevice(devices, worldSize, p) == GetDevice(devices, worldSize, q)
  {
  }
}
