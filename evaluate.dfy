/**
 * Evaluation of trained reporters, elk/evaluation/evaluate.py: the default
 * output directory of `Eval.__post_init__`, the reporter dispatch of
 * `load_reporter`, and the bookkeeping of `apply_to_layer` / `eval_all`, which
 * fills the three row tables "eval", "lm_eval" and "lr_eval" and the list of
 * per-dataset layer outputs in nested loops over the validation datasets, the
 * prompt-ensembling strategies and the supervised probes.
 *
 * Tensors, metrics and probes are opaque; the reporter's forward pass, a
 * probe's forward pass and `evaluate_preds` are uninterpreted functions
 * (`Externals`). The directory listing of `reporters/` and the contents of
 * `lr_models/` are inputs (`Storage`).
 */
module Evaluation {
  import opened Wrappers
  import opened Seqs
  import opened Strs
  import Runs

  type Tensor(==)
  type Metrics(==)
  type Probe(==)

  /** One entry of the validation data: dataset name, hidden states, ground truth, lm predictions. */
  datatype ValEntry = ValEntry(name: string, h: Tensor, gt: Tensor, lmPreds: Option<Tensor>)

  /** A loaded reporter: a single reporter file, or a multi-reporter loaded from the directory. */
  datatype Reporter =
    | SingleReporter(file: Path)
    | MultiReporter(dir: Path, layer: int)

  /** What `eval_all` appends to `layer_outputs` for each dataset. */
  datatype LayerOutput = LayerOutput(gt: Tensor, credences: Tensor, dataset: string, layer: int)

  /** One row of a table: the meta columns, the strategy, the probe index (lr_eval only), the metrics. */
  datatype Row = Row(dataset: string, layer: int, promptEnsembling: string, inlpIter: Option<nat>,
                     metrics: Metrics)

  datatype Table = EvalTable | LmEvalTable | LrEvalTable {
    function Key(): string {
      match this
      case EvalTable => "eval"
      case LmEvalTable => "lm_eval"
      case LrEvalTable => "lr_eval"
    }
  }

  /** What `apply_to_layer` returns: the layer outputs and the non-empty tables by name. */
  datatype LayerApplied = LayerApplied(outputs: seq<LayerOutput>, tables: map<string, seq<Row>>)

  /** The contents of `lr_models/layer_{layer}.pt`: a list of probes, or one probe from older runs. */
  datatype LoadedProbes = ProbeList(probes: seq<Probe>) | LegacyProbe(probe: Probe)

  /** The uninterpreted computations `apply_to_layer` calls. */
  datatype Externals = Externals(
    runReporter: (Reporter, Tensor, bool) -> Tensor,   // reporter(val_h[, super_full=True])
    runProbe: (Probe, Tensor) -> Tensor,               // model(val_h)
    evaluatePreds: (Tensor, Tensor, string) -> Metrics // evaluate_preds(gt, preds, strategy).to_dict()
  )

  /** The files `apply_to_layer` reads for one layer. */
  datatype Storage = Storage(
    reporterEntries: seq<string>,          // names in `reporters/`, in directory order
    lrDirExists: bool,                     // `lr_models/` exists
    lrLayerFile: Option<LoadedProbes>      // `lr_models/layer_{layer}.pt`, when present
  )

  datatype EvalError =
    | NoDevice(cause: Runs.DeviceError)
    | EmptyReporterDir      // `next(iterdir())` raises StopIteration
    | ReporterFileMissing   // `torch.load` of a missing `layer_{layer}.pt`
    | ProbeFileMissing      // `open` of a missing `lr_models/layer_{layer}.pt`

  /** `f"layer_{layer}.pt"`. */
  function LayerFileName(layer: int): (name: string)
    ensures Suffix(name) == ".pt"
  {
    var name := "layer_" + IntString(layer) + ".pt";
    assert name[|name| - 3] == '.';
    assert RFind(name, '.') == |name| - 3;
    name
  }

  /**
   * `load_reporter`: the first entry of `reporters/` decides. Without the `.pt`
   * suffix the directory holds a multi-reporter; with it, the single reporter
   * `layer_{layer}.pt` is loaded, which fails when that file is absent. An
   * empty directory raises StopIteration.
   */
  function LoadReporter(experimentDir: Path, entries: seq<string>, layer: int): (r: Result<Reporter, EvalError>)
    ensures r == Failure(EmptyReporterDir) <==> entries == []
    ensures r.Success? && r.value.MultiReporter? <==> entries != [] && Suffix(entries[0]) != ".pt"
    ensures r.Success? && r.value.SingleReporter? <==>
              entries != [] && Suffix(entries[0]) == ".pt" && LayerFileName(layer) in entries
    ensures r.Success? && r.value.SingleReporter? ==>
              r.value.file == experimentDir + ["reporters", LayerFileName(layer)]
    ensures r.Success? && r.value.MultiReporter? ==>
              r.value == MultiReporter(experimentDir + ["reporters"], layer)
  {
    if entries == [] then Failure(EmptyReporterDir)
    else if Suffix(entries[0]) != ".pt" then Success(MultiReporter(experimentDir + ["reporters"], layer))
    else if LayerFileName(layer) in entries then
      Success(SingleReporter(experimentDir + ["reporters", LayerFileName(layer)]))
    else Failure(ReporterFileMissing)
  }

  /** A single probe from older runs is turned into a one-element list. */
  function NormaliseProbes(loaded: LoadedProbes): (probes: seq<Probe>)
    ensures loaded.LegacyProbe? ==> probes == [loaded.probe]
    ensures loaded.ProbeList? ==> probes == loaded.probes
  {
    match loaded
    case ProbeList(ps) => ps
    case LegacyProbe(p) => [p]
  }

  /** Everything the rows of one layer depend on besides the dataset and the strategy. */
  datatype Context = Context(layer: int, reporter: Reporter, probes: Option<seq<Probe>>, ext: Externals)

  /** The reporter's credences; a multi-reporter is called with `super_full=True`. */
  function Credences(c: Context, e: ValEntry): Tensor {
    c.ext.runReporter(c.reporter, e.h, c.reporter.MultiReporter?)
  }

  function ProbeRow(c: Context, e: ValEntry, strategy: string, probes: seq<Probe>, i: nat): Row
    requires i < |probes|
  {
    Row(e.name, c.layer, strategy, Some(i), c.ext.evaluatePreds(e.gt, c.ext.runProbe(probes[i], e.h), strategy))
  }

  /** The rows one dataset and one strategy add to table `t`. */
  function Cell(t: Table, c: Context, e: ValEntry, strategy: string): seq<Row> {
    match t
    case EvalTable => [Row(e.name, c.layer, strategy, None, c.ext.evaluatePreds(e.gt, Credences(c, e), strategy))]
    case LmEvalTable =>
      if e.lmPreds.Some? then [Row(e.name, c.layer, strategy, None, c.ext.evaluatePreds(e.gt, e.lmPreds.value, strategy))]
      else []
    case LrEvalTable =>
      if c.probes.Some? then
        var ps := c.probes.value;
        seq(|ps|, i requires 0 <= i < |ps| => ProbeRow(c, e, strategy, ps, i))
      else []
  }

  /** The rows one dataset adds to table `t`, strategy by strategy. */
  function DatasetRows(t: Table, c: Context, e: ValEntry, strategies: seq<string>): seq<Row> {
    Concat(seq(|strategies|, j requires 0 <= j < |strategies| => Cell(t, c, e, strategies[j])))
  }

  /** Table `t` as `eval_all` fills it: dataset by dataset. */
  function TableRows(t: Table, c: Context, val: seq<ValEntry>, strategies: seq<string>): seq<Row> {
    Concat(seq(|val|, i requires 0 <= i < |val| => DatasetRows(t, c, val[i], strategies)))
  }

  /** `layer_outputs`: one entry per validation dataset. */
  function Outputs(c: Context, val: seq<ValEntry>): seq<LayerOutput> {
    seq(|val|, i requires 0 <= i < |val| => LayerOutput(val[i].gt, Credences(c, val[i]), val[i].name, c.layer))
  }

  /** `{k: DataFrame(v) for k, v in row_bufs.items()}`: a `defaultdict` has a key only once appended to. */
  function Tables(evalRows: seq<Row>, lmRows: seq<Row>, lrRows: seq<Row>): (m: map<string, seq<Row>>)
    ensures EvalTable.Key() in m <==> evalRows != []
    ensures LmEvalTable.Key() in m <==> lmRows != []
    ensures LrEvalTable.Key() in m <==> lrRows != []
    ensures EvalTable.Key() in m ==> m[EvalTable.Key()] == evalRows
    ensures LmEvalTable.Key() in m ==> m[LmEvalTable.Key()] == lmRows
    ensures LrEvalTable.Key() in m ==> m[LrEvalTable.Key()] == lrRows
    ensures |m.Keys| <= 3
  {
    var m0: map<string, seq<Row>> := map[];
    var m1 := if evalRows != [] then m0[EvalTable.Key() := evalRows] else m0;
    var m2 := if lmRows != [] then m1[LmEvalTable.Key() := lmRows] else m1;
    var m3 := if lrRows != [] then m2[LrEvalTable.Key() := lrRows] else m2;
    assert m3.Keys <= {"eval", "lm_eval", "lr_eval"};
    assert |{"eval", "lm_eval", "lr_eval"}| == 3;
    LemmaSubsetSize(m3.Keys, {"eval", "lm_eval", "lr_eval"});
    m3
  }

  lemma LemmaSubsetSize<T>(a: set<T>, b: set<T>)
    requires a <= b
    ensures |a| <= |b|
  {
    assert b == a + (b - a);
  }

  /** What `apply_to_layer` computes, as one function of its inputs. */
  function ApplyToLayerSpec(layer: int, devices: seq<string>, worldSize: int, pid: nat,
                            experimentDir: Path, skipSupervised: bool, storage: Storage,
                            val: seq<ValEntry>, strategies: seq<string>, ext: Externals)
    : Result<LayerApplied, EvalError>
  {
    var device := Runs.GetDevice(devices, worldSize, pid);
    if device.Failure? then Failure(NoDevice(device.error))
    else
      var reporter := LoadReporter(experimentDir, storage.reporterEntries, layer);
      if reporter.Failure? then Failure(reporter.error)
      else
        var lrWanted := !skipSupervised && storage.lrDirExists;
        if lrWanted && storage.lrLayerFile.None? && val != [] && strategies != [] then
          Failure(ProbeFileMissing)
        else
          var probes := if lrWanted && storage.lrLayerFile.Some?
                        then Some(NormaliseProbes(storage.lrLayerFile.value)) else None;
          var c := Context(layer, reporter.value, probes, ext);
          Success(LayerApplied(Outputs(c, val),
                               Tables(TableRows(EvalTable, c, val, strategies),
                                      TableRows(LmEvalTable, c, val, strategies),
                                      TableRows(LrEvalTable, c, val, strategies))))
  }

  /** `Eval`: the evaluation run's settings. */
  class Eval {
    var outDir: Option<Path>
    const source: Path
    const datasets: seq<string>
    const skipSupervised: bool

    constructor (outDir: Option<Path>, source: Path, datasets: seq<string>, skipSupervised: bool)
      ensures this.outDir == outDir && this.source == source
      ensures this.datasets == datasets && this.skipSupervised == skipSupervised
    {
      this.outDir := outDir;
      this.source := source;
      this.datasets := datasets;
      this.skipSupervised := skipSupervised;
    }

    /**
     * `__post_init__`: with no output directory given, the run writes to
     * `<reporter root>/<source>/transfer/<datasets joined by "+">` (see
     * `DefaultOutDir`); a given one is kept.
     */
    method PostInit(reporterRoot: Path)
      modifies this`outDir
      ensures old(outDir).Some? ==> outDir == old(outDir)
      ensures old(outDir).None? ==> outDir == Some(DefaultOutDir(reporterRoot, source, datasets))
    {
      if outDir.None? {
        var transfer := reporterRoot + source + ["transfer"];
        outDir := Some(Child(transfer, Join('+', datasets)));
      }
    }

    /**
     * `apply_to_layer`: picks the device, loads the reporter from the
     * experiment directory `<reporter root>/<source>`, runs `eval_all` and
     * wraps the layer outputs and the non-empty tables.
     */
    method ApplyToLayer(layer: int, devices: seq<string>, worldSize: int, pid: nat,
                        reporterRoot: Path, storage: Storage, val: seq<ValEntry>,
                        strategies: seq<string>, ext: Externals)
      returns (r: Result<LayerApplied, EvalError>)
      ensures r == ApplyToLayerSpec(layer, devices, worldSize, pid, reporterRoot + source, skipSupervised,
                                    storage, val, strategies, ext)
    {
      var experimentDir := reporterRoot + source;
      var device := Runs.GetDevice(devices, worldSize, pid);
      if device.Failure? {
        return Failure(NoDevice(device.error));
      }
      var loaded := LoadReporter(experimentDir, storage.reporterEntries, layer);
      if loaded.Failure? {
        return Failure(loaded.error);
      }
      var lrWanted := !skipSupervised && storage.lrDirExists;
      var probes := if lrWanted && storage.lrLayerFile.Some?
                    then Some(NormaliseProbes(storage.lrLayerFile.value)) else None;
      var c := Context(layer, loaded.value, probes, ext);
      var missing, outputs, evalRows, lmRows, lrRows := EvalAll(c, val, strategies, lrWanted, storage.lrLayerFile);
      if missing {
        return Failure(ProbeFileMissing);
      }
      r := Success(LayerApplied(outputs, Tables(evalRows, lmRows, lrRows)));
    }
  }

  /** The probes `eval_all` evaluates: those stored for the layer, when supervised evaluation is wanted. */
  predicate ProbesLoaded(c: Context, lrWanted: bool, lrFile: Option<LoadedProbes>) {
    c.probes == if lrWanted && lrFile.Some? then Some(NormaliseProbes(lrFile.value)) else None
  }

  /**
   * `eval_all`: for each validation dataset, computes the credences, records
   * the layer output and adds that dataset's rows to the three tables. The
   * first dataset and strategy to need the missing probe file end the run.
   */
  method EvalAll(c: Context, val: seq<ValEntry>, strategies: seq<string>, lrWanted: bool,
                 lrFile: Option<LoadedProbes>)
    returns (missing: bool, outputs: seq<LayerOutput>, evalRows: seq<Row>, lmRows: seq<Row>, lrRows: seq<Row>)
    requires ProbesLoaded(c, lrWanted, lrFile)
    ensures missing <==> lrWanted && lrFile.None? && val != [] && strategies != []
    ensures !missing ==> outputs == Outputs(c, val)
    ensures !missing ==> evalRows == TableRows(EvalTable, c, val, strategies)
    ensures !missing ==> lmRows == TableRows(LmEvalTable, c, val, strategies)
    ensures !missing ==> lrRows == TableRows(LrEvalTable, c, val, strategies)
  {
    missing, outputs, evalRows, lmRows, lrRows := false, [], [], [], [];
    for d := 0 to |val|
      invariant outputs == Outputs(c, val[..d])
      invariant evalRows == TableRows(EvalTable, c, val[..d], strategies)
      invariant lmRows == TableRows(LmEvalTable, c, val[..d], strategies)
      invariant lrRows == TableRows(LrEvalTable, c, val[..d], strategies)
      invariant d > 0 ==> !(lrWanted && lrFile.None? && strategies != [])
    {
      var output, evalCells, lmCells, lrCells;
      missing, output, evalCells, lmCells, lrCells := EvalDataset(c, val[d], strategies, lrWanted, lrFile);
      if missing {
        return;
      }
      outputs := outputs + [output];
      evalRows := evalRows + evalCells;
      lmRows := lmRows + lmCells;
      lrRows := lrRows + lrCells;
      TableRowsStep(EvalTable, c, val, strategies, d);
      TableRowsStep(LmEvalTable, c, val, strategies, d);
      TableRowsStep(LrEvalTable, c, val, strategies, d);
      assert Outputs(c, val[..d + 1]) == Outputs(c, val[..d]) + [output];
    }
    assert val[..|val|] == val;
  }

  /** One pass of `eval_all`'s outer loop: one validation dataset, every strategy. */
  method EvalDataset(c: Context, e: ValEntry, strategies: seq<string>, lrWanted: bool,
                     lrFile: Option<LoadedProbes>)
    returns (missing: bool, output: LayerOutput, evalRows: seq<Row>, lmRows: seq<Row>, lrRows: seq<Row>)
    requires ProbesLoaded(c, lrWanted, lrFile)
    ensures missing <==> lrWanted && lrFile.None? && strategies != []
    ensures output == LayerOutput(e.gt, Credences(c, e), e.name, c.layer)
    ensures !missing ==> evalRows == DatasetRows(EvalTable, c, e, strategies)
    ensures !missing ==> lmRows == DatasetRows(LmEvalTable, c, e, strategies)
    ensures !missing ==> lrRows == DatasetRows(LrEvalTable, c, e, strategies)
  {
    var credences := c.ext.runReporter(c.reporter, e.h, c.reporter.MultiReporter?);
    output := LayerOutput(e.gt, credences, e.name, c.layer);
    missing, evalRows, lmRows, lrRows := false, [], [], [];
    for s := 0 to |strategies|
      invariant evalRows == DatasetRows(EvalTable, c, e, strategies[..s])
      invariant lmRows == DatasetRows(LmEvalTable, c, e, strategies[..s])
      invariant lrRows == DatasetRows(LrEvalTable, c, e, strategies[..s])
      invariant s > 0 ==> !(lrWanted && lrFile.None?)
    {
      var strategy := strategies[s];
      evalRows := evalRows + [Row(e.name, c.layer, strategy, None, c.ext.evaluatePreds(e.gt, credences, strategy))];
      if e.lmPreds.Some? {
        lmRows := lmRows + [Row(e.name, c.layer, strategy, None, c.ext.evaluatePreds(e.gt, e.lmPreds.value, strategy))];
      }
      if lrWanted {
        if lrFile.None? {
          missing := true;
          return;
        }
        var probeRows := ProbeRows(c, e, strategy, NormaliseProbes(lrFile.value));
        lrRows := lrRows + probeRows;
      }
      DatasetRowsStep(EvalTable, c, e, strategies, s);
      DatasetRowsStep(LmEvalTable, c, e, strategies, s);
      DatasetRowsStep(LrEvalTable, c, e, strategies, s);
    }
    assert strategies[..|strategies|] == strategies;
  }

  /** The innermost loop of `eval_all`: one "lr_eval" row per stored probe, numbered from 0. */
  method ProbeRows(c: Context, e: ValEntry, strategy: string, models: seq<Probe>) returns (rows: seq<Row>)
    requires c.probes == Some(models)
    ensures rows == Cell(LrEvalTable, c, e, strategy)
  {
    rows := [];
    for i := 0 to |models|
      invariant rows == seq(i, k requires 0 <= k < i => ProbeRow(c, e, strategy, models, k))
    {
      rows := rows + [Row(e.name, c.layer, strategy, Some(i),
                          c.ext.evaluatePreds(e.gt, c.ext.runProbe(models[i], e.h), strategy))];
    }
  }

  /**
   * The default output directory of `Eval.__post_init__`:
   * `<reporter root>/<source>/transfer/<datasets joined by "+">`, where the
   * last component is absent when the join is empty, as pathlib drops it.
   */
  function DefaultOutDir(reporterRoot: Path, source: Path, datasets: seq<string>): (p: Path)
    ensures |p| >= |reporterRoot| + |source| + 1
    ensures p[..|reporterRoot| + |source| + 1] == reporterRoot + source + ["transfer"]
    ensures datasets == [] || datasets == [""] ==> p == reporterRoot + source + ["transfer"]
    ensures datasets != [] && datasets != [""] ==>
      |p| == |reporterRoot| + |source| + 2 && p[|p| - 1] == Join('+', datasets)
  {
    JoinEmpty('+', datasets);
    Child(reporterRoot + source + ["transfer"], Join('+', datasets))
  }

  /**
   * The last component of the default output directory names the evaluated
   * datasets: splitting it on "+" gives them back when no name contains "+",
   * unless the join is empty, in which case the directory ends at "transfer".
   */
  lemma DefaultOutDirNamesDatasets(reporterRoot: Path, source: Path, datasets: seq<string>)
    requires forall i :: 0 <= i < |datasets| ==> '+' !in datasets[i]
    ensures var p := DefaultOutDir(reporterRoot, source, datasets);
      && (datasets == [] || datasets == [""] ==> p[|p| - 1] == "transfer")
      && (datasets != [] && datasets != [""] ==> Split(p[|p| - 1], '+') == datasets)
  {
    if datasets != [] {
      SplitJoin(datasets, '+');
    }
  }

  lemma DatasetRowsStep(t: Table, c: Context, e: ValEntry, strategies: seq<string>, s: nat)
    requires s < |strategies|
    ensures DatasetRows(t, c, e, strategies[..s + 1])
            == DatasetRows(t, c, e, strategies[..s]) + Cell(t, c, e, strategies[s])
  {
    var blocks := seq(s, j requires 0 <= j < s => Cell(t, c, e, strategies[..s][j]));
    assert seq(s + 1, j requires 0 <= j < s + 1 => Cell(t, c, e, strategies[..s + 1][j]))
           == blocks + [Cell(t, c, e, strategies[s])];
    ConcatSnoc(blocks, Cell(t, c, e, strategies[s]));
  }

  lemma TableRowsStep(t: Table, c: Context, val: seq<ValEntry>, strategies: seq<string>, d: nat)
    requires d < |val|
    ensures TableRows(t, c, val[..d + 1], strategies)
            == TableRows(t, c, val[..d], strategies) + DatasetRows(t, c, val[d], strategies)
  {
    assert val[..d + 1] == val[..d] + [val[d]];
    TableRowsSnoc(t, c, val[..d], val[d], strategies);
  }

  lemma TableRowsSnoc(t: Table, c: Context, val: seq<ValEntry>, e: ValEntry, strategies: seq<string>)
    ensures TableRows(t, c, val + [e], strategies) == TableRows(t, c, val, strategies) + DatasetRows(t, c, e, strategies)
  {
    var blocks := seq(|val|, i requires 0 <= i < |val| => DatasetRows(t, c, val[i], strategies));
    assert seq(|val| + 1, i requires 0 <= i < |val| + 1 => DatasetRows(t, c, (val + [e])[i], strategies))
           == blocks + [DatasetRows(t, c, e, strategies)];
    ConcatSnoc(blocks, DatasetRows(t, c, e, strategies));
  }

  /** A dataset adds `|strategies| * k` rows to a table whose cells all hold `k` rows. */
  lemma DatasetRowsUniform(t: Table, c: Context, e: ValEntry, strategies: seq<string>, k: nat)
    requires forall j :: 0 <= j < |strategies| ==> |Cell(t, c, e, strategies[j])| == k
    ensures |DatasetRows(t, c, e, strategies)| == |strategies| * k
  {
    ConcatUniformLength(seq(|strategies|, j requires 0 <= j < |strategies| => Cell(t, c, e, strategies[j])), k);
  }

  /**
   * The "eval" table has one row per dataset and strategy, dataset-major: row
   * `i * |strategies| + j` scores the reporter's credences on dataset `i`
   * under strategy `j`.
   */
  lemma EvalTableShape(c: Context, val: seq<ValEntry>, strategies: seq<string>, i: nat, j: nat)
    requires i < |val| && j < |strategies|
    ensures |TableRows(EvalTable, c, val, strategies)| == |val| * |strategies|
    ensures i * |strategies| + j < |TableRows(EvalTable, c, val, strategies)|
    ensures TableRows(EvalTable, c, val, strategies)[i * |strategies| + j]
            == Row(val[i].name, c.layer, strategies[j], None,
                   c.ext.evaluatePreds(val[i].gt, Credences(c, val[i]), strategies[j]))
  {
    var blocks := seq(|val|, b requires 0 <= b < |val| => DatasetRows(EvalTable, c, val[b], strategies));
    forall b | 0 <= b < |val| ensures |blocks[b]| == |strategies| {
      DatasetRowsUniform(EvalTable, c, val[b], strategies, 1);
    }
    ConcatUniformAt(blocks, |strategies|, i, j);
    var cells := seq(|strategies|, s requires 0 <= s < |strategies| => Cell(EvalTable, c, val[i], strategies[s]));
    ConcatUniformAt(cells, 1, j, 0);
  }

  /** `val` without the datasets that have no lm predictions, in order. */
  function WithLm(val: seq<ValEntry>): (r: seq<ValEntry>)
    ensures |r| <= |val|
    ensures forall i :: 0 <= i < |r| ==> r[i] in val && r[i].lmPreds.Some?
  {
    if val == [] then []
    else
      var e := val[|val| - 1];
      var init := WithLm(val[..|val| - 1]);
      if e.lmPreds.Some? then init + [e] else init
  }

  /** The "lm_eval" table is the table of the datasets with lm predictions; the others add nothing. */
  lemma {:induction false} LmTableFiltered(c: Context, val: seq<ValEntry>, strategies: seq<string>)
    ensures TableRows(LmEvalTable, c, val, strategies) == TableRows(LmEvalTable, c, WithLm(val), strategies)
  {
    if val != [] {
      var n := |val| - 1;
      var e := val[n];
      LmTableFiltered(c, val[..n], strategies);
      assert val == val[..n] + [e];
      TableRowsSnoc(LmEvalTable, c, val[..n], e, strategies);
      if e.lmPreds.Some? {
        TableRowsSnoc(LmEvalTable, c, WithLm(val[..n]), e, strategies);
      } else {
        DatasetRowsUniform(LmEvalTable, c, e, strategies, 0);
      }
    }
  }

  /**
   * The "lm_eval" table has one row per dataset with lm predictions and per
   * strategy: row `i * |strategies| + j` scores the lm predictions of the
   * `i`th such dataset under strategy `j`.
   */
  lemma LmTableShape(c: Context, val: seq<ValEntry>, strategies: seq<string>, i: nat, j: nat)
    requires i < |WithLm(val)| && j < |strategies|
    ensures |TableRows(LmEvalTable, c, val, strategies)| == |WithLm(val)| * |strategies|
    ensures i * |strategies| + j < |TableRows(LmEvalTable, c, val, strategies)|
    ensures var e := WithLm(val)[i];
      TableRows(LmEvalTable, c, val, strategies)[i * |strategies| + j]
      == Row(e.name, c.layer, strategies[j], None, c.ext.evaluatePreds(e.gt, e.lmPreds.value, strategies[j]))
  {
    LmTableFiltered(c, val, strategies);
    var lm := WithLm(val);
    var blocks := seq(|lm|, b requires 0 <= b < |lm| => DatasetRows(LmEvalTable, c, lm[b], strategies));
    forall b | 0 <= b < |lm| ensures |blocks[b]| == |strategies| {
      DatasetRowsUniform(LmEvalTable, c, lm[b], strategies, 1);
    }
    ConcatUniformAt(blocks, |strategies|, i, j);
    var cells := seq(|strategies|, s requires 0 <= s < |strategies| => Cell(LmEvalTable, c, lm[i], strategies[s]));
    ConcatUniformAt(cells, 1, j, 0);
  }

  /**
   * With probes loaded, the "lr_eval" table has one row per dataset, strategy
   * and probe: row `(i * |strategies| + j) * |probes| + k` scores probe `k` on
   * dataset `i` under strategy `j` and records `k` as its INLP iteration.
   */
  lemma LrTableShape(c: Context, val: seq<ValEntry>, strategies: seq<string>, i: nat, j: nat, k: nat)
    requires c.probes.Some?
    requires i < |val| && j < |strategies| && k < |c.probes.value|
    ensures var m := |c.probes.value|;
      |TableRows(LrEvalTable, c, val, strategies)| == |val| * (|strategies| * m)
    ensures RowMajor(RowMajor(i, j, |strategies|), k, |c.probes.value|) < |TableRows(LrEvalTable, c, val, strategies)|
    ensures TableRows(LrEvalTable, c, val, strategies)[RowMajor(RowMajor(i, j, |strategies|), k, |c.probes.value|)]
      == Row(val[i].name, c.layer, strategies[j], Some(k),
             c.ext.evaluatePreds(val[i].gt, c.ext.runProbe(c.probes.value[k], val[i].h), strategies[j]))
  {
    var m := |c.probes.value|;
    var s := |strategies|;
    var blocks := seq(|val|, b requires 0 <= b < |val| => DatasetRows(LrEvalTable, c, val[b], strategies));
    forall b | 0 <= b < |val| ensures |blocks[b]| == s * m {
      DatasetRowsUniform(LrEvalTable, c, val[b], strategies, m);
    }
    NestedIndex(i, j, k, |val|, s, m);
    ConcatUniformAt(blocks, s * m, i, j * m + k);
    var cells := seq(s, x requires 0 <= x < s => Cell(LrEvalTable, c, val[i], strategies[x]));
    ConcatUniformAt(cells, m, j, k);
  }

  /** Without probes the "lr_eval" table stays empty. */
  lemma LrTableEmpty(c: Context, val: seq<ValEntry>, strategies: seq<string>)
    requires c.probes.None?
    ensures TableRows(LrEvalTable, c, val, strategies) == []
  {
    var blocks := seq(|val|, b requires 0 <= b < |val| => DatasetRows(LrEvalTable, c, val[b], strategies));
    forall b | 0 <= b < |val| ensures |blocks[b]| == 0 {
      DatasetRowsUniform(LrEvalTable, c, val[b], strategies, 0);
    }
    ConcatUniformLength(blocks, 0);
  }

  /**
   * Every row of every table carries the layer, the name of one of the
   * validation datasets and one of the strategies; only "lr_eval" rows carry
   * an INLP iteration.
   */
  lemma RowProvenance(t: Table, c: Context, val: seq<ValEntry>, strategies: seq<string>, row: Row)
    requires row in TableRows(t, c, val, strategies)
    ensures row.layer == c.layer
    ensures exists i :: 0 <= i < |val| && row.dataset == val[i].name
    ensures row.promptEnsembling in strategies
    ensures row.inlpIter.Some? <==> t == LrEvalTable
  {
    var blocks := seq(|val|, b requires 0 <= b < |val| => DatasetRows(t, c, val[b], strategies));
    ConcatMember(blocks, row);
    var i :| 0 <= i < |val| && row in blocks[i];
    var cells := seq(|strategies|, x requires 0 <= x < |strategies| => Cell(t, c, val[i], strategies[x]));
    ConcatMember(cells, row);
    var j :| 0 <= j < |strategies| && row in cells[j];
    if t == LrEvalTable {
      var ps := c.probes.value;
      var k :| 0 <= k < |ps| && row == cells[j][k];
    }
  }

  /**
   * What `apply_to_layer` returns: it fails exactly when no device can be
   * chosen, the reporter cannot be loaded, or supervised evaluation is wanted
   * and the probe file is missing while there is something to evaluate. On
   * success there is one layer output per dataset, the "eval" table is present
   * exactly when there are datasets and strategies, and an "lr_eval" table only
   * when supervised evaluation is on and `lr_models/` exists.
   */
  lemma ApplyToLayerOutcome(layer: int, devices: seq<string>, worldSize: int, pid: nat,
                            experimentDir: Path, skipSupervised: bool, storage: Storage,
                            val: seq<ValEntry>, strategies: seq<string>, ext: Externals)
    ensures var r := ApplyToLayerSpec(layer, devices, worldSize, pid, experimentDir, skipSupervised,
                                      storage, val, strategies, ext);
      var lrWanted := !skipSupervised && storage.lrDirExists;
      && (r.Failure? <==>
            || Runs.GetDevice(devices, worldSize, pid).Failure?
            || LoadReporter(experimentDir, storage.reporterEntries, layer).Failure?
            || (lrWanted && storage.lrLayerFile.None? && val != [] && strategies != []))
      && (r.Success? ==> |r.value.outputs| == |val|)
      && (r.Success? ==> (EvalTable.Key() in r.value.tables <==> val != [] && strategies != []))
      && (r.Success? && LrEvalTable.Key() in r.value.tables ==> lrWanted)
  {
    var r := ApplyToLayerSpec(layer, devices, worldSize, pid, experimentDir, skipSupervised,
                              storage, val, strategies, ext);
    if r.Success? {
      var lrWanted := !skipSupervised && storage.lrDirExists;
      var probes := if lrWanted && storage.lrLayerFile.Some?
                    then Some(NormaliseProbes(storage.lrLayerFile.value)) else None;
      var c := Context(layer, LoadReporter(experimentDir, storage.reporterEntries, layer).value, probes, ext);
      if val != [] && strategies != [] {
        EvalTableShape(c, val, strategies, 0, 0);
      } else {
        var blocks := seq(|val|, b requires 0 <= b < |val| => DatasetRows(EvalTable, c, val[b], strategies));
        forall b | 0 <= b < |val| ensures |blocks[b]| == 0 {
          DatasetRowsUniform(EvalTable, c, val[b], strategies, 1);
        }
        ConcatUniformLength(blocks, 0);
      }
      if !lrWanted {
        LrTableEmpty(c, val, strategies);
      }
    }
  }
}
