/**
 * Sweeps over models and datasets, elk/training/sweep.py: the validation and
 * normalisation `Sweep.__post_init__` applies to its dataset list, the
 * `name:config` parsing of the hub checks, and the plan `execute` carries out
 * — one training run per model, dataset string and pair of hyperparameter
 * weights, each followed by transfer evaluation on the datasets it was not
 * trained on.
 *
 * The hub lookups, the training and evaluation runs, the `.2f` rendering of a
 * weight and the weight grid are parameters; what `execute` does is recorded
 * as a sequence of actions.
 */
module Sweeps {
  import opened Wrappers
  import opened Seqs
  import opened Strs

  // ---------------------------------------------------------------- __post_init__

  datatype ConfigError =
    | NoDatasets        // "No datasets specified"
    | NoModels          // "No models specified"
    | HparamNeedsEigen  // "Can only use hparam_step with EigenFitterConfig"
    | HparamTooLarge    // "hparam_step must be in [0, 1]"

  /** The checks of `__post_init__`, in the order it makes them. */
  function ConfigCheck(datasets: seq<string>, models: seq<string>, hparamStep: real, netIsEigen: bool)
    : (r: Option<ConfigError>)
    ensures r.None? <==> datasets != [] && models != [] && hparamStep <= 1.0 && (hparamStep > 0.0 ==> netIsEigen)
    ensures datasets == [] ==> r == Some(NoDatasets)
  {
    if datasets == [] then Some(NoDatasets)
    else if models == [] then Some(NoModels)
    else if hparamStep > 0.0 && !netIsEigen then Some(HparamNeedsEigen)
    else if hparamStep > 1.0 then Some(HparamTooLarge)
    else None
  }

  /** The index of the first `x` in `s`. */
  function IndexOf<T(==)>(s: seq<T>, x: T): (i: nat)
    requires x in s
    ensures i < |s| && s[i] == x && x !in s[..i]
  {
    if s[0] == x then 0 else 1 + IndexOf(s[1..], x)
  }

  /** `list.remove(x)`: drops the first occurrence of `x`. */
  function RemoveFirst<T(==)>(s: seq<T>, x: T): (r: seq<T>)
    requires x in s
    ensures multiset(r) == multiset(s) - multiset{x}
    ensures exists i :: 0 <= i < |s| && s[i] == x && x !in s[..i] && r == s[..i] + s[i + 1..]
  {
    var i := IndexOf(s, x);
    assert s == s[..i] + [x] + s[i + 1..];
    s[..i] + s[i + 1..]
  }

  /** The magic dataset name that stands for the datasets of Burns et al. */
  const Burns := "burns"

  /** `Sweep.__post_init__`: one "burns" is replaced by the datasets it stands for, appended at the end. */
  function ExpandBurns(datasets: seq<string>, burnsDatasets: seq<string>): seq<string> {
    if Burns in datasets then RemoveFirst(datasets, Burns) + burnsDatasets else datasets
  }

  /** The dataset list `__post_init__` leaves behind when its checks pass. */
  function NormalisedDatasets(datasets: seq<string>, addPooled: bool, burnsDatasets: seq<string>): seq<string> {
    var unique := SortedSet(LexLe, ExpandBurns(datasets, burnsDatasets));
    if addPooled then unique + [Join('+', unique)] else unique
  }

  // ---------------------------------------------------------------- execute

  /** `dataset_name.partition(":")`, with an empty config name read as `None`. */
  function DatasetRef(datasetName: string): (r: (string, Option<string>))
    ensures ':' !in r.0
    ensures r.1.Some? ==> r.1.value != [] && datasetName == r.0 + [':'] + r.1.value
    ensures r.1.None? ==> datasetName == r.0 || datasetName == r.0 + [':']
    ensures ':' !in datasetName ==> r == (datasetName, None)
  {
    var (ds, config) := Partition(datasetName, ':');
    (ds, if config == [] then None else Some(config))
  }

  /** The components of a dataset string: split on "+" and stripped. */
  function TrainDatasets(datasetStr: string): seq<string> {
    Map(Strip, Split(datasetStr, '+'))
  }

  /** Every component of every dataset string, in order, with repetitions. */
  function Components(datasets: seq<string>): seq<string> {
    Concat(Map(TrainDatasets, datasets))
  }

  /** `eval_datasets`: the sorted set of all components. */
  function EvalDatasets(datasets: seq<string>): seq<string> {
    SortedSet(LexLe, Components(datasets))
  }

  function SomeWeight(w: real): Option<real> { Some(w) }

  /** The weight list: the given grid when `step > 0`, otherwise one `None`. */
  function Weights(step: real, grid: seq<real>): (ws: seq<Option<real>>)
    ensures step <= 0.0 ==> ws == [None]
    ensures step > 0.0 ==> |ws| == |grid| && forall i :: 0 <= i < |ws| ==> ws[i] == Some(grid[i])
  {
    if step > 0.0 then Map(SomeWeight, grid) else [None]
  }

  /** `sweeps_dir() / name`, or a fresh memorably named directory when there is no name. */
  function SweepDir(name: Option<string>, sweepsRoot: Path, memorableDir: Path): Path {
    if name.Some? && name.value != "" then sweepsRoot + [name.value] else memorableDir
  }

  /** One training run: the `Elicit` configuration `execute` builds. */
  datatype TrainRun = TrainRun(model: string, datasetStr: string, trainDatasets: seq<string>,
                               outDir: Path, hparams: Option<(real, real)>)

  /** The sweep directory and the `.2f` rendering of a weight. */
  datatype Layout = Layout(sweepDir: Path, format: real -> string)

  /**
   * The run for one model, dataset string and weight pair: it trains on the
   * components of the dataset string and writes under
   * `sweep_dir/model/dataset_str`, with `var_weight=…` and
   * `neg_cov_weight=…` segments below that when both weights are given.
   */
  function MakeRun(layout: Layout, model: string, datasetStr: string, varWeight: Option<real>,
                   negCovWeight: Option<real>): TrainRun
  {
    var base := layout.sweepDir + [model, datasetStr];
    if varWeight.Some? && negCovWeight.Some? then
      TrainRun(model, datasetStr, TrainDatasets(datasetStr),
               base + ["var_weight=" + layout.format(varWeight.value),
                       "neg_cov_weight=" + layout.format(negCovWeight.value)],
               Some((varWeight.value, negCovWeight.value)))
    else
      TrainRun(model, datasetStr, TrainDatasets(datasetStr), base, None)
  }

  /**
   * A run trains on the components of its dataset string, carries both weights
   * or none, and writes under `sweep_dir/model/dataset_str`, two segments
   * deeper when it carries weights, those segments naming the weights.
   */
  lemma RunOutDir(layout: Layout, model: string, datasetStr: string, varWeight: Option<real>,
                  negCovWeight: Option<real>)
    ensures var r := MakeRun(layout, model, datasetStr, varWeight, negCovWeight);
      && r.model == model && r.datasetStr == datasetStr && r.trainDatasets == TrainDatasets(datasetStr)
      && (r.hparams.Some? <==> varWeight.Some? && negCovWeight.Some?)
      && |r.outDir| == |layout.sweepDir| + 2 + (if r.hparams.Some? then 2 else 0)
      && r.outDir[..|layout.sweepDir| + 2] == layout.sweepDir + [model, datasetStr]
      && (r.hparams.Some? ==> r.hparams.value == (varWeight.value, negCovWeight.value))
      && (r.hparams.Some? ==>
            r.outDir[|r.outDir| - 2..] == ["var_weight=" + layout.format(varWeight.value),
                                           "neg_cov_weight=" + layout.format(negCovWeight.value)])
  {
  }

  /** The runs of the innermost loop: one per negative-covariance weight. */
  function WeightRuns(layout: Layout, model: string, datasetStr: string, varWeight: Option<real>,
                      weights: seq<Option<real>>): seq<TrainRun> {
    seq(|weights|, b requires 0 <= b < |weights| => MakeRun(layout, model, datasetStr, varWeight, weights[b]))
  }

  /** The runs for one model and dataset string: every pair of weights. */
  function DatasetRuns(layout: Layout, model: string, datasetStr: string, varWeights: seq<Option<real>>,
                       weights: seq<Option<real>>): seq<TrainRun> {
    Concat(seq(|varWeights|, a requires 0 <= a < |varWeights| =>
      WeightRuns(layout, model, datasetStr, varWeights[a], weights)))
  }

  /** The runs for one model: every dataset string in turn. */
  function ModelRuns(layout: Layout, model: string, datasets: seq<string>, weights: seq<Option<real>>)
    : seq<TrainRun> {
    Concat(seq(|datasets|, j requires 0 <= j < |datasets| => DatasetRuns(layout, model, datasets[j], weights, weights)))
  }

  /** Every run of the sweep, model by model. */
  function SweepRuns(layout: Layout, models: seq<string>, datasets: seq<string>, weights: seq<Option<real>>)
    : seq<TrainRun> {
    Concat(seq(|models|, i requires 0 <= i < |models| => ModelRuns(layout, models[i], datasets, weights)))
  }

  /** How `elicit.execute()` ends: only a `LinAlgError` is caught. */
  datatype TrainOutcome = Trained | LinAlgFailed | Crashed

  datatype Action =
    | Train(run: TrainRun)                         // `elicit.execute()`
    | TransferEval(run: TrainRun, dataset: string) // `elicit.make_eval(model, dataset).execute()`
    | Visualize(sweepDir: Path)                    // `visualize_sweep(sweep_dir)`

  /** What the runs depend on besides their configuration. */
  datatype Env = Env(outcome: TrainRun -> TrainOutcome, skipTransferEval: bool, evalDatasets: seq<string>)

  /** The transfer evaluations after a run, in the order of `evalDatasets`, skipping its own datasets. */
  function TransferEvals(r: TrainRun, evalDatasets: seq<string>): seq<Action> {
    if evalDatasets == [] then []
    else
      var n := |evalDatasets| - 1;
      TransferEvals(r, evalDatasets[..n])
        + (if evalDatasets[n] in r.trainDatasets then [] else [TransferEval(r, evalDatasets[n])])
  }

  /** What a sequence of runs does, and whether a run raised something other than `LinAlgError`. */
  datatype Execution = Execution(actions: seq<Action>, crashed: bool)

  /**
   * The runs one after another: each is trained; a crash ends everything; a
   * `LinAlgError` skips the transfer evaluation; otherwise the run is
   * evaluated on the other datasets unless transfer evaluation is off.
   */
  function Trace(env: Env, runs: seq<TrainRun>): Execution {
    if runs == [] then Execution([], false)
    else Step(env, Trace(env, runs[..|runs| - 1]), runs[|runs| - 1])
  }

  /** One run after `before`: nothing after a crash, otherwise the run is trained and what follows it happens. */
  function Step(env: Env, before: Execution, r: TrainRun): Execution {
    if before.crashed then before
    else if env.outcome(r) == Crashed then Execution(before.actions + [Train(r)], true)
    else Execution(before.actions + [Train(r)] + Aftermath(env, r), false)
  }

  /** What follows a training run that did not crash: nothing after a `LinAlgError` or with transfer evaluation off. */
  function Aftermath(env: Env, r: TrainRun): seq<Action> {
    if env.outcome(r) == LinAlgFailed || env.skipTransferEval then [] else TransferEvals(r, env.evalDatasets)
  }

  datatype SweepError =
    | ModelNotFound(model: string)                          // `AutoConfig.from_pretrained` raised
    | DatasetNotFound(dataset: string, config: Option<string>) // `get_dataset_config_info` raised
    | TrainingCrashed                                        // `elicit.execute()` raised

  /** The first model the hub does not know, or `|models|`. */
  function FirstMissingModel(modelExists: string -> bool, models: seq<string>): (i: nat)
    ensures i <= |models|
    ensures forall k :: 0 <= k < i ==> modelExists(models[k])
    ensures i < |models| ==> !modelExists(models[i])
  {
    if models == [] || !modelExists(models[0]) then 0 else 1 + FirstMissingModel(modelExists, models[1..])
  }

  predicate DatasetKnown(datasetExists: (string, Option<string>) -> bool, datasetName: string) {
    var ref := DatasetRef(datasetName);
    datasetExists(ref.0, ref.1)
  }

  /** The first dataset string the hub does not know, or `|datasets|`. */
  function FirstMissingDataset(datasetExists: (string, Option<string>) -> bool, datasets: seq<string>): (i: nat)
    ensures i <= |datasets|
    ensures forall k :: 0 <= k < i ==> DatasetKnown(datasetExists, datasets[k])
    ensures i < |datasets| ==> !DatasetKnown(datasetExists, datasets[i])
  {
    if datasets == [] || !DatasetKnown(datasetExists, datasets[0]) then 0
    else 1 + FirstMissingDataset(datasetExists, datasets[1..])
  }

  /** What `execute` does: the actions it performs and the error it raises, if any. */
  datatype SweepResult = SweepResult(actions: seq<Action>, error: Option<SweepError>)

  /** The hub and the training runs, as `execute` sees them. */
  datatype World = World(
    modelExists: string -> bool,
    datasetExists: (string, Option<string>) -> bool,
    outcome: TrainRun -> TrainOutcome,
    sweepsRoot: Path,
    memorableDir: Path,
    grid: seq<real>,
    format: real -> string)

  class Sweep {
    const models: seq<string>
    var datasets: seq<string>
    const hparamStep: real
    const skipTransferEval: bool
    const visualize: bool
    const name: Option<string>
    const netIsEigen: bool   // `run_template.net` is an `EigenFitterConfig`

    constructor (models: seq<string>, datasets: seq<string>, hparamStep: real, skipTransferEval: bool,
                 visualize: bool, name: Option<string>, netIsEigen: bool)
      ensures this.models == models && this.datasets == datasets && this.hparamStep == hparamStep
      ensures this.skipTransferEval == skipTransferEval && this.visualize == visualize
      ensures this.name == name && this.netIsEigen == netIsEigen
    {
      this.models := models;
      this.datasets := datasets;
      this.hparamStep := hparamStep;
      this.skipTransferEval := skipTransferEval;
      this.visualize := visualize;
      this.name := name;
      this.netIsEigen := netIsEigen;
    }

    /**
     * `__post_init__`: rejects a sweep without datasets or models and a
     * hyperparameter step that is not allowed; otherwise expands "burns",
     * sorts and deduplicates the datasets and, with `addPooled`, appends the
     * pooled dataset string.
     */
    method PostInit(addPooled: bool, burnsDatasets: seq<string>) returns (err: Option<ConfigError>)
      modifies this`datasets
      ensures err == ConfigCheck(old(datasets), models, hparamStep, netIsEigen)
      ensures err.Some? ==> datasets == old(datasets)
      ensures err.None? ==> datasets == NormalisedDatasets(old(datasets), addPooled, burnsDatasets)
    {
      if datasets == [] {
        return Some(NoDatasets);
      }
      if models == [] {
        return Some(NoModels);
      }
      if hparamStep > 0.0 && !netIsEigen {
        return Some(HparamNeedsEigen);
      } else if hparamStep > 1.0 {
        return Some(HparamTooLarge);
      }
      if Burns in datasets {
        datasets := RemoveFirst(datasets, Burns);
        datasets := datasets + burnsDatasets;
      }
      datasets := SortedSet(LexLe, datasets);
      if addPooled {
        datasets := datasets + [Join('+', datasets)];
      }
      err := None;
    }

    /**
     * `execute`: checks every model and dataset against the hub, then runs
     * the sweep model by model, dataset string by dataset string and weight
     * pair by weight pair, and finally visualises it when asked to.
     */
    method Execute(world: World) returns (result: SweepResult)
      requires hparamStep > 0.0 ==> netIsEigen
      ensures result == ExecuteSpec(models, datasets, hparamStep, skipTransferEval, visualize, name, world)
    {
      var err := AssertModelsExist(world.modelExists, models);
      if err.Some? {
        return SweepResult([], err);
      }
      err := AssertDatasetsExist(world.datasetExists, datasets);
      if err.Some? {
        return SweepResult([], err);
      }
      var sweepDir := SweepDir(name, world.sweepsRoot, world.memorableDir);
      var env := Env(world.outcome, skipTransferEval, EvalDatasets(datasets));
      var weights := Weights(hparamStep, world.grid);
      var actions, crashed := RunSweep(env, Layout(sweepDir, world.format), models, datasets, weights);
      if crashed {
        return SweepResult(actions, Some(TrainingCrashed));
      }
      if visualize {
        actions := actions + [Visualize(sweepDir)];
      }
      result := SweepResult(actions, None);
    }
  }

  /** `assert_models_exist`: the first model the hub does not know raises. */
  method AssertModelsExist(modelExists: string -> bool, models: seq<string>) returns (err: Option<SweepError>)
    ensures var i := FirstMissingModel(modelExists, models);
      err == if i < |models| then Some(ModelNotFound(models[i])) else None
  {
    for i := 0 to |models|
      invariant forall k :: 0 <= k < i ==> modelExists(models[k])
    {
      if !modelExists(models[i]) {
        return Some(ModelNotFound(models[i]));
      }
    }
    return None;
  }

  /** `assert_datasets_exist`: the first dataset string whose name and config the hub does not know raises. */
  method AssertDatasetsExist(datasetExists: (string, Option<string>) -> bool, datasets: seq<string>)
    returns (err: Option<SweepError>)
    ensures var i := FirstMissingDataset(datasetExists, datasets);
      err == if i < |datasets| then Some(DatasetNotFound(DatasetRef(datasets[i]).0, DatasetRef(datasets[i]).1)) else None
  {
    for j := 0 to |datasets|
      invariant forall k :: 0 <= k < j ==> DatasetKnown(datasetExists, datasets[k])
    {
      var (ds, config) := DatasetRef(datasets[j]);
      if !datasetExists(ds, config) {
        return Some(DatasetNotFound(ds, config));
      }
    }
    return None;
  }

  /** The loop over the models in `execute`. */
  method RunSweep(env: Env, layout: Layout, models: seq<string>, datasets: seq<string>, weights: seq<Option<real>>)
    returns (actions: seq<Action>, crashed: bool)
    ensures Execution(actions, crashed) == Trace(env, SweepRuns(layout, models, datasets, weights))
  {
    actions, crashed := [], false;
    for i := 0 to |models|
      invariant Execution(actions, false) == Trace(env, SweepRuns(layout, models[..i], datasets, weights))
    {
      var acts, c := RunModel(env, layout, models[i], datasets, weights);
      TraceAppend(env, SweepRuns(layout, models[..i], datasets, weights),
                  ModelRuns(layout, models[i], datasets, weights));
      SweepRunsStep(layout, models, datasets, weights, i);
      actions := actions + acts;
      if c {
        crashed := true;
        SweepRunsPrefix(layout, models, datasets, weights, i);
        TraceCrashPrefix(env, SweepRuns(layout, models[..i + 1], datasets, weights),
                         SweepRuns(layout, models, datasets, weights));
        return;
      }
    }
    assert models[..|models|] == models;
  }

  /** What `execute` does, as one function of the sweep's settings and the world. */
  function ExecuteSpec(models: seq<string>, datasets: seq<string>, hparamStep: real, skipTransferEval: bool,
                       visualize: bool, name: Option<string>, world: World): SweepResult
  {
    var mi := FirstMissingModel(world.modelExists, models);
    var di := FirstMissingDataset(world.datasetExists, datasets);
    if mi < |models| then SweepResult([], Some(ModelNotFound(models[mi])))
    else if di < |datasets| then
      SweepResult([], Some(DatasetNotFound(DatasetRef(datasets[di]).0, DatasetRef(datasets[di]).1)))
    else
      var sweepDir := SweepDir(name, world.sweepsRoot, world.memorableDir);
      var env := Env(world.outcome, skipTransferEval, EvalDatasets(datasets));
      var t := Trace(env, SweepRuns(Layout(sweepDir, world.format), models, datasets, Weights(hparamStep, world.grid)));
      if t.crashed then SweepResult(t.actions, Some(TrainingCrashed))
      else SweepResult(t.actions + (if visualize then [Visualize(sweepDir)] else []), None)
  }

  /** The outer loop of `execute` for one model. */
  method RunModel(env: Env, layout: Layout, model: string, datasets: seq<string>, weights: seq<Option<real>>)
    returns (actions: seq<Action>, crashed: bool)
    ensures Execution(actions, crashed) == Trace(env, ModelRuns(layout, model, datasets, weights))
  {
    actions, crashed := [], false;
    for j := 0 to |datasets|
      invariant Execution(actions, false) == Trace(env, ModelRuns(layout, model, datasets[..j], weights))
    {
      var acts, c := RunDataset(env, layout, model, datasets[j], weights, weights);
      TraceAppend(env, ModelRuns(layout, model, datasets[..j], weights),
                  DatasetRuns(layout, model, datasets[j], weights, weights));
      ModelRunsStep(layout, model, datasets, weights, j);
      actions := actions + acts;
      if c {
        crashed := true;
        ModelRunsPrefix(layout, model, datasets, weights, j);
        TraceCrashPrefix(env, ModelRuns(layout, model, datasets[..j + 1], weights),
                         ModelRuns(layout, model, datasets, weights));
        return;
      }
    }
    assert datasets[..|datasets|] == datasets;
  }

  /** The loop over the variance weights for one model and dataset string. */
  method RunDataset(env: Env, layout: Layout, model: string, datasetStr: string,
                    varWeights: seq<Option<real>>, weights: seq<Option<real>>)
    returns (actions: seq<Action>, crashed: bool)
    ensures Execution(actions, crashed) == Trace(env, DatasetRuns(layout, model, datasetStr, varWeights, weights))
  {
    actions, crashed := [], false;
    for a := 0 to |varWeights|
      invariant Execution(actions, false) == Trace(env, DatasetRuns(layout, model, datasetStr, varWeights[..a], weights))
    {
      var acts, c := RunWeightRow(env, layout, model, datasetStr, varWeights[a], weights);
      TraceAppend(env, DatasetRuns(layout, model, datasetStr, varWeights[..a], weights),
                  WeightRuns(layout, model, datasetStr, varWeights[a], weights));
      DatasetRunsStep(layout, model, datasetStr, varWeights, weights, a);
      actions := actions + acts;
      if c {
        crashed := true;
        DatasetRunsPrefix(layout, model, datasetStr, varWeights, weights, a);
        TraceCrashPrefix(env, DatasetRuns(layout, model, datasetStr, varWeights[..a + 1], weights),
                         DatasetRuns(layout, model, datasetStr, varWeights, weights));
        return;
      }
    }
    assert varWeights[..|varWeights|] == varWeights;
  }

  /** The loop over the negative-covariance weights for one variance weight. */
  method RunWeightRow(env: Env, layout: Layout, model: string, datasetStr: string,
                      varWeight: Option<real>, weights: seq<Option<real>>)
    returns (actions: seq<Action>, crashed: bool)
    ensures Execution(actions, crashed) == Trace(env, WeightRuns(layout, model, datasetStr, varWeight, weights))
  {
    actions, crashed := [], false;
    for b := 0 to |weights|
      invariant Execution(actions, false) == Trace(env, WeightRuns(layout, model, datasetStr, varWeight, weights[..b]))
    {
      var r := MakeRun(layout, model, datasetStr, varWeight, weights[b]);
      var acts, c := RunOne(env, r);
      WeightRunsPrefix(layout, model, datasetStr, varWeight, weights, b);
      WeightRunsPrefix(layout, model, datasetStr, varWeight, weights, b + 1);
      assert WeightRuns(layout, model, datasetStr, varWeight, weights[..b + 1])
             == WeightRuns(layout, model, datasetStr, varWeight, weights[..b]) + [r];
      TraceAppend(env, WeightRuns(layout, model, datasetStr, varWeight, weights[..b]), [r]);
      actions := actions + acts;
      if c {
        crashed := true;
        TraceCrashPrefix(env, WeightRuns(layout, model, datasetStr, varWeight, weights[..b + 1]),
                         WeightRuns(layout, model, datasetStr, varWeight, weights));
        return;
      }
    }
    assert weights[..|weights|] == weights;
  }

  /** One training run and its transfer evaluation. */
  method RunOne(env: Env, r: TrainRun) returns (actions: seq<Action>, crashed: bool)
    ensures Execution(actions, crashed) == Trace(env, [r])
  {
    assert [r][..0] == [];
    actions, crashed := [Train(r)], false;
    var outcome := env.outcome(r);
    if outcome == Crashed {
      crashed := true;
      return;
    }
    if outcome == LinAlgFailed {
      return;
    }
    if !env.skipTransferEval {
      var evals := env.evalDatasets;
      for k := 0 to |evals|
        invariant actions == [Train(r)] + TransferEvals(r, evals[..k])
      {
        assert evals[..k + 1][..k] == evals[..k];
        if evals[k] in r.trainDatasets {
          continue;
        }
        actions := actions + [TransferEval(r, evals[k])];
      }
      assert evals[..|evals|] == evals;
    }
  }

  // ---------------------------------------------------------------- lemmas

  /** Running two lists of runs one after the other: nothing runs after a crash. */
  lemma {:induction false} TraceAppend(env: Env, a: seq<TrainRun>, b: seq<TrainRun>)
    ensures Trace(env, a + b) ==
      if Trace(env, a).crashed then Trace(env, a)
      else Execution(Trace(env, a).actions + Trace(env, b).actions, Trace(env, b).crashed)
  {
    if Trace(env, a).crashed {
      TraceAfterCrash(env, a, b);
    } else {
      TraceAfterClean(env, a, b);
    }
  }

  /** The trace of runs followed by one more run. */
  lemma TraceSnoc(env: Env, runs: seq<TrainRun>, r: TrainRun)
    ensures Trace(env, runs + [r]) == Step(env, Trace(env, runs), r)
  {
    assert (runs + [r])[..|runs|] == runs;
  }

  lemma {:induction false} TraceAfterCrash(env: Env, a: seq<TrainRun>, b: seq<TrainRun>)
    requires Trace(env, a).crashed
    ensures Trace(env, a + b) == Trace(env, a)
  {
    if b == [] {
      assert a + b == a;
    } else {
      var n := |b| - 1;
      TraceAfterCrash(env, a, b[..n]);
      assert a + b == (a + b[..n]) + [b[n]];
      TraceSnoc(env, a + b[..n], b[n]);
    }
  }

  /** Running `b` after actions `done` that did not crash appends `b`'s actions to them. */
  lemma StepShift(env: Env, done: seq<Action>, before: Execution, r: TrainRun)
    ensures Step(env, Execution(done + before.actions, before.crashed), r)
            == Execution(done + Step(env, before, r).actions, Step(env, before, r).crashed)
  {
    if !before.crashed {
      assert done + before.actions + [Train(r)] == done + (before.actions + [Train(r)]);
      assert done + before.actions + [Train(r)] + Aftermath(env, r)
             == done + (before.actions + [Train(r)] + Aftermath(env, r));
    }
  }

  lemma {:induction false} TraceAfterClean(env: Env, a: seq<TrainRun>, b: seq<TrainRun>)
    requires !Trace(env, a).crashed
    ensures Trace(env, a + b) == Execution(Trace(env, a).actions + Trace(env, b).actions, Trace(env, b).crashed)
  {
    if b == [] {
      assert a + b == a;
    } else {
      var n := |b| - 1;
      var ta, tbn := Trace(env, a), Trace(env, b[..n]);
      calc {
        Trace(env, a + b);
        { assert a + b == (a + b[..n]) + [b[n]]; }
        Trace(env, (a + b[..n]) + [b[n]]);
        { TraceSnoc(env, a + b[..n], b[n]); }
        Step(env, Trace(env, a + b[..n]), b[n]);
        { TraceAfterClean(env, a, b[..n]); }
        Step(env, Execution(ta.actions + tbn.actions, tbn.crashed), b[n]);
        { StepShift(env, ta.actions, tbn, b[n]); }
        Execution(ta.actions + Step(env, tbn, b[n]).actions, Step(env, tbn, b[n]).crashed);
        { TraceSnoc(env, b[..n], b[n]); assert b[..n] + [b[n]] == b; }
        Execution(ta.actions + Trace(env, b).actions, Trace(env, b).crashed);
      }
    }
  }

  lemma SweepRunsStep(layout: Layout, models: seq<string>, datasets: seq<string>, weights: seq<Option<real>>, i: nat)
    requires i < |models|
    ensures SweepRuns(layout, models[..i + 1], datasets, weights)
            == SweepRuns(layout, models[..i], datasets, weights) + ModelRuns(layout, models[i], datasets, weights)
  {
    var blocks := seq(i, x requires 0 <= x < i => ModelRuns(layout, models[..i][x], datasets, weights));
    assert seq(i + 1, x requires 0 <= x < i + 1 => ModelRuns(layout, models[..i + 1][x], datasets, weights))
           == blocks + [ModelRuns(layout, models[i], datasets, weights)];
    ConcatSnoc(blocks, ModelRuns(layout, models[i], datasets, weights));
  }

  lemma ModelRunsStep(layout: Layout, model: string, datasets: seq<string>, weights: seq<Option<real>>, j: nat)
    requires j < |datasets|
    ensures ModelRuns(layout, model, datasets[..j + 1], weights)
            == ModelRuns(layout, model, datasets[..j], weights) + DatasetRuns(layout, model, datasets[j], weights, weights)
  {
    var blocks := seq(j, x requires 0 <= x < j => DatasetRuns(layout, model, datasets[..j][x], weights, weights));
    assert seq(j + 1, x requires 0 <= x < j + 1 => DatasetRuns(layout, model, datasets[..j + 1][x], weights, weights))
           == blocks + [DatasetRuns(layout, model, datasets[j], weights, weights)];
    ConcatSnoc(blocks, DatasetRuns(layout, model, datasets[j], weights, weights));
  }

  lemma DatasetRunsStep(layout: Layout, model: string, datasetStr: string, varWeights: seq<Option<real>>,
                        weights: seq<Option<real>>, a: nat)
    requires a < |varWeights|
    ensures DatasetRuns(layout, model, datasetStr, varWeights[..a + 1], weights)
            == DatasetRuns(layout, model, datasetStr, varWeights[..a], weights)
               + WeightRuns(layout, model, datasetStr, varWeights[a], weights)
  {
    var row := WeightRuns(layout, model, datasetStr, varWeights[a], weights);
    var blocks := seq(a, x requires 0 <= x < a => WeightRuns(layout, model, datasetStr, varWeights[..a][x], weights));
    assert seq(a + 1, x requires 0 <= x < a + 1 => WeightRuns(layout, model, datasetStr, varWeights[..a + 1][x], weights))
           == blocks + [row];
    ConcatSnoc(blocks, row);
  }

  /** Nothing runs after a crash. */
  lemma TraceCrashPrefix(env: Env, a: seq<TrainRun>, b: seq<TrainRun>)
    requires a <= b && Trace(env, a).crashed
    ensures Trace(env, b) == Trace(env, a)
  {
    assert b == a + b[|a|..];
    TraceAppend(env, a, b[|a|..]);
  }

  lemma SweepRunsPrefix(layout: Layout, models: seq<string>, datasets: seq<string>, weights: seq<Option<real>>, i: nat)
    requires i < |models|
    ensures SweepRuns(layout, models[..i + 1], datasets, weights) <= SweepRuns(layout, models, datasets, weights)
  {
    var all := seq(|models|, x requires 0 <= x < |models| => ModelRuns(layout, models[x], datasets, weights));
    assert seq(i + 1, x requires 0 <= x < i + 1 => ModelRuns(layout, models[..i + 1][x], datasets, weights))
           == all[..i + 1];
    assert all == all[..i + 1] + all[i + 1..];
    ConcatAppend(all[..i + 1], all[i + 1..]);
  }

  lemma ModelRunsPrefix(layout: Layout, model: string, datasets: seq<string>, weights: seq<Option<real>>, j: nat)
    requires j < |datasets|
    ensures ModelRuns(layout, model, datasets[..j + 1], weights) <= ModelRuns(layout, model, datasets, weights)
  {
    var all := seq(|datasets|, x requires 0 <= x < |datasets| => DatasetRuns(layout, model, datasets[x], weights, weights));
    assert seq(j + 1, x requires 0 <= x < j + 1 => DatasetRuns(layout, model, datasets[..j + 1][x], weights, weights))
           == all[..j + 1];
    assert all == all[..j + 1] + all[j + 1..];
    ConcatAppend(all[..j + 1], all[j + 1..]);
  }

  lemma DatasetRunsPrefix(layout: Layout, model: string, datasetStr: string, varWeights: seq<Option<real>>,
                          weights: seq<Option<real>>, a: nat)
    requires a < |varWeights|
    ensures DatasetRuns(layout, model, datasetStr, varWeights[..a + 1], weights)
            <= DatasetRuns(layout, model, datasetStr, varWeights, weights)
  {
    var all := seq(|varWeights|, x requires 0 <= x < |varWeights| =>
      WeightRuns(layout, model, datasetStr, varWeights[x], weights));
    assert seq(a + 1, x requires 0 <= x < a + 1 => WeightRuns(layout, model, datasetStr, varWeights[..a + 1][x], weights))
           == all[..a + 1];
    assert all == all[..a + 1] + all[a + 1..];
    ConcatAppend(all[..a + 1], all[a + 1..]);
  }

  lemma WeightRunsPrefix(layout: Layout, model: string, datasetStr: string, varWeight: Option<real>,
                         weights: seq<Option<real>>, b: nat)
    requires b <= |weights|
    ensures WeightRuns(layout, model, datasetStr, varWeight, weights[..b])
            == WeightRuns(layout, model, datasetStr, varWeight, weights)[..b]
  {
  }


  // ---------------------------------------------------------------- properties of __post_init__

  /**
   * After the checks pass, the datasets are sorted and free of duplicates, hold
   * exactly the names of the expanded list, and with `addPooled` one more
   * entry follows: all of them joined by "+".
   */
  lemma NormalisedShape(datasets: seq<string>, addPooled: bool, burnsDatasets: seq<string>)
    ensures var unique := SortedSet(LexLe, ExpandBurns(datasets, burnsDatasets));
      var r := NormalisedDatasets(datasets, addPooled, burnsDatasets);
      && |r| == |unique| + (if addPooled then 1 else 0)
      && r[..|unique|] == unique
      && StrictlySortedBy(LexLe, unique)
      && Elems(unique) == Elems(ExpandBurns(datasets, burnsDatasets))
      && (addPooled ==> r[|unique|] == Join('+', unique))
  {
    LexLeTotalOrder();
    SortedSetStrict(LexLe, ExpandBurns(datasets, burnsDatasets));
  }

  /**
   * Which names the expansion of "burns" keeps: a name other than "burns" when
   * it was given or "burns" was given and stands for it; "burns" itself only
   * when it was given twice or stands for itself.
   */
  lemma ExpandBurnsMembers(datasets: seq<string>, burnsDatasets: seq<string>, x: string)
    ensures x in ExpandBurns(datasets, burnsDatasets) <==>
      if x == Burns then multiset(datasets)[Burns] > 1 || (Burns in datasets && Burns in burnsDatasets)
      else x in datasets || (Burns in datasets && x in burnsDatasets)
  {
    if Burns in datasets {
      var rest := RemoveFirst(datasets, Burns);
      assert x in rest <==> multiset(rest)[x] > 0;
      assert x in datasets <==> multiset(datasets)[x] > 0;
      assert x in ExpandBurns(datasets, burnsDatasets) <==> x in rest || x in burnsDatasets;
    }
  }

  /** The normalised list depends only on which datasets were given and how often, not on their order. */
  lemma NormalisedIgnoresOrder(a: seq<string>, b: seq<string>, addPooled: bool, burnsDatasets: seq<string>)
    requires multiset(a) == multiset(b)
    ensures NormalisedDatasets(a, addPooled, burnsDatasets) == NormalisedDatasets(b, addPooled, burnsDatasets)
  {
    forall x ensures x in ExpandBurns(a, burnsDatasets) <==> x in ExpandBurns(b, burnsDatasets) {
      ExpandBurnsMembers(a, burnsDatasets, x);
      ExpandBurnsMembers(b, burnsDatasets, x);
      assert x in a <==> multiset(a)[x] > 0;
      assert x in b <==> multiset(b)[x] > 0;
    }
    assert Elems(ExpandBurns(a, burnsDatasets)) == Elems(ExpandBurns(b, burnsDatasets));
    LexLeTotalOrder();
    SortedSetDependsOnElems(LexLe, ExpandBurns(a, burnsDatasets), ExpandBurns(b, burnsDatasets));
  }

  /** Normalising an already normalised list without "burns" and without pooling changes nothing. */
  lemma NormalisedIdempotent(datasets: seq<string>, burnsDatasets: seq<string>)
    requires Burns !in NormalisedDatasets(datasets, false, burnsDatasets)
    ensures var once := NormalisedDatasets(datasets, false, burnsDatasets);
      NormalisedDatasets(once, false, burnsDatasets) == once
  {
    var once := NormalisedDatasets(datasets, false, burnsDatasets);
    LexLeTotalOrder();
    SortedSetStrict(LexLe, ExpandBurns(datasets, burnsDatasets));
    SortedSetStrict(LexLe, once);
    StrictlySortedUnique(LexLe, SortedSet(LexLe, once), once);
  }

  // ---------------------------------------------------------------- properties of execute

  /** Transfer evaluation covers exactly every component of every dataset string, sorted, each once. */
  lemma EvalDatasetsMembers(datasets: seq<string>, e: string)
    ensures StrictlySortedBy(LexLe, EvalDatasets(datasets))
    ensures e in EvalDatasets(datasets) <==> exists i :: 0 <= i < |datasets| && e in TrainDatasets(datasets[i])
  {
    LexLeTotalOrder();
    SortedSetStrict(LexLe, Components(datasets));
    assert e in EvalDatasets(datasets) <==> e in Elems(Components(datasets));
    var blocks := Map(TrainDatasets, datasets);
    if e in Components(datasets) {
      ConcatMember(blocks, e);
    }
    if exists i :: 0 <= i < |datasets| && e in TrainDatasets(datasets[i]) {
      var i :| 0 <= i < |datasets| && e in TrainDatasets(datasets[i]);
      ConcatHas(blocks, i, e);
    }
  }

  /** Every sweep has |models| · |datasets| · |weights|² runs. */
  lemma SweepRunsCount(layout: Layout, models: seq<string>, datasets: seq<string>, weights: seq<Option<real>>)
    ensures |SweepRuns(layout, models, datasets, weights)| == |models| * (|datasets| * (|weights| * |weights|))
  {
    forall m, d | d in datasets
      ensures |DatasetRuns(layout, m, d, weights, weights)| == |weights| * |weights|
    {
      ConcatUniformLength(seq(|weights|, a requires 0 <= a < |weights| => WeightRuns(layout, m, d, weights[a], weights)),
                          |weights|);
    }
    forall m ensures |ModelRuns(layout, m, datasets, weights)| == |datasets| * (|weights| * |weights|) {
      ConcatUniformLength(seq(|datasets|, j requires 0 <= j < |datasets| => DatasetRuns(layout, m, datasets[j], weights, weights)),
                          |weights| * |weights|);
    }
    ConcatUniformLength(seq(|models|, i requires 0 <= i < |models| => ModelRuns(layout, models[i], datasets, weights)),
                        |datasets| * (|weights| * |weights|));
  }

  /** A run of one model and dataset string, with one pair of weights. */
  ghost predicate RunOf(layout: Layout, model: string, datasetStr: string, weights: seq<Option<real>>, r: TrainRun) {
    exists a, b :: 0 <= a < |weights| && 0 <= b < |weights| && r == MakeRun(layout, model, datasetStr, weights[a], weights[b])
  }

  lemma DatasetRunsMembers(layout: Layout, model: string, datasetStr: string, weights: seq<Option<real>>, r: TrainRun)
    ensures r in DatasetRuns(layout, model, datasetStr, weights, weights) <==> RunOf(layout, model, datasetStr, weights, r)
  {
    if r in DatasetRuns(layout, model, datasetStr, weights, weights) {
      DatasetRunIsRunOf(layout, model, datasetStr, weights, r);
    }
    if RunOf(layout, model, datasetStr, weights, r) {
      RunOfIsDatasetRun(layout, model, datasetStr, weights, r);
    }
  }

  lemma DatasetRunIsRunOf(layout: Layout, model: string, datasetStr: string, weights: seq<Option<real>>, r: TrainRun)
    requires r in DatasetRuns(layout, model, datasetStr, weights, weights)
    ensures RunOf(layout, model, datasetStr, weights, r)
  {
    var blocks := seq(|weights|, a requires 0 <= a < |weights| => WeightRuns(layout, model, datasetStr, weights[a], weights));
    ConcatMember(blocks, r);
    var a :| 0 <= a < |weights| && r in blocks[a];
    var row := WeightRuns(layout, model, datasetStr, weights[a], weights);
    assert r in row;
    var b :| 0 <= b < |row| && row[b] == r;
    assert r == MakeRun(layout, model, datasetStr, weights[a], weights[b]);
  }

  lemma RunOfIsDatasetRun(layout: Layout, model: string, datasetStr: string, weights: seq<Option<real>>, r: TrainRun)
    requires RunOf(layout, model, datasetStr, weights, r)
    ensures r in DatasetRuns(layout, model, datasetStr, weights, weights)
  {
    var a, b :| 0 <= a < |weights| && 0 <= b < |weights| && r == MakeRun(layout, model, datasetStr, weights[a], weights[b]);
    var blocks := seq(|weights|, a requires 0 <= a < |weights| => WeightRuns(layout, model, datasetStr, weights[a], weights));
    var row := WeightRuns(layout, model, datasetStr, weights[a], weights);
    assert row[b] == r;
    assert blocks[a] == row;
    ConcatHas(blocks, a, r);
  }

  /** The runs of one model. */
  ghost predicate ModelRunOf(layout: Layout, model: string, datasets: seq<string>, weights: seq<Option<real>>, r: TrainRun) {
    exists j :: 0 <= j < |datasets| && RunOf(layout, model, datasets[j], weights, r)
  }

  lemma ModelRunsMembers(layout: Layout, model: string, datasets: seq<string>, weights: seq<Option<real>>, r: TrainRun)
    ensures r in ModelRuns(layout, model, datasets, weights) <==> ModelRunOf(layout, model, datasets, weights, r)
  {
    var blocks := seq(|datasets|, j requires 0 <= j < |datasets| => DatasetRuns(layout, model, datasets[j], weights, weights));
    if r in Concat(blocks) {
      ConcatMember(blocks, r);
      var j :| 0 <= j < |datasets| && r in blocks[j];
      DatasetRunsMembers(layout, model, datasets[j], weights, r);
    }
    if ModelRunOf(layout, model, datasets, weights, r) {
      var j :| 0 <= j < |datasets| && RunOf(layout, model, datasets[j], weights, r);
      DatasetRunsMembers(layout, model, datasets[j], weights, r);
      ConcatHas(blocks, j, r);
    }
  }

  /** The runs of a sweep are exactly the runs of its models, dataset strings and weight pairs. */
  lemma SweepRunsMembers(layout: Layout, models: seq<string>, datasets: seq<string>, weights: seq<Option<real>>, r: TrainRun)
    ensures r in SweepRuns(layout, models, datasets, weights) <==>
      exists i :: 0 <= i < |models| && ModelRunOf(layout, models[i], datasets, weights, r)
  {
    var blocks := seq(|models|, i requires 0 <= i < |models| => ModelRuns(layout, models[i], datasets, weights));
    if r in Concat(blocks) {
      ConcatMember(blocks, r);
      var i :| 0 <= i < |models| && r in blocks[i];
      ModelRunsMembers(layout, models[i], datasets, weights, r);
    }
    if exists i :: 0 <= i < |models| && ModelRunOf(layout, models[i], datasets, weights, r) {
      var i :| 0 <= i < |models| && ModelRunOf(layout, models[i], datasets, weights, r);
      ModelRunsMembers(layout, models[i], datasets, weights, r);
      ConcatHas(blocks, i, r);
    }
  }

  /** The training runs among a sequence of actions, in order. */
  function Trains(actions: seq<Action>): seq<TrainRun> {
    if actions == [] then []
    else
      var n := |actions| - 1;
      Trains(actions[..n]) + (if actions[n].Train? then [actions[n].run] else [])
  }

  lemma {:induction false} TrainsAppend(x: seq<Action>, y: seq<Action>)
    ensures Trains(x + y) == Trains(x) + Trains(y)
  {
    if y != [] {
      var n := |y| - 1;
      TrainsAppend(x, y[..n]);
      assert (x + y)[..|x + y| - 1] == x + y[..n];
    } else {
      assert x + y == x;
    }
  }

  lemma {:induction false} TransferEvalsMembers(r: TrainRun, evalDatasets: seq<string>, x: Action)
    ensures Trains(TransferEvals(r, evalDatasets)) == []
    ensures x in TransferEvals(r, evalDatasets) <==>
      x.TransferEval? && x.run == r && x.dataset in evalDatasets && x.dataset !in r.trainDatasets
  {
    if evalDatasets != [] {
      var n := |evalDatasets| - 1;
      TransferEvalsMembers(r, evalDatasets[..n], x);
      var last := if evalDatasets[n] in r.trainDatasets then [] else [TransferEval(r, evalDatasets[n])];
      TrainsAppend(TransferEvals(r, evalDatasets[..n]), last);
      assert evalDatasets == evalDatasets[..n] + [evalDatasets[n]];
      assert Trains(last) == [] by {
        if last != [] {
          assert last[..0] == [];
        }
      }
    }
  }

  /** A sweep crashes exactly when one of its runs raises something other than `LinAlgError`. */
  lemma {:induction false} TraceCrashes(env: Env, runs: seq<TrainRun>)
    ensures Trace(env, runs).crashed <==> exists k :: 0 <= k < |runs| && env.outcome(runs[k]) == Crashed
  {
    if runs != [] {
      var n := |runs| - 1;
      TraceCrashes(env, runs[..n]);
      if exists k :: 0 <= k < n && env.outcome(runs[..n][k]) == Crashed {
        var k :| 0 <= k < n && env.outcome(runs[..n][k]) == Crashed;
        assert runs[k] == runs[..n][k];
      }
      if exists k :: 0 <= k < |runs| && env.outcome(runs[k]) == Crashed {
        var k :| 0 <= k < |runs| && env.outcome(runs[k]) == Crashed;
        if k < n {
          assert runs[..n][k] == runs[k];
        }
      }
    }
  }

  lemma AftermathTrainsNothing(env: Env, r: TrainRun)
    ensures Trains(Aftermath(env, r)) == []
  {
    TransferEvalsMembers(r, env.evalDatasets, Train(r));
  }

  /** Without a crash, every run is trained once, in order. */
  lemma {:induction false} TraceTrains(env: Env, runs: seq<TrainRun>)
    requires forall k :: 0 <= k < |runs| ==> env.outcome(runs[k]) != Crashed
    ensures !Trace(env, runs).crashed
    ensures Trains(Trace(env, runs).actions) == runs
  {
    if runs != [] {
      var n := |runs| - 1;
      var r := runs[n];
      var before := Trace(env, runs[..n]);
      assert !before.crashed && Trains(before.actions) == runs[..n] by {
        TraceTrains(env, runs[..n]);
      }
      assert Trace(env, runs) == Execution(before.actions + [Train(r)] + Aftermath(env, r), false) by {
        assert runs == runs[..n] + [r];
        TraceSnoc(env, runs[..n], r);
      }
      calc {
        Trains(before.actions + [Train(r)] + Aftermath(env, r));
        { TrainsAppend(before.actions + [Train(r)], Aftermath(env, r)); AftermathTrainsNothing(env, r); }
        Trains(before.actions + [Train(r)]);
        { TrainsAppend(before.actions, [Train(r)]); assert [Train(r)][..0] == []; }
        runs[..n] + [r];
        { assert runs == runs[..n] + [r]; }
        runs;
      }
    }
  }

  /** An evaluation is among the actions after a run exactly when transfer evaluation follows that run. */
  lemma AftermathTransfers(env: Env, last: TrainRun, r: TrainRun, e: string)
    requires env.outcome(last) != Crashed
    ensures TransferEval(r, e) in Aftermath(env, last) <==>
      && r == last && env.outcome(r) == Trained && !env.skipTransferEval
      && e in env.evalDatasets && e !in r.trainDatasets
  {
    TransferEvalsMembers(last, env.evalDatasets, TransferEval(r, e));
  }

  /**
   * Without a crash, run `r` is evaluated on dataset `e` exactly when `r` is
   * one of the runs, it trained without a `LinAlgError`, transfer evaluation
   * is on, and `e` is an evaluation dataset `r` was not trained on.
   */
  lemma {:induction false} TraceTransfers(env: Env, runs: seq<TrainRun>, r: TrainRun, e: string)
    requires forall k :: 0 <= k < |runs| ==> env.outcome(runs[k]) != Crashed
    ensures TransferEval(r, e) in Trace(env, runs).actions <==>
      && r in runs && env.outcome(r) == Trained && !env.skipTransferEval
      && e in env.evalDatasets && e !in r.trainDatasets
  {
    if runs != [] {
      var n := |runs| - 1;
      var last := runs[n];
      TraceTransfers(env, runs[..n], r, e);
      var before := Trace(env, runs[..n]).actions;
      assert Trace(env, runs).actions == before + [Train(last)] + Aftermath(env, last) by {
        TraceTrains(env, runs[..n]);
        assert runs == runs[..n] + [last];
        TraceSnoc(env, runs[..n], last);
      }
      AftermathTransfers(env, last, r, e);
      var x := TransferEval(r, e);
      assert x in before + [Train(last)] + Aftermath(env, last) <==> x in before || x in Aftermath(env, last);
      assert r in runs <==> r in runs[..n] || r == last by {
        assert runs == runs[..n] + [last];
      }
    }
  }

  /**
   * A sweep whose models and datasets all exist and none of whose runs
   * crash trains |models| · |datasets| · |weights|² runs, those of every
   * model, dataset string and weight pair, in loop order; it raises nothing
   * and visualises last exactly when asked to.
   */
  lemma ExecuteWithoutErrors(models: seq<string>, datasets: seq<string>, hparamStep: real, skipTransferEval: bool,
                             visualize: bool, name: Option<string>, world: World)
    requires forall m :: m in models ==> world.modelExists(m)
    requires forall d :: d in datasets ==> DatasetKnown(world.datasetExists, d)
    requires forall r ::
      r in SweepRuns(Layout(SweepDir(name, world.sweepsRoot, world.memorableDir), world.format),
                     models, datasets, Weights(hparamStep, world.grid))
      ==> world.outcome(r) != Crashed
    ensures var result := ExecuteSpec(models, datasets, hparamStep, skipTransferEval, visualize, name, world);
      var sweepDir := SweepDir(name, world.sweepsRoot, world.memorableDir);
      var weights := Weights(hparamStep, world.grid);
      var runs := SweepRuns(Layout(sweepDir, world.format), models, datasets, weights);
      && result.error == None
      && Trains(result.actions) == runs
      && |runs| == |models| * (|datasets| * (|weights| * |weights|))
      && (visualize <==> result.actions != [] && result.actions[|result.actions| - 1] == Visualize(sweepDir))
  {
    var sweepDir := SweepDir(name, world.sweepsRoot, world.memorableDir);
    var weights := Weights(hparamStep, world.grid);
    var layout := Layout(sweepDir, world.format);
    var env := Env(world.outcome, skipTransferEval, EvalDatasets(datasets));
    var runs := SweepRuns(layout, models, datasets, weights);
    var t := Trace(env, runs);
    assert !t.crashed && Trains(t.actions) == runs by {
      TraceTrains(env, runs);
    }
    assert ExecuteSpec(models, datasets, hparamStep, skipTransferEval, visualize, name, world)
           == SweepResult(t.actions + (if visualize then [Visualize(sweepDir)] else []), None) by {
      NoneMissing(world, models, datasets);
    }
    SweepRunsCount(layout, models, datasets, weights);
    VisualizeLast(env, runs, sweepDir, visualize);
  }

  /** When every model and dataset is known, neither check raises. */
  lemma NoneMissing(world: World, models: seq<string>, datasets: seq<string>)
    requires forall m :: m in models ==> world.modelExists(m)
    requires forall d :: d in datasets ==> DatasetKnown(world.datasetExists, d)
    ensures FirstMissingModel(world.modelExists, models) == |models|
    ensures FirstMissingDataset(world.datasetExists, datasets) == |datasets|
  {
    assert forall k :: 0 <= k < |models| ==> models[k] in models;
    assert forall k :: 0 <= k < |datasets| ==> datasets[k] in datasets;
  }

  /** Visualising after the runs trains nothing more, and the last action visualises exactly when asked to. */
  lemma VisualizeLast(env: Env, runs: seq<TrainRun>, sweepDir: Path, visualize: bool)
    ensures var acts := Trace(env, runs).actions + (if visualize then [Visualize(sweepDir)] else []);
      && Trains(acts) == Trains(Trace(env, runs).actions)
      && (visualize <==> acts != [] && acts[|acts| - 1] == Visualize(sweepDir))
  {
    var t := Trace(env, runs);
    var tail := if visualize then [Visualize(sweepDir)] else [];
    TrainsAppend(t.actions, tail);
    assert Trains(tail) == [] by {
      if visualize {
        assert tail[..0] == [];
      }
    }
    if !visualize && t.actions != [] {
      assert t.actions + tail == t.actions;
      var last := t.actions[|t.actions| - 1];
      if last == Visualize(sweepDir) {
        TraceNeverVisualizes(env, runs, last);
      }
    }
  }

  lemma {:induction false} TraceNeverVisualizes(env: Env, runs: seq<TrainRun>, x: Action)
    requires x in Trace(env, runs).actions
    ensures !x.Visualize?
  {
    var n := |runs| - 1;
    var last := runs[n];
    var before := Trace(env, runs[..n]);
    assert runs == runs[..n] + [last];
    TraceSnoc(env, runs[..n], last);
    if x in before.actions {
      TraceNeverVisualizes(env, runs[..n], x);
    } else if !before.crashed && env.outcome(last) != Crashed {
      TransferEvalsMembers(last, env.evalDatasets, x);
    }
  }


  /**
   * In a sweep without errors, run `r` is evaluated on dataset `e` exactly
   * when it is one of the sweep's runs, it trained without a `LinAlgError`,
   * transfer evaluation is on, and `e` is a component of some dataset string
   * but not of the one `r` trained on.
   */
  lemma ExecuteTransfers(models: seq<string>, datasets: seq<string>, hparamStep: real, skipTransferEval: bool,
                         visualize: bool, name: Option<string>, world: World, r: TrainRun, e: string)
    requires forall m :: m in models ==> world.modelExists(m)
    requires forall d :: d in datasets ==> DatasetKnown(world.datasetExists, d)
    requires forall r ::
      r in SweepRuns(Layout(SweepDir(name, world.sweepsRoot, world.memorableDir), world.format),
                     models, datasets, Weights(hparamStep, world.grid))
      ==> world.outcome(r) != Crashed
    ensures var result := ExecuteSpec(models, datasets, hparamStep, skipTransferEval, visualize, name, world);
      var sweepDir := SweepDir(name, world.sweepsRoot, world.memorableDir);
      var runs := SweepRuns(Layout(sweepDir, world.format), models, datasets, Weights(hparamStep, world.grid));
      TransferEval(r, e) in result.actions <==>
        && r in runs && world.outcome(r) == Trained && !skipTransferEval
        && (exists i :: 0 <= i < |datasets| && e in TrainDatasets(datasets[i]))
        && e !in r.trainDatasets
  {
    var sweepDir := SweepDir(name, world.sweepsRoot, world.memorableDir);
    var env := Env(world.outcome, skipTransferEval, EvalDatasets(datasets));
    var runs := SweepRuns(Layout(sweepDir, world.format), models, datasets, Weights(hparamStep, world.grid));
    var t := Trace(env, runs);
    assert !t.crashed by {
      TraceTrains(env, runs);
    }
    assert ExecuteSpec(models, datasets, hparamStep, skipTransferEval, visualize, name, world)
           == SweepResult(t.actions + (if visualize then [Visualize(sweepDir)] else []), None) by {
      NoneMissing(world, models, datasets);
    }
    assert TransferEval(r, e) in t.actions <==>
      && r in runs && world.outcome(r) == Trained && !skipTransferEval
      && e in EvalDatasets(datasets) && e !in r.trainDatasets by {
      TraceTransfers(env, runs, r, e);
    }
    EvalDatasetsMembers(datasets, e);
  }
}
