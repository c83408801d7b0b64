# elk core in Dafny

A Dafny model of the layer-orchestration core of `elk`, a pipeline that
trains and evaluates probes ("reporters") for eliciting latent knowledge
from the hidden states of language models. The model covers four parts of
the pipeline:

- **The run orchestrator** (`elk/run.py`), in `runs.dfy`:
  - `write_func_to_file` writes the CSV header, buffers every per-layer result, and on every exit path flushes the buffer in sorted order. It then saves the debug log if asked to.
  - `apply_to_layers` feeds the writer the results of a sequential `map` or of a worker pool's `imap_unordered`.
  - `get_device` picks `devices[pid % world_size]`.
- **The evaluator** (`elk/evaluation/evaluate.py`), in `evaluate.dfy`:
  - the default output directory of `Eval`;
  - the reporter dispatch of `load_reporter`;
  - the nested loops of `eval_all`. They fill the `eval`, `lm_eval` and `lr_eval` tables and the per-dataset layer outputs.
- **The supervised probe trainer** (`elk/training/supervised.py`), in `supervised.dfy`:
  - the n×v×k×d → (n·v·k)×d feature layout;
  - the label repeat and one-hot flattening;
  - the per-dataset concatenation;
  - the mode dispatch.
- **The sweep planner** (`elk/training/sweep.py`), in `sweep.dfy`:
  - the validation and dataset normalisation in `Sweep.__post_init__`;
  - the `name:config` parsing of the hub checks;
  - the plan `execute` carries out: training runs, transfer evaluations and visualisation.

Shared pieces:

- `seqs.dfy` models Python's `sorted` and `sorted(set(...))` under a total order, and the concatenation of the blocks a nested loop appends.
- `strs.dfy` models the `str` and `pathlib` operations used: `join`, `split`, `strip`, `partition`, string comparison, `suffix` and the f-string rendering of an integer.
- `wrappers.dfy` holds `Option` and `Result`.

Operations that change state stay imperative:

- The file system is a `Disk` class that records the events a run causes.
- `Eval.out_dir` and `Sweep.datasets` are fields that `PostInit` assigns.
- Every loop of the source is a loop in a method.

Each method is proved against a specification function. The properties the source promises are lemmas about those functions.

## Notes on the source as written

- **A missing probe file is fatal.** In the evaluator, a missing `lr_models/` directory is harmless. But if `lr_models/` exists and `layer_{layer}.pt` is missing, `open` raises (evaluate.py:95-97). So a missing probe file for the layer is fatal, not a skipped table.
  - The exception happens at the first strategy of the first dataset. With no datasets or no strategies nothing is opened and nothing fails.
  - `Evaluation.ApplyToLayerSpec` states it so.
- **`prepare_data` does not match its call.** The evaluator calls `prepare_data(device, layer, "val")` and iterates the result as a mapping from dataset names to `(h, gt, lm_preds)`. The `prepare_data` of elk/run.py takes two arguments and returns a 6-tuple. The model therefore takes the validation data as an input sequence of entries.
- **`LayerApplied` and `LayerOutput` are not defined in elk/run.py** as it stands. They are modelled from their use in evaluate.py.
- **`Eval.__post_init__` does not call `Run.__post_init__`.** It only sets the output directory, and that is all `Eval.PostInit` does.

## Model

| member | source | states |
|---|---|---|
| Runs.CsvLines | elk/run.py:139-147 | the file has the header first and one line per result received: 1 + n lines |
| Runs.CsvLinesSortedPermutation | elk/run.py:141-147 | after the header come the results in an order that is sorted and is a permutation of those received, each rendered by `to_csv_line` |
| Runs.CsvLinesArrivalOrderIrrelevant | elk/run.py:113-147 | any two arrival orders of the same results give the same file |
| Runs.CsvLinesEvents | elk/run.py:139-147 | writing the lines of the file is writing the header and then each sorted, rendered result |
| Runs.Flush | elk/run.py:143-147 | the buffered results are appended to the file in the order given, one CSV row each, and nothing else is written |
| Runs.WriteFuncToFile | elk/run.py:127-149 | the header is written first; every result received is written sorted after it, also when the iterator raises (the `finally` path); the debug log is saved last and only when `debug` is set; the iterator's exception propagates |
| Runs.LayerStream | elk/run.py:112-115 | the results stream raises exactly when some layer's call raises; without a raise it yields `func` of every layer in call order; with one, it yields `func` of every layer before the first raising one, in call order, and then raises |
| Runs.FirstFailure | elk/run.py:113-115 | the first layer whose call raises; every earlier call returned |
| Runs.Arrival | elk/run.py:113 | the results arrive as a permutation of the layers; with at most one device, in layer order (plain `map`) |
| Runs.ApplyToLayers | elk/run.py:100-124 | a pool of fewer than one worker is refused before anything is opened; otherwise `eval.csv` in the output directory is opened and receives the header and the sorted results of the layers, then the debug log if asked; a layer's exception propagates |
| Runs.ParallelAgreesWithSequential | elk/run.py:110-124 | when no layer raises, the pool path and the sequential path write the same file, one result per layer |
| Runs.PyMod | elk/run.py:64 | Python's `%`: the remainder lies in [0, b) for b > 0 and in (b, 0] for b < 0 |
| Runs.PyIndex | elk/run.py:65 | Python's indexing: in range exactly for -len ≤ i < len; a non-negative index selects that element |
| Runs.GetDevice | elk/run.py:61-66 | a chosen device is one of the devices; `ZeroDivisionError` exactly when `world_size` is 0 |
| Runs.GetDeviceRank | elk/run.py:64-66 | with `world_size` > 0 the rank is in [0, world_size); the device is `devices[rank]`, and the call raises exactly when the rank is past the list; `world_size` ≤ len(devices) never raises |
| Runs.GetDeviceCongruent | elk/run.py:64-66 | processes whose ids agree modulo `world_size` get the same device |
| Seqs.Sort | elk/run.py:145 | `sorted`: a permutation of its input |
| Seqs.SortSorted | elk/run.py:145 | `sorted` returns a sorted list under a total order |
| Seqs.SortedUnique | elk/run.py:145 | two sorted permutations of one list are equal |
| Seqs.SortPermutationInvariant | elk/run.py:145 | `sorted` gives the same list for any order of the same elements |
| Seqs.SortedSet | elk/training/sweep.py:83 | `sorted(set(xs))` has exactly the elements of `xs` |
| Seqs.SortedSetStrict | elk/training/sweep.py:83 | `sorted(set(xs))` is sorted and free of duplicates |
| Seqs.SortedSetDependsOnElems | elk/training/sweep.py:106-112 | `sorted(set(xs))` depends only on the set of elements |
| Seqs.MapPermutation | elk/run.py:113-115 | mapping a function over two permutations of one list gives permutations of one list |
| Strs.Split | elk/training/sweep.py:110 | `split(sep)` gives at least one piece, and no piece contains the separator |
| Strs.JoinSplit | elk/training/sweep.py:110 | joining the pieces of a split with the separator gives the string back |
| Strs.SplitJoin | elk/evaluation/evaluate.py:31 | splitting a join recovers the parts when there is at least one and none contains the separator |
| Strs.StripSpec | elk/training/sweep.py:108 | `strip()` keeps a contiguous slice, removes only white space, and leaves none at either end |
| Strs.Partition | elk/training/sweep.py:23 | `partition(sep)`: the head has no separator; with a separator, head + sep + tail is the string; without one, the tail is empty |
| Strs.LexLeTotalOrder | elk/training/sweep.py:83 | string comparison is a total order |
| Strs.RFind | elk/evaluation/evaluate.py:49 | `rfind`: the last occurrence, or -1 |
| Strs.IntString | elk/evaluation/evaluate.py:54 | an integer's decimal rendering contains no dot |
| Evaluation.LayerFileName | elk/evaluation/evaluate.py:54 | `layer_{layer}.pt` has the suffix `.pt` |
| Evaluation.LoadReporter | elk/evaluation/evaluate.py:46-57 | an empty `reporters/` raises StopIteration; a first entry without the `.pt` suffix loads a multi-reporter from the directory; with it, `reporters/layer_{layer}.pt` is loaded, which fails when that file is absent |
| Evaluation.NormaliseProbes | elk/evaluation/evaluate.py:96-101 | a stored list of probes is used as it is; a single legacy probe becomes a one-element list |
| Evaluation.Tables | elk/evaluation/evaluate.py:59 | the table map has a key exactly for each non-empty row list, holding that list, and at most three keys |
| Evaluation.Eval.PostInit | elk/evaluation/evaluate.py:27-31 | a given output directory is kept; without one it becomes `<reporter dir>/<source>/transfer/<datasets joined by "+">`, the last component dropped when the join is empty |
| Evaluation.DefaultOutDir | elk/evaluation/evaluate.py:29-31 | the default output directory starts with `<reporter dir>/<source>/transfer`; with no datasets (or one empty name) it ends there, as pathlib adds no empty component; otherwise exactly one more component follows, the datasets joined by "+" |
| Evaluation.DefaultOutDirNamesDatasets | elk/evaluation/evaluate.py:31 | the last component splits back into the evaluated datasets when no name contains "+"; with an empty join it is `transfer` |
| Evaluation.Eval.ApplyToLayer | elk/evaluation/evaluate.py:37-120 | the layer's result, with reporters and probes loaded from the experiment directory `<reporter dir>/<source>`, is the one `ApplyToLayerSpec` describes |
| Evaluation.EvalAll | elk/evaluation/evaluate.py:63-116 | the loops produce one layer output per dataset and the three tables dataset by dataset; they fail exactly when the probe file is needed and missing |
| Evaluation.EvalDataset | elk/evaluation/evaluate.py:66-114 | one dataset gives its layer output (the reporter's credences, with `super_full` for a multi-reporter) and its rows strategy by strategy |
| Evaluation.ProbeRows | elk/evaluation/evaluate.py:103-114 | one `lr_eval` row per stored probe, numbered from 0 in order |
| Evaluation.ApplyToLayerOutcome | elk/evaluation/evaluate.py:41-120 | the layer fails exactly when there is no device, the reporter cannot be loaded, or the probe file is needed and missing; on success there is one layer output per dataset, an `eval` table exactly when there are datasets and strategies, and an `lr_eval` table only when supervised evaluation is on and `lr_models/` exists |
| Evaluation.EvalTableShape | elk/evaluation/evaluate.py:66-81 | `eval` has \|datasets\| × \|strategies\| rows, dataset-major: row i·S+j scores the credences of dataset i under strategy j |
| Evaluation.LmTableFiltered | elk/evaluation/evaluate.py:83-92 | `lm_eval` is the table of the datasets with lm predictions; the others add no rows |
| Evaluation.LmTableShape | elk/evaluation/evaluate.py:83-92 | `lm_eval` has one row per strategy for each dataset with lm predictions, scoring those predictions |
| Evaluation.LrTableShape | elk/evaluation/evaluate.py:94-114 | with m probes, `lr_eval` has \|datasets\| × \|strategies\| × m rows; row (i·S+j)·m+k scores probe k on dataset i under strategy j and records `inlp_iter` = k |
| Evaluation.LrTableEmpty | elk/evaluation/evaluate.py:94-95 | without probes (supervised evaluation skipped or no `lr_models/`) `lr_eval` has no rows |
| Evaluation.RowProvenance | elk/evaluation/evaluate.py:67-114 | every row carries the layer, a validation dataset's name and one of the strategies; only `lr_eval` rows carry an `inlp_iter` |
| Supervised.Dispatch | elk/training/supervised.py:24-35 | "cv" and "single" give exactly one probe of input width X.shape[-1] fit on X and the labels; "inlp" gives exactly what `Classifier.inlp` gives; any other mode raises |
| Supervised.TrainSupervised | elk/training/supervised.py:8-35 | the result is the one `TrainSupervisedSpec` describes |
| Supervised.TrainSupervisedOutcome | elk/training/supervised.py:13-35 | training fails exactly on an unencodable label, no data, different widths or an unknown mode; "cv"/"single" give one probe as wide as the activations whose features and labels have equal length when each dataset has one label per example; "inlp" gives `Classifier.inlp`'s list |
| Supervised.RepeatLabelsAt | elk/training/supervised.py:17 | after `repeat`, position i·v+j holds `labels[i]`, out of n·v |
| Supervised.RepeatLabelsInRange | elk/training/supervised.py:17-18 | with v > 0 the repeated labels are in range exactly when the labels are; with v = 0 there is nothing to encode |
| Supervised.OneHotFlatAt | elk/training/supervised.py:18 | the flattened one-hot vector has k entries per label; entry p·k+c is 1 exactly when c is label p |
| Supervised.FlattenAt | elk/training/supervised.py:15 | `rearrange` has n·v·k rows; row (i·v+j)·k+c is the features of example i, variant j, statement c |
| Supervised.FlattenLength | elk/training/supervised.py:15 | `rearrange` gives n·v·k rows |
| Supervised.DatasetLabelsLength | elk/training/supervised.py:17-18 | the label vector has \|labels\|·v·k entries |
| Supervised.DatasetLabelsAt | elk/training/supervised.py:17-18 | entry (i·v+j)·k+c of a dataset's label vector is 1 exactly when c is `labels[i]` |
| Supervised.DatasetAligned | elk/training/supervised.py:15-18 | with one label per example, a dataset gives as many feature rows as label entries |
| Supervised.PrefixAligned | elk/training/supervised.py:13-23 | the datasets before any point take up as many rows of X as entries of the labels |
| Supervised.AllAligned | elk/training/supervised.py:23 | after `torch.cat`, X has as many rows as the label vector has entries |
| Supervised.Alignment | elk/training/supervised.py:13-23 | dataset blocks sit contiguously in `data` order at the same offset in X and the labels; each row is labelled 1 exactly at its example's label |
| Sweeps.ConfigCheck | elk/training/sweep.py:58-69 | the checks pass exactly with datasets, models and an allowed step (≤ 1, and positive only for an Eigen net); no datasets is reported first |
| Sweeps.IndexOf | elk/training/sweep.py:75 | the index of the first occurrence |
| Sweeps.RemoveFirst | elk/training/sweep.py:75 | `list.remove` drops exactly the first occurrence and keeps the rest in order |
| Sweeps.Sweep.PostInit | elk/training/sweep.py:58-87 | a failed check raises with the datasets untouched; otherwise the datasets become the normalised list |
| Sweeps.NormalisedShape | elk/training/sweep.py:74-87 | before the pooled entry the datasets are sorted, free of duplicates and hold exactly the expanded names; with `add_pooled` exactly one entry follows, all of them joined by "+" |
| Sweeps.ExpandBurnsMembers | elk/training/sweep.py:74-76 | "burns" is replaced by the datasets it stands for; it survives only if it was given twice or stands for itself |
| Sweeps.NormalisedIgnoresOrder | elk/training/sweep.py:74-87 | the normalised datasets do not depend on the order they were given in |
| Sweeps.NormalisedIdempotent | elk/training/sweep.py:83 | normalising a normalised list (without "burns" and pooling) changes nothing |
| Sweeps.DatasetRef | elk/training/sweep.py:23-25 | `name:config` splits at the first ":"; an empty config becomes `None`; a name without ":" has no config |
| Sweeps.Weights | elk/training/sweep.py:114-115 | the weight list is `[None]` when the step is not positive, otherwise the grid |
| Sweeps.RunOutDir | elk/training/sweep.py:124-142 | a run trains on the stripped components of its dataset string and writes to `sweep_dir/model/dataset_str`, with the `var_weight=` and `neg_cov_weight=` segments exactly when it has weights |
| Sweeps.FirstMissingModel | elk/training/sweep.py:16-18 | the first model the hub does not know |
| Sweeps.FirstMissingDataset | elk/training/sweep.py:21-26 | the first dataset string whose name and config the hub does not know |
| Sweeps.AssertModelsExist | elk/training/sweep.py:16-18 | fails on exactly the first model the hub does not know, and succeeds when it knows them all |
| Sweeps.AssertDatasetsExist | elk/training/sweep.py:21-26 | fails on exactly the first dataset string whose name and config the hub does not know, and succeeds when it knows them all |
| Sweeps.Sweep.Execute | elk/training/sweep.py:89-169 | the sweep does what `ExecuteSpec` describes |
| Sweeps.RunModel | elk/training/sweep.py:120-166 | one model's loop does what the trace of its runs describes |
| Sweeps.RunSweep | elk/training/sweep.py:117-166 | the loop over models does what the trace of all the sweep's runs describes |
| Sweeps.RunDataset | elk/training/sweep.py:126-166 | the loop over `var_weight` does what the trace of its runs describes |
| Sweeps.RunWeightRow | elk/training/sweep.py:127-166 | the loop over `neg_cov_weight` for one `var_weight` does what the trace of its runs describes |
| Sweeps.RunOne | elk/training/sweep.py:144-166 | one run is trained; a crash stops; a `LinAlgError` skips transfer evaluation; otherwise each evaluation dataset outside the run's own is evaluated |
| Sweeps.TraceAppend | elk/training/sweep.py:117-166 | running two lists of runs one after the other: nothing runs after a crash |
| Sweeps.TraceCrashPrefix | elk/training/sweep.py:144-148 | a crash ends the sweep: later runs add nothing |
| Sweeps.EvalDatasetsMembers | elk/training/sweep.py:106-112 | the evaluation datasets are sorted, free of duplicates and exactly the stripped "+"-components of all dataset strings |
| Sweeps.SweepRunsCount | elk/training/sweep.py:115-127 | the sweep has M × D × \|weights\|² runs |
| Sweeps.DatasetRunsMembers | elk/training/sweep.py:126-127 | the runs of a dataset string are those of every weight pair |
| Sweeps.ModelRunsMembers | elk/training/sweep.py:120-127 | the runs of a model are those of every dataset string |
| Sweeps.SweepRunsMembers | elk/training/sweep.py:117-127 | the runs of the sweep are exactly those of every model, dataset string and weight pair |
| Sweeps.TransferEvalsMembers | elk/training/sweep.py:155-166 | after a run, exactly the evaluation datasets it did not train on are evaluated, and nothing is trained |
| Sweeps.TraceCrashes | elk/training/sweep.py:144-148 | the sweep raises exactly when some run raises something other than `LinAlgError` |
| Sweeps.TraceTrains | elk/training/sweep.py:117-148 | without a crash every run is trained once, in loop order |
| Sweeps.TraceTransfers | elk/training/sweep.py:150-166 | without a crash a run is evaluated on a dataset exactly when it trained without `LinAlgError`, transfer evaluation is on, and the dataset is an evaluation dataset it did not train on |
| Sweeps.TraceNeverVisualizes | elk/training/sweep.py:117-166 | the runs never visualise |
| Sweeps.ExecuteWithoutErrors | elk/training/sweep.py:89-169 | with every model and dataset known and no crash: no error, M × D × \|weights\|² runs trained in loop order, and a visualisation last exactly when asked |
| Sweeps.ExecuteTransfers | elk/training/sweep.py:106-166 | with no errors a run is evaluated on a dataset exactly when it trained without `LinAlgError`, transfer evaluation is on, and the dataset is a component of some dataset string but not of its own |

## Left out

- Multiprocessing and `tqdm`: the worker pool is modelled only through the order in which its results arrive, a permutation of the layers given as a parameter.
- `os.getpid`: the process id is a parameter of `get_device`.
- `StatResult`'s ordering is not part of this model: the comparison is a parameter assumed to be a total order.
- Tensor numerics are uninterpreted functions: reporter and probe forward passes, `evaluate_preds`, `normalize`, `int16_to_float32` and `unbind`.
- `Classifier.fit`, `fit_cv` and `Classifier.inlp` are not modelled: a probe records its width, its device and the data it was fit on, and `inlp` is a parameter.
- File and serialisation I/O (`torch.load`, `open`, the csv module, `save_debug_log`) become events on a `Disk` or boolean and listing inputs. A `MultiReporter.load` from the directory is assumed to succeed.
- `Run.__post_init__` (`extract`, `create_output_directory`, `save_config`, `save_meta`), `prepare_data`, `make_reproducible` and `select_train_val_splits` are not modelled: they are dataset extraction, I/O and RNG seeding with nothing to state beyond their calls.
- The hub checks (`AutoConfig.from_pretrained`, `get_dataset_config_info`), `Elicit.execute`, `make_eval(...).execute()` and `visualize_sweep` are parameters or recorded actions. A failure of `eval.execute()` is caught by the source (elk/training/sweep.py:161-166) and so leaves no trace.
- `np.arange(0, 1 + step, step)` and the `.2f` rendering of a weight are parameters (`World.grid`, `World.format`).
- elk/utils/types.py (`PromptEnsembling.all()`), elk/utils/constants.py (`BURNS_DATASETS`) and elk/metrics (`to_one_hot`) are not part of this model. The strategies and the Burns datasets are parameters. `to_one_hot` is taken to fail on a label outside 0..k-1.
- Evaluation.LoadReporter: the class of the object `torch.load` returns is not modelled; a `reporters/*.pt` file is taken to hold a `SingleReporter`, so `super_full=True` is chosen by the branch that loaded the reporter rather than by `isinstance` (elk/evaluation/evaluate.py:68-72). A missing `reporters/` directory, for which `iterdir()` raises `FileNotFoundError` (elk/evaluation/evaluate.py:48), is seen only as an empty listing and reported as `EmptyReporterDir`.
- Paths are lists of components; a component that itself contains "/" is not split.
- Evaluation.DefaultOutDir: paths are relative, so an absolute `source`, for which pathlib's `elk_reporter_dir() / source` is `source` itself, is not modelled; the same holds for `Evaluation.Eval.PostInit`.
- Sweeps.Trace: `elicit.make_eval(model, eval_dataset)` (elk/training/sweep.py:160) is outside the `try`, so a failure there would end the sweep; the model takes it not to raise, and a transfer evaluation has no crash outcome.
- Sweeps.Sweep.PostInit: `self.datasets.remove` and `extend` (elk/training/sweep.py:74-75) mutate the list the caller passed in; the model gives the sweep its own copy, so that aliasing is not captured.
- Sweeps.MakeRun: `replace` (elk/training/sweep.py:130-133) copies shallowly, so setting `elicit.net.var_weight` and `neg_cov_weight` (elk/training/sweep.py:136-137) also changes `self.run_template.net`; the model gives each run its own weights, and no contract depends on the template afterwards.
- Sweeps.MakeRun: `sweep_dir / model / dataset_str` keeps every component, including an empty model name or dataset string, which pathlib would drop.
- Printing and colouring of progress messages are left out.
- `Supervised.TrainSupervisedOutcome`: the "inlp" list's length (the number of INLP iterations) is whatever `Classifier.inlp` returns, since its mathematics is not modelled.
- elk/__main__.py: command-line parsing and dispatch only.
