/**
 * Supervised probe training, elk/training/supervised.py: `train_supervised`
 * lays every dataset's n×v×k×d activations out as (n·v·k) feature rows,
 * repeats each example's label over its v variants, one-hot encodes it over
 * the k statements and flattens that, concatenates the datasets in order, and
 * fits probes according to the mode.
 *
 * Fitting is not modelled: a probe records its input width, its device and the
 * data it was fit on; `Classifier.inlp` is an uninterpreted function.
 */
module Supervised {
  import opened Wrappers
  import opened Seqs

  /** One feature row, of length d. */
  type Vector = seq<real>

  /** An n×v×k×d activation tensor: `at[i][j][c]` is the feature row of example i, variant j, statement c. */
  datatype Hidden = Hidden(n: nat, v: nat, k: nat, d: nat, at: seq<seq<seq<Vector>>>)

  predicate Shaped(h: Hidden) {
    && |h.at| == h.n
    && (forall i :: 0 <= i < h.n ==> |h.at[i]| == h.v)
    && (forall i, j :: 0 <= i < h.n && 0 <= j < h.v ==> |h.at[i][j]| == h.k)
    && (forall i, j, c :: 0 <= i < h.n && 0 <= j < h.v && 0 <= c < h.k ==> |h.at[i][j][c]| == h.d)
  }

  /** A tensor is rectangular: its shape is `(n, v, k, d)`. */
  type Activations = h: Hidden | Shaped(h) witness Hidden(0, 0, 0, 0, [])

  /** One value of `data`: activations and integer labels; the third element is not used. */
  datatype TrainSet = TrainSet(h: Activations, labels: seq<int>)

  datatype Fit = CrossValidated(x: seq<Vector>, y: seq<int>) | Fitted(x: seq<Vector>, y: seq<int>)

  /** A trained probe: its input width, its device and how it was fit. */
  datatype Probe = Probe(inputDim: nat, device: string, fit: Fit)

  datatype TrainError =
    | LabelOutOfRange        // `to_one_hot` of a label outside 0..k-1
    | NothingToConcatenate   // `torch.cat` of an empty list
    | WidthMismatch          // `torch.cat` of feature matrices of different widths
    | UnknownMode(mode: string)

  /** `rearrange(h, "n v k d -> (n v k) d")`: example-major, then variant, then statement. */
  function Flatten(h: Activations): seq<Vector> {
    Concat(seq(h.n, i requires 0 <= i < h.n => Concat(seq(h.v, j requires 0 <= j < h.v => h.at[i][j]))))
  }

  /** `repeat(labels, "n -> (n v)")`: each label `v` times in a row. */
  function RepeatLabels(labels: seq<int>, v: nat): seq<int> {
    Concat(seq(|labels|, i requires 0 <= i < |labels| => seq(v, _ => labels[i])))
  }

  /** The one-hot vector of class `y` over `k` classes. */
  function OneHot(y: int, k: nat): (r: seq<int>)
    ensures |r| == k
  {
    seq(k, c => if c == y then 1 else 0)
  }

  predicate LabelsInRange(labels: seq<int>, k: nat) {
    forall i :: 0 <= i < |labels| ==> 0 <= labels[i] < k
  }

  /** `to_one_hot(labels, k).flatten()`: the one-hot rows, one after the other. */
  function OneHotFlat(labels: seq<int>, k: nat): seq<int> {
    Concat(seq(|labels|, p requires 0 <= p < |labels| => OneHot(labels[p], k)))
  }

  /** The label vector one dataset contributes. */
  function DatasetLabels(t: TrainSet): seq<int> {
    OneHotFlat(RepeatLabels(t.labels, t.h.v), t.h.k)
  }

  /** `to_one_hot` is given the repeated labels, so a dataset without variants encodes nothing. */
  predicate OneHotEncodable(t: TrainSet) {
    LabelsInRange(RepeatLabels(t.labels, t.h.v), t.h.k)
  }

  function Rows(data: seq<TrainSet>): seq<seq<Vector>> {
    seq(|data|, s requires 0 <= s < |data| => Flatten(data[s].h))
  }

  function Labels(data: seq<TrainSet>): seq<seq<int>> {
    seq(|data|, s requires 0 <= s < |data| => DatasetLabels(data[s]))
  }

  predicate SameWidth(data: seq<TrainSet>) {
    forall s :: 0 <= s < |data| ==> data[s].h.d == data[0].h.d
  }

  /** The mode dispatch after the data is concatenated; `Classifier(X.shape[-1])` gets width `d`. */
  function Dispatch(mode: string, d: nat, device: string, x: seq<Vector>, y: seq<int>,
                    inlp: (seq<Vector>, seq<int>) -> seq<Probe>): (r: Result<seq<Probe>, TrainError>)
    ensures mode == "cv" ==> r == Success([Probe(d, device, CrossValidated(x, y))])
    ensures mode == "single" ==> r == Success([Probe(d, device, Fitted(x, y))])
    ensures mode == "inlp" ==> r == Success(inlp(x, y))
    ensures r.Failure? <==> mode !in {"cv", "inlp", "single"}
    ensures r.Failure? ==> r.error == UnknownMode(mode)
  {
    if mode == "cv" then Success([Probe(d, device, CrossValidated(x, y))])
    else if mode == "inlp" then Success(inlp(x, y))
    else if mode == "single" then Success([Probe(d, device, Fitted(x, y))])
    else Failure(UnknownMode(mode))
  }

  /** What `train_supervised` returns, as one function of its inputs. */
  function TrainSupervisedSpec(data: seq<TrainSet>, device: string, mode: string,
                               inlp: (seq<Vector>, seq<int>) -> seq<Probe>): Result<seq<Probe>, TrainError>
  {
    if exists s :: 0 <= s < |data| && !OneHotEncodable(data[s]) then Failure(LabelOutOfRange)
    else if data == [] then Failure(NothingToConcatenate)
    else if !SameWidth(data) then Failure(WidthMismatch)
    else Dispatch(mode, data[0].h.d, device, Concat(Rows(data)), Concat(Labels(data)), inlp)
  }

  /**
   * `train_supervised`: collects each dataset's feature rows and label vector
   * in the order of `data`, concatenates them and fits probes by mode.
   */
  method TrainSupervised(data: seq<TrainSet>, device: string, mode: string,
                         inlp: (seq<Vector>, seq<int>) -> seq<Probe>)
    returns (r: Result<seq<Probe>, TrainError>)
    ensures r == TrainSupervisedSpec(data, device, mode, inlp)
  {
    var xs: seq<seq<Vector>> := [];
    var trainLabels: seq<seq<int>> := [];
    for s := 0 to |data|
      invariant xs == Rows(data[..s])
      invariant trainLabels == Labels(data[..s])
      invariant forall t :: 0 <= t < s ==> OneHotEncodable(data[t])
    {
      var t := data[s];
      var trainH := Flatten(t.h);
      var labels := RepeatLabels(t.labels, t.h.v);
      if !LabelsInRange(labels, t.h.k) {
        return Failure(LabelOutOfRange);
      }
      var oneHot := OneHotFlat(labels, t.h.k);
      xs := xs + [trainH];
      trainLabels := trainLabels + [oneHot];
      assert data[..s + 1] == data[..s] + [t];
    }
    assert data[..|data|] == data;
    if xs == [] {
      return Failure(NothingToConcatenate);
    }
    if exists s :: 0 <= s < |data| && data[s].h.d != data[0].h.d {
      return Failure(WidthMismatch);
    }
    var x, y := Concat(xs), Concat(trainLabels);
    r := Dispatch(mode, data[0].h.d, device, x, y, inlp);
  }

  /**
   * The labels survive repetition in range exactly when they were in range
   * before (for `v > 0`; with no variants nothing is one-hot encoded).
   */
  lemma RepeatLabelsInRange(labels: seq<int>, v: nat, k: nat)
    ensures v > 0 ==> (LabelsInRange(RepeatLabels(labels, v), k) <==> LabelsInRange(labels, k))
    ensures v == 0 ==> RepeatLabels(labels, v) == []
  {
    var blocks := seq(|labels|, i requires 0 <= i < |labels| => seq(v, _ => labels[i]));
    if v > 0 {
      if LabelsInRange(RepeatLabels(labels, v), k) {
        forall i | 0 <= i < |labels| ensures 0 <= labels[i] < k {
          RepeatLabelsAt(labels, v, i, 0);
        }
      }
      if LabelsInRange(labels, k) {
        forall p | 0 <= p < |RepeatLabels(labels, v)| ensures 0 <= RepeatLabels(labels, v)[p] < k {
          ConcatMember(blocks, RepeatLabels(labels, v)[p]);
        }
      }
    } else {
      ConcatUniformLength(blocks, 0);
    }
  }

  /** After `repeat`, the label at position `i * v + j` is `labels[i]`. */
  lemma RepeatLabelsAt(labels: seq<int>, v: nat, i: nat, j: nat)
    requires i < |labels| && j < v
    ensures |RepeatLabels(labels, v)| == |labels| * v
    ensures i * v + j < |RepeatLabels(labels, v)|
    ensures RepeatLabels(labels, v)[i * v + j] == labels[i]
  {
    ConcatUniformAt(seq(|labels|, b requires 0 <= b < |labels| => seq(v, _ => labels[b])), v, i, j);
  }

  /** The flattened one-hot vector has `k` entries per label; entry `p * k + c` is 1 exactly when `c` is label `p`. */
  lemma OneHotFlatAt(labels: seq<int>, k: nat, p: nat, c: nat)
    requires p < |labels| && c < k
    ensures |OneHotFlat(labels, k)| == |labels| * k
    ensures p * k + c < |OneHotFlat(labels, k)|
    ensures OneHotFlat(labels, k)[p * k + c] == if c == labels[p] then 1 else 0
  {
    ConcatUniformAt(seq(|labels|, b requires 0 <= b < |labels| => OneHot(labels[b], k)), k, p, c);
  }

  /** `rearrange` puts the feature row of example i, variant j, statement c at row `(i * v + j) * k + c`. */
  lemma FlattenAt(h: Activations, i: nat, j: nat, c: nat)
    requires i < h.n && j < h.v && c < h.k
    ensures |Flatten(h)| == h.n * (h.v * h.k)
    ensures Position(h, i, j, c) < |Flatten(h)|
    ensures Flatten(h)[Position(h, i, j, c)] == h.at[i][j][c]
  {
    FlattenLength(h);
    var blocks := seq(h.n, b requires 0 <= b < h.n => Concat(seq(h.v, x requires 0 <= x < h.v => h.at[b][x])));
    var row := seq(h.v, x requires 0 <= x < h.v => h.at[i][x]);
    var inner := j * h.k + c;
    assert inner < h.v * h.k && Position(h, i, j, c) == i * (h.v * h.k) + inner by {
      NestedIndex(i, j, c, h.n, h.v, h.k);
    }
    assert inner < |Concat(row)| && Concat(row)[inner] == h.at[i][j][c] by {
      ConcatUniformAt(row, h.k, j, c);
    }
    assert i * (h.v * h.k) + inner < |Flatten(h)| && Flatten(h)[i * (h.v * h.k) + inner] == blocks[i][inner] by {
      forall b | 0 <= b < h.n ensures |blocks[b]| == h.v * h.k {
        ConcatUniformLength(seq(h.v, x requires 0 <= x < h.v => h.at[b][x]), h.k);
      }
      ConcatUniformAt(blocks, h.v * h.k, i, inner);
    }
    assert blocks[i] == Concat(row);
  }

  /**
   * One dataset's label vector: it has n·v·k entries when there are n labels,
   * and entry `(i * v + j) * k + c` is 1 exactly when `c` is `labels[i]`.
   */
  lemma DatasetLabelsAt(t: TrainSet, i: nat, j: nat, c: nat)
    requires i < |t.labels| && j < t.h.v && c < t.h.k
    ensures |DatasetLabels(t)| == |t.labels| * (t.h.v * t.h.k)
    ensures Position(t.h, i, j, c) < |DatasetLabels(t)|
    ensures DatasetLabels(t)[Position(t.h, i, j, c)] == if c == t.labels[i] then 1 else 0
  {
    var v, k := t.h.v, t.h.k;
    RepeatLabelsAt(t.labels, v, i, j);
    OneHotFlatAt(RepeatLabels(t.labels, v), k, i * v + j, c);
    NestedIndex(i, j, c, |t.labels|, v, k);
    DatasetLabelsLength(t);
  }

  lemma FlattenLength(h: Activations)
    ensures |Flatten(h)| == h.n * (h.v * h.k)
  {
    var blocks := seq(h.n, b requires 0 <= b < h.n => Concat(seq(h.v, x requires 0 <= x < h.v => h.at[b][x])));
    forall b | 0 <= b < h.n ensures |blocks[b]| == h.v * h.k {
      ConcatUniformLength(seq(h.v, x requires 0 <= x < h.v => h.at[b][x]), h.k);
    }
    ConcatUniformLength(blocks, h.v * h.k);
  }

  lemma DatasetLabelsLength(t: TrainSet)
    ensures |DatasetLabels(t)| == |t.labels| * (t.h.v * t.h.k)
  {
    var v, k := t.h.v, t.h.k;
    RepeatLabelsLength(t.labels, v);
    var rep := RepeatLabels(t.labels, v);
    ConcatUniformLength(seq(|rep|, p requires 0 <= p < |rep| => OneHot(rep[p], k)), k);
    assert |DatasetLabels(t)| == |rep| * k;
    MulAssoc(|t.labels|, v, k);
  }

  lemma RepeatLabelsLength(labels: seq<int>, v: nat)
    ensures |RepeatLabels(labels, v)| == |labels| * v
  {
    ConcatUniformLength(seq(|labels|, b requires 0 <= b < |labels| => seq(v, _ => labels[b])), v);
  }

  lemma MulAssoc(a: nat, b: nat, c: nat)
    ensures a * b * c == a * (b * c)
  {
  }

  /** A dataset's feature rows and label entries are equally many when it has one label per example. */
  lemma DatasetAligned(t: TrainSet)
    requires |t.labels| == t.h.n
    ensures |Flatten(t.h)| == |DatasetLabels(t)|
  {
    FlattenLength(t.h);
    DatasetLabelsLength(t);
  }

  predicate OneLabelPerExample(data: seq<TrainSet>) {
    forall s :: 0 <= s < |data| ==> |data[s].labels| == data[s].h.n
  }

  /** Concatenating aligned datasets keeps every block's features and labels at the same offset. */
  lemma {:induction false} PrefixAligned(data: seq<TrainSet>, s: nat)
    requires OneLabelPerExample(data) && s <= |data|
    ensures |Concat(Rows(data)[..s])| == |Concat(Labels(data)[..s])|
  {
    if s > 0 {
      var rows, labels := Rows(data), Labels(data);
      PrefixAligned(data, s - 1);
      assert |Concat(rows[..s])| == |Concat(rows[..s - 1])| + |rows[s - 1]| by {
        assert rows[..s] == rows[..s - 1] + [rows[s - 1]];
        ConcatSnoc(rows[..s - 1], rows[s - 1]);
      }
      assert |Concat(labels[..s])| == |Concat(labels[..s - 1])| + |labels[s - 1]| by {
        assert labels[..s] == labels[..s - 1] + [labels[s - 1]];
        ConcatSnoc(labels[..s - 1], labels[s - 1]);
      }
      assert |rows[s - 1]| == |labels[s - 1]| by {
        DatasetAligned(data[s - 1]);
      }
    }
  }

  /** Where the feature row of example i, variant j, statement c of `h` lands after `rearrange`. */
  function Position(h: Activations, i: nat, j: nat, c: nat): nat {
    (i * h.v + j) * h.k + c
  }

  /** Where dataset `s`'s rows start in the concatenated matrix. */
  function Offset(data: seq<TrainSet>, s: nat): nat
    requires s <= |data|
  {
    |Concat(Rows(data)[..s])|
  }

  lemma AllAligned(data: seq<TrainSet>)
    requires OneLabelPerExample(data)
    ensures |Concat(Rows(data))| == |Concat(Labels(data))|
  {
    PrefixAligned(data, |data|);
    assert Rows(data)[..|data|] == Rows(data);
    assert Labels(data)[..|data|] == Labels(data);
  }

  /**
   * Row/label alignment after `torch.cat`: when every dataset has one label
   * per example, the matrix has as many rows as the label vector has entries,
   * dataset `s`'s blocks start at the same offset in both, and the row at
   * that offset plus `Position(h, i, j, c)` holds the features of example i,
   * variant j, statement c of dataset `s`, labelled 1 exactly when `c` is that
   * example's label.
   */
  lemma Alignment(data: seq<TrainSet>, s: nat, i: nat, j: nat, c: nat)
    requires OneLabelPerExample(data)
    requires s < |data| && i < data[s].h.n && j < data[s].h.v && c < data[s].h.k
    ensures |Concat(Rows(data))| == |Concat(Labels(data))|
    ensures Offset(data, s) == |Concat(Labels(data)[..s])|
    ensures Offset(data, s) + Position(data[s].h, i, j, c) < |Concat(Rows(data))|
    ensures Concat(Rows(data))[Offset(data, s) + Position(data[s].h, i, j, c)] == data[s].h.at[i][j][c]
    ensures Concat(Labels(data))[Offset(data, s) + Position(data[s].h, i, j, c)]
            == if c == data[s].labels[i] then 1 else 0
  {
    AllAligned(data);
    PrefixAligned(data, s);
    RowAt(data, s, i, j, c);
    LabelAt(data, s, i, j, c);
  }

  lemma RowAt(data: seq<TrainSet>, s: nat, i: nat, j: nat, c: nat)
    requires s < |data| && i < data[s].h.n && j < data[s].h.v && c < data[s].h.k
    ensures Offset(data, s) + Position(data[s].h, i, j, c) < |Concat(Rows(data))|
    ensures Concat(Rows(data))[Offset(data, s) + Position(data[s].h, i, j, c)] == data[s].h.at[i][j][c]
  {
    var h := data[s].h;
    FlattenAt(h, i, j, c);
    assert Rows(data)[s] == Flatten(h);
    ConcatPrefixAt(Rows(data), s, Position(h, i, j, c));
  }

  lemma LabelAt(data: seq<TrainSet>, s: nat, i: nat, j: nat, c: nat)
    requires s < |data| && i < |data[s].labels| && j < data[s].h.v && c < data[s].h.k
    ensures |Concat(Labels(data)[..s])| + Position(data[s].h, i, j, c) < |Concat(Labels(data))|
    ensures Concat(Labels(data))[|Concat(Labels(data)[..s])| + Position(data[s].h, i, j, c)]
            == if c == data[s].labels[i] then 1 else 0
  {
    var t := data[s];
    DatasetLabelsAt(t, i, j, c);
    assert Labels(data)[s] == DatasetLabels(t);
    ConcatPrefixAt(Labels(data), s, Position(t.h, i, j, c));
  }

  /**
   * What `train_supervised` returns: it fails on an out-of-range label, on no
   * data, on datasets of different widths, and on an unknown mode; "cv" and
   * "single" give one probe as wide as the activations, fit on features and
   * labels of equal length when every dataset has one label per example;
   * "inlp" gives what `Classifier.inlp` gives.
   */
  lemma TrainSupervisedOutcome(data: seq<TrainSet>, device: string, mode: string,
                               inlp: (seq<Vector>, seq<int>) -> seq<Probe>)
    ensures var r := TrainSupervisedSpec(data, device, mode, inlp);
      var wellFormed := data != [] && SameWidth(data)
                        && forall s :: 0 <= s < |data| ==> OneHotEncodable(data[s]);
      && (r.Success? <==> wellFormed && mode in {"cv", "inlp", "single"})
      && (wellFormed && mode !in {"cv", "inlp", "single"} ==> r == Failure(UnknownMode(mode)))
      && (r.Success? && mode in {"cv", "single"} ==>
            && |r.value| == 1
            && r.value[0].inputDim == data[0].h.d
            && r.value[0].device == device
            && (OneLabelPerExample(data) ==> |r.value[0].fit.x| == |r.value[0].fit.y|))
      && (r.Success? && mode == "inlp" ==> r.value == inlp(Concat(Rows(data)), Concat(Labels(data))))
  {
    if OneLabelPerExample(data) {
      AllAligned(data);
    }
  }
}
