/** The training loop of train.py: `fit_one_epoch`, which takes batches from a
    training and a validation generator up to a cap and builds the classifier's
    targets for every image, and the two training phases that call it. */
module Epochs {
  import opened Tensors
  import Split
  import opened Arith

  /** `NUM_CLASSES`: the 20 VOC classes and the background. */
  const NumClasses: nat := 21
  const InitEpoch: nat := 0
  const IntervalEpoch: nat := 50
  const FinalEpoch: nat := 100

  datatype Option<T> = None | Some(value: T)

  /** A batch as the generator yields it: the images `X` and, per image, its
      ground-truth boxes.  The RPN targets `Y` only reach `train_on_batch`. */
  datatype Batch = Batch(images: seq<Matrix>, boxes: seq<Matrix>)

  /** A Python generator of batches: `batches` is what it yields, in order, and
      `pos` how many it has yielded so far. */
  class BatchGenerator {
    const batches: seq<Batch>
    var pos: nat

    ghost predicate Valid()
      reads this
    {
      pos <= |batches|
    }

    constructor (batches: seq<Batch>)
      ensures Valid() && this.batches == batches && pos == 0
    {
      this.batches := batches;
      pos := 0;
    }

    /** `next(gen)`: the next batch, or none once the generator is exhausted. */
    method Next() returns (b: Option<Batch>)
      requires Valid()
      modifies this
      ensures Valid()
      ensures old(pos) < |batches| ==> b == Some(batches[old(pos)]) && pos == old(pos) + 1
      ensures old(pos) == |batches| ==> b == None && pos == old(pos)
    {
      if pos < |batches| {
        b := Some(batches[pos]);
        pos := pos + 1;
      } else {
        b := None;
      }
    }
  }

  /** The classifier targets of one batch: the three lists fed to
      `train_on_batch` / `test_on_batch`. */
  datatype BatchTargets = BatchTargets(roiInputs: seq<Matrix>, outClasses: seq<Matrix>, outRegrs: seq<Matrix>)

  /** `calc_iou(R, config, boxes[i], NUM_CLASSES)`, the IoU matcher, returning
      the ROIs, their one-hot classes and their regression targets. */
  type CalcIou = (Matrix, Matrix, nat) -> (Matrix, Matrix, Matrix)

  /** The proposals and ground truth suffice for every image of the batch:
      `proposals(batch)` stands for the RPN network, anchor generation and
      `detection_out_rpn`, one matrix of [score, four coordinates] rows per image.
      It is one fixed function of the batch, although `train_on_batch` updates
      the RPN's weights between batches. */
  ghost predicate Fits(batch: Batch, proposals: Batch -> seq<Matrix>)
  {
    |proposals(batch)| >= |batch.images| && |batch.boxes| >= |batch.images|
  }

  /** Image i's targets are `calc_iou` of its proposals without their score
      column and of its ground-truth boxes, in image order. */
  function ExpectedTargets(batch: Batch, proposals: Batch -> seq<Matrix>, calcIou: CalcIou): (t: BatchTargets)
    requires Fits(batch, proposals)
    ensures |t.roiInputs| == |t.outClasses| == |t.outRegrs| == |batch.images|
    ensures forall i :: 0 <= i < |batch.images| ==>
      var r := calcIou(DropFirstColumn(proposals(batch)[i]), batch.boxes[i], NumClasses);
      t.roiInputs[i] == r.0 && t.outClasses[i] == r.1 && t.outRegrs[i] == r.2
  {
    var n := |batch.images|;
    var results := proposals(batch);
    BatchTargets(
      seq(n, i requires 0 <= i < n => calcIou(DropFirstColumn(results[i]), batch.boxes[i], NumClasses).0),
      seq(n, i requires 0 <= i < n => calcIou(DropFirstColumn(results[i]), batch.boxes[i], NumClasses).1),
      seq(n, i requires 0 <= i < n => calcIou(DropFirstColumn(results[i]), batch.boxes[i], NumClasses).2))
  }

  /** The loop `for i in range(len(X))` that appends each image's targets to
      `roi_inputs`, `out_classes` and `out_regrs`. */
  method AccumulateTargets(batch: Batch, proposals: Batch -> seq<Matrix>, calcIou: CalcIou)
    returns (t: BatchTargets)
    requires Fits(batch, proposals)
    ensures t == ExpectedTargets(batch, proposals, calcIou)
  {
    var results := proposals(batch);
    var roiInputs, outClasses, outRegrs := [], [], [];
    for i := 0 to |batch.images|
      invariant |roiInputs| == |outClasses| == |outRegrs| == i
      invariant forall j :: 0 <= j < i ==>
        var r := calcIou(DropFirstColumn(results[j]), batch.boxes[j], NumClasses);
        roiInputs[j] == r.0 && outClasses[j] == r.1 && outRegrs[j] == r.2
    {
      var r := DropFirstColumn(results[i]);
      var x2, y1, y2 := calcIou(r, batch.boxes[i], NumClasses).0,
                        calcIou(r, batch.boxes[i], NumClasses).1,
                        calcIou(r, batch.boxes[i], NumClasses).2;
      roiInputs := roiInputs + [x2];
      outClasses := outClasses + [y1];
      outRegrs := outRegrs + [y2];
    }
    t := BatchTargets(roiInputs, outClasses, outRegrs);
  }

  /** One of the two loops of `fit_one_epoch`:
      `for iteration, batch in enumerate(gen): if iteration >= cap: break`.
      It builds the targets of the first `cap` batches the generator still
      has and, because `enumerate` fetches a batch before the test, consumes
      one batch more when there is one. */
  method RunPhase(gen: BatchGenerator, cap: nat, proposals: Batch -> seq<Matrix>, calcIou: CalcIou)
    returns (done: seq<BatchTargets>)
    requires gen.Valid()
    requires forall k :: gen.pos <= k < |gen.batches| && k < gen.pos + cap ==> Fits(gen.batches[k], proposals)
    modifies gen
    ensures gen.Valid()
    ensures |done| == Min(cap, |gen.batches| - old(gen.pos))
    ensures gen.pos == old(gen.pos) + Min(cap + 1, |gen.batches| - old(gen.pos))
    ensures forall k :: 0 <= k < |done| ==>
      done[k] == ExpectedTargets(gen.batches[old(gen.pos) + k], proposals, calcIou)
  {
    done := [];
    var iteration := 0;
    while true
      invariant gen.Valid()
      invariant iteration == |done| <= cap
      invariant gen.pos == old(gen.pos) + iteration
      invariant forall k :: 0 <= k < |done| ==>
        done[k] == ExpectedTargets(gen.batches[old(gen.pos) + k], proposals, calcIou)
      decreases |gen.batches| - gen.pos
    {
      var batch := gen.Next();
      if batch.None? {
        break;
      }
      if iteration >= cap {
        break;
      }
      var targets := AccumulateTargets(batch.value, proposals, calcIou);
      done := done + [targets];
      iteration := iteration + 1;
    }
  }

  /** What one epoch processed: the targets of each training and each
      validation batch, in order. */
  datatype EpochReport = EpochReport(trained: seq<BatchTargets>, validated: seq<BatchTargets>)

  /** `fit_one_epoch`: at most `epochSize` training batches from `gen`, then at
      most `epochSizeVal` validation batches from `genVal`. */
  method FitOneEpoch(gen: BatchGenerator, genVal: BatchGenerator, epochSize: nat, epochSizeVal: nat,
                     proposals: Batch -> seq<Matrix>, calcIou: CalcIou)
    returns (report: EpochReport)
    requires gen != genVal && gen.Valid() && genVal.Valid()
    requires forall k :: gen.pos <= k < |gen.batches| && k < gen.pos + epochSize ==>
      Fits(gen.batches[k], proposals)
    requires forall k :: genVal.pos <= k < |genVal.batches| && k < genVal.pos + epochSizeVal ==>
      Fits(genVal.batches[k], proposals)
    modifies gen, genVal
    ensures gen.Valid() && genVal.Valid()
    ensures |report.trained| == Min(epochSize, |gen.batches| - old(gen.pos))
    ensures |report.validated| == Min(epochSizeVal, |genVal.batches| - old(genVal.pos))
    ensures gen.pos == old(gen.pos) + Min(epochSize + 1, |gen.batches| - old(gen.pos))
    ensures genVal.pos == old(genVal.pos) + Min(epochSizeVal + 1, |genVal.batches| - old(genVal.pos))
    ensures forall k :: 0 <= k < |report.trained| ==>
      report.trained[k] == ExpectedTargets(gen.batches[old(gen.pos) + k], proposals, calcIou)
    ensures forall k :: 0 <= k < |report.validated| ==>
      report.validated[k] == ExpectedTargets(genVal.batches[old(genVal.pos) + k], proposals, calcIou)
  {
    var trained := RunPhase(gen, epochSize, proposals, calcIou);
    var validated := RunPhase(genVal, epochSizeVal, proposals, calcIou);
    report := EpochReport(trained, validated);
  }

  /** One call of `fit_one_epoch`: the epoch index, the epoch count shown in
      the progress bar, and how many batches were trained and validated. */
  datatype EpochRun = EpochRun(epoch: nat, shownEpochs: nat, trained: nat, validated: nat)

  datatype Training = Trained(runs: seq<EpochRun>) | DatasetTooSmall

  /** Every batch of a generator's output carries proposals and boxes for each image. */
  ghost predicate AllFit(batches: seq<Batch>, proposals: Batch -> seq<Matrix>)
  {
    forall k :: 0 <= k < |batches| ==> Fits(batches[k], proposals)
  }

  /** `AllFit` for the generator over any list of lines. */
  ghost predicate GeneratorFits(generate: seq<string> -> seq<Batch>, proposals: Batch -> seq<Matrix>)
  {
    forall lines: seq<string> :: AllFit(generate(lines), proposals)
  }

  /** How many batches the `k`-th epoch of a phase (counting from 0) takes from
      a generator of `available` batches when the cap is `size`: each earlier
      epoch has used up `size + 1` of them, and this one takes at most `size`. */
  function BatchesInEpoch(available: nat, size: nat, k: nat): (n: nat)
    ensures n <= size && n <= available
    ensures k * (size + 1) + size <= available ==> n == size
    ensures available <= k * (size + 1) ==> n == 0
  {
    Min(size, available - Min(k * (size + 1), available))
  }

  /** One training phase: new generators over the two parts, the epoch sizes
      (or the error), then `fit_one_epoch` for epochs `first` .. `last - 1`.
      The generators are shared by the epochs of the phase, so each epoch
      continues where the previous one stopped. */
  method RunStage(split: Split.DatasetSplit, first: nat, last: nat, shownEpochs: nat,
                  generate: seq<string> -> seq<Batch>, proposals: Batch -> seq<Matrix>, calcIou: CalcIou)
    returns (runs: Option<seq<EpochRun>>)
    requires first <= last
    requires AllFit(generate(split.train), proposals) && AllFit(generate(split.val), proposals)
    ensures runs.None? <==> Split.ComputeEpochSizes(|split.train|, |split.val|, Split.BatchSize).TooSmall?
    ensures runs.Some? ==> var sizes := Split.ComputeEpochSizes(|split.train|, |split.val|, Split.BatchSize);
      && |runs.value| == last - first
      && forall e :: 0 <= e < last - first ==>
           && runs.value[e].epoch == first + e && runs.value[e].shownEpochs == shownEpochs
           && runs.value[e].trained == BatchesInEpoch(|generate(split.train)|, sizes.train, e)
           && runs.value[e].validated == BatchesInEpoch(|generate(split.val)|, sizes.val, e)
  {
    var gen := new BatchGenerator(generate(split.train));
    var genVal := new BatchGenerator(generate(split.val));
    var sizes := Split.ComputeEpochSizes(|split.train|, |split.val|, Split.BatchSize);
    if sizes.TooSmall? {
      return None;
    }
    var log: seq<EpochRun> := [];
    for epoch := first to last
      invariant gen.Valid() && genVal.Valid()
      invariant gen.batches == generate(split.train) && genVal.batches == generate(split.val)
      invariant gen.pos == Min((epoch - first) * (sizes.train + 1), |gen.batches|)
      invariant genVal.pos == Min((epoch - first) * (sizes.val + 1), |genVal.batches|)
      invariant |log| == epoch - first
      invariant forall e :: 0 <= e < epoch - first ==>
        && log[e].epoch == first + e && log[e].shownEpochs == shownEpochs
        && log[e].trained == BatchesInEpoch(|gen.batches|, sizes.train, e)
        && log[e].validated == BatchesInEpoch(|genVal.batches|, sizes.val, e)
    {
      ghost var k := epoch - first;
      assert (k + 1) * (sizes.train + 1) == k * (sizes.train + 1) + sizes.train + 1;
      assert (k + 1) * (sizes.val + 1) == k * (sizes.val + 1) + sizes.val + 1;
      var report := FitOneEpoch(gen, genVal, sizes.train, sizes.val, proposals, calcIou);
      log := log + [EpochRun(epoch, shownEpochs, |report.trained|, |report.validated|)];
    }
    runs := Some(log);
  }

  /** The `__main__` block after the lines are split: the first phase runs
      epochs 0 .. 49 (shown out of 50), the second 50 .. 99 (shown out of 100);
      each phase raises the `ValueError` first when the dataset is too small.
      Each phase makes its own generators, so the second starts again from the
      first batch. */
  method Train(split: Split.DatasetSplit, generate: seq<string> -> seq<Batch>,
               proposals: Batch -> seq<Matrix>, calcIou: CalcIou)
    returns (result: Training)
    requires AllFit(generate(split.train), proposals) && AllFit(generate(split.val), proposals)
    ensures result.DatasetTooSmall? <==> Split.ComputeEpochSizes(|split.train|, |split.val|, Split.BatchSize).TooSmall?
    ensures result.Trained? ==>
      && |result.runs| == FinalEpoch - InitEpoch
      && forall e :: 0 <= e < |result.runs| ==>
           && result.runs[e].epoch == e
           && result.runs[e].shownEpochs == (if e < IntervalEpoch then IntervalEpoch else FinalEpoch)
           && var sizes := Split.ComputeEpochSizes(|split.train|, |split.val|, Split.BatchSize);
              var k := if e < IntervalEpoch then e else e - IntervalEpoch;
              && result.runs[e].trained == BatchesInEpoch(|generate(split.train)|, sizes.train, k)
              && result.runs[e].validated == BatchesInEpoch(|generate(split.val)|, sizes.val, k)
  {
    var first := RunStage(split, InitEpoch, IntervalEpoch, IntervalEpoch, generate, proposals, calcIou);
    if first.None? {
      return DatasetTooSmall;
    }
    var second := RunStage(split, IntervalEpoch, FinalEpoch, FinalEpoch, generate, proposals, calcIou);
    if second.None? {
      return DatasetTooSmall;
    }
    result := Trained(first.value + second.value);
  }

  /** From the annotation file to the end of training: with two images per
      batch, the run fails exactly for a file of fewer than 20 lines, and
      otherwise runs every epoch 0 .. 99 once, in increasing order. */
  method TrainFromFile(fileLines: seq<string>, draw: nat -> nat, generate: seq<string> -> seq<Batch>,
                       proposals: Batch -> seq<Matrix>, calcIou: CalcIou)
    returns (result: Training)
    requires GeneratorFits(generate, proposals)
    ensures result.DatasetTooSmall? <==> |fileLines| < 20
    ensures result.Trained? ==> |result.runs| == 100 && forall e :: 0 <= e < 100 ==> result.runs[e].epoch == e
  {
    var split := Split.PrepareLines(fileLines, draw);
    Split.TooSmallBelowTwenty(|fileLines|);
    result := Train(split, generate, proposals, calcIou);
  }
}
