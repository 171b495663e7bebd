/** Preparing the annotation lines for training: shuffling them, holding a
    tenth out for validation, and the number of batches per epoch, with the
    error raised when either part is too small for one batch. */
module Split {

  /** Images per batch in both training phases. */
  const BatchSize: nat := 2

  /** `np.random.shuffle(lines)`, a permutation of the list in place.  The pass
      below is a Fisher-Yates shuffle; `draw(i)` is the random source, reduced
      to the range numpy draws the partner of position i from. */
  method Shuffle(lines: array<string>, draw: nat -> nat)
    modifies lines
    ensures multiset(lines[..]) == old(multiset(lines[..]))
  {
    var i := lines.Length;
    while i > 1
      invariant 0 <= i <= lines.Length
      invariant multiset(lines[..]) == old(multiset(lines[..]))
    {
      i := i - 1;
      var j := draw(i) % (i + 1);
      lines[i], lines[j] := lines[j], lines[i];
    }
  }

  /** The training and validation lines. */
  datatype DatasetSplit = DatasetSplit(train: seq<string>, val: seq<string>)

  /** `num_val = int(len(lines) * 0.1)`, `num_train = len(lines) - num_val`,
      then `lines[:num_train]` for training and `lines[num_train:]` for
      validation.  The truncated product is taken to be n / 10: for every n
      below 10^15 the rounding error of `n * 0.1` is too small to reach the
      next integer, so the two agree on any realistic annotation file. */
  function SplitLines(lines: seq<string>): (s: DatasetSplit)
    ensures s.train + s.val == lines
    ensures |s.val| == |lines| / 10
    ensures |s.train| + |s.val| == |lines|
    ensures multiset(s.train) + multiset(s.val) == multiset(lines)
  {
    var numVal := |lines| / 10;
    var numTrain := |lines| - numVal;
    assert lines[..numTrain] + lines[numTrain..] == lines;
    DatasetSplit(lines[..numTrain], lines[numTrain..])
  }

  /** The two parts take the lines by position: training the first
      |lines| - |lines| / 10, validation the rest; validation is the smaller
      part and gets one line per full ten. */
  lemma SplitPositions(lines: seq<string>)
    ensures var s := SplitLines(lines);
      && (forall i :: 0 <= i < |s.train| ==> s.train[i] == lines[i])
      && (forall j :: 0 <= j < |s.val| ==> s.val[j] == lines[|s.train| + j])
      && |s.val| <= |s.train|
      && 10 * |s.val| <= |lines| < 10 * (|s.val| + 1)
      && (|lines| >= 1 ==> |s.train| >= 1)
  {
  }

  /** Reading, shuffling and splitting the annotation file's lines: together
      the two parts hold exactly the file's lines, a tenth of them (rounded
      down) for validation. */
  method PrepareLines(fileLines: seq<string>, draw: nat -> nat) returns (s: DatasetSplit)
    ensures multiset(s.train) + multiset(s.val) == multiset(fileLines)
    ensures |s.val| == |fileLines| / 10
    ensures |s.train| == |fileLines| - |fileLines| / 10
  {
    var lines := new string[|fileLines|](i requires 0 <= i < |fileLines| => fileLines[i]);
    assert lines[..] == fileLines;
    Shuffle(lines, draw);
    s := SplitLines(lines[..]);
  }

  /** Batches per epoch, or the `ValueError` for a dataset too small. */
  datatype EpochSizes = Sizes(train: nat, val: nat) | TooSmall

  /** `epoch_size = num_train // Batch_size`, `epoch_size_val = num_val // Batch_size`,
      and the error exactly when either is 0. */
  function ComputeEpochSizes(numTrain: nat, numVal: nat, batchSize: nat): (r: EpochSizes)
    requires batchSize >= 1
    ensures r.TooSmall? <==> numTrain < batchSize || numVal < batchSize
    ensures r.Sizes? ==> r.train >= 1 && r.val >= 1
    ensures r.Sizes? ==> r.train * batchSize <= numTrain < (r.train + 1) * batchSize
    ensures r.Sizes? ==> r.val * batchSize <= numVal < (r.val + 1) * batchSize
  {
    var epochSize, epochSizeVal := numTrain / batchSize, numVal / batchSize;
    if epochSize == 0 || epochSizeVal == 0 then TooSmall else Sizes(epochSize, epochSizeVal)
  }

  /** With two images per batch, training refuses to start exactly when the
      annotation file has fewer than 20 lines; otherwise an epoch has at least
      9 training batches and 1 validation batch. */
  lemma TooSmallBelowTwenty(n: nat)
    ensures var r := ComputeEpochSizes(n - n / 10, n / 10, BatchSize);
      && (r.TooSmall? <==> n < 20)
      && (r.Sizes? ==> r.train >= 9 && r.val >= 1)
  {
  }
}
