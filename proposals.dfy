/** The step of `detect_image` between the region-proposal decoder and the
    classifier: the score column is dropped from every proposal row, and the
    four box coordinates are reordered into a fresh zero tensor for the
    classifier's ROI input. */
module Proposals {
  import opened Tensors

  /** Entry k of a ROI row is entry RoiOrder[k] of the proposal row. */
  const RoiOrder: seq<nat> := [1, 0, 3, 2]

  /** One ROI row: the first two and the next two coordinates swapped; any
      further column keeps the zero it was allocated with. */
  function SwapRow(row: Row): (r: Row)
    requires |row| >= 4
    ensures |r| == |row|
    ensures forall k :: 0 <= k < 4 ==> r[k] == row[RoiOrder[k]]
    ensures forall k :: 4 <= k < |r| ==> r[k] == 0.0
  {
    [row[1], row[0], row[3], row[2]] + seq(|row| - 4, _ => 0.0)
  }

  ghost predicate AtLeastFourColumns(t: Tensor)
  {
    forall b, i :: 0 <= b < |t| && 0 <= i < |t[b]| ==> |t[b][i]| >= 4
  }

  /** The value of `temp_ROIs` for a proposal tensor `box`. */
  function SwapCorners(box: Tensor): (r: Tensor)
    requires AtLeastFourColumns(box)
    ensures |r| == |box|
    ensures forall b :: 0 <= b < |box| ==> |r[b]| == |box[b]|
    ensures forall b, i :: 0 <= b < |box| && 0 <= i < |box[b]| ==> r[b][i] == SwapRow(box[b][i])
  {
    seq(|box|, b requires 0 <= b < |box| =>
      seq(|box[b]|, i requires 0 <= i < |box[b]| => SwapRow(box[b][i])))
  }

  /** With exactly four coordinates per row, reordering twice restores the row. */
  lemma SwapRowInvolution(row: Row)
    requires |row| == 4
    ensures SwapRow(SwapRow(row)) == row
  {
    assert SwapRow(SwapRow(row))[..4] == row[..4];
  }

  /** The reordering keeps the shape of the batch and, for four-column proposals,
      is its own inverse. */
  lemma {:induction false} SwapCornersInvolution(box: Tensor, rows: nat)
    requires Shaped(box, rows, 4)
    ensures Shaped(SwapCorners(box), rows, 4)
    ensures SwapCorners(SwapCorners(box)) == box
  {
    var once := SwapCorners(box);
    assert Shaped(once, rows, 4);
    var twice := SwapCorners(once);
    forall b | 0 <= b < |box|
      ensures twice[b] == box[b]
    {
      forall i | 0 <= i < rows
        ensures twice[b][i] == box[b][i]
      {
        SwapRowInvolution(box[b][i]);
      }
    }
  }

  /** The proposal rows of the decoder (score first, then four coordinates),
      with their score column dropped: the value of `proposal_box`. */
  lemma ProposalBoxShape(rpn: Tensor, rows: nat)
    requires Shaped(rpn, rows, 5)
    ensures Shaped(DropFirstColumn3(rpn), rows, 4)
    ensures AtLeastFourColumns(DropFirstColumn3(rpn))
    ensures forall b, i, k :: 0 <= b < |rpn| && 0 <= i < rows && 0 <= k < 4 ==>
      DropFirstColumn3(rpn)[b][i][k] == rpn[b][i][k + 1]
  {
    DropFirstColumn3Shape(rpn, rows, 5);
  }

  /** The batch tensor held by a three-dimensional array. */
  function Contents(a: array3<real>): (t: Tensor)
    reads a
    ensures |t| == a.Length0
    ensures Shaped(t, a.Length1, a.Length2)
    ensures forall b, i, k :: 0 <= b < a.Length0 && 0 <= i < a.Length1 && 0 <= k < a.Length2 ==>
      t[b][i][k] == a[b, i, k]
  {
    seq(a.Length0, b requires 0 <= b < a.Length0 reads a =>
      seq(a.Length1, i requires 0 <= i < a.Length1 reads a =>
        seq(a.Length2, k requires 0 <= k < a.Length2 reads a => a[b, i, k])))
  }

  /** `temp_ROIs = np.zeros_like(proposal_box)` followed by
      `temp_ROIs[:, :, [0, 1, 2, 3]] = proposal_box[:, :, [1, 0, 3, 2]]`. */
  method RoiTensor(box: Tensor, rows: nat, cols: nat) returns (rois: array3<real>)
    requires Shaped(box, rows, cols) && cols >= 4
    ensures fresh(rois)
    ensures rois.Length0 == |box| && rois.Length1 == rows && rois.Length2 == cols
    ensures AtLeastFourColumns(box) && Contents(rois) == SwapCorners(box)
  {
    rois := new real[|box|, rows, cols]((b, i, k) => 0.0);
    forall b, i, k | 0 <= b < |box| && 0 <= i < rows && 0 <= k < 4 {
      rois[b, i, k] := box[b][i][RoiOrder[k]];
    }
    var t := Contents(rois);
    var swapped := SwapCorners(box);
    forall b | 0 <= b < |box|
      ensures t[b] == swapped[b]
    {
      forall i | 0 <= i < rows
        ensures t[b][i] == swapped[b][i]
      {
      }
    }
  }
}
