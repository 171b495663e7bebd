/** Rows, matrices and batch tensors of reals, as the numpy arrays the detector
    passes between its stages, with the one slicing operation the glue code uses. */
module Tensors {

  type Row = seq<real>
  type Matrix = seq<Row>
  /** A batch: one matrix per image. */
  type Tensor = seq<Matrix>

  /** Every matrix of the batch has `rows` rows of `cols` entries: the shape
      numpy needs to stack the batch into one three-dimensional array. */
  ghost predicate Shaped(t: Tensor, rows: nat, cols: nat)
  {
    forall b :: 0 <= b < |t| ==> |t[b]| == rows && forall i :: 0 <= i < rows ==> |t[b][i]| == cols
  }

  /** `row[1:]`: the row without its first entry; an empty row stays empty. */
  function DropFirst(row: Row): (r: Row)
    ensures |r| == if |row| == 0 then 0 else |row| - 1
    ensures forall k :: 0 <= k < |r| ==> r[k] == row[k + 1]
  {
    if |row| == 0 then [] else row[1..]
  }

  /** `m[:, 1:]`: every row without its first column. */
  function DropFirstColumn(m: Matrix): (r: Matrix)
    ensures |r| == |m|
    ensures forall i :: 0 <= i < |m| ==> r[i] == DropFirst(m[i])
  {
    seq(|m|, i requires 0 <= i < |m| => DropFirst(m[i]))
  }

  /** `t[:, :, 1:]`: the same for every image of a batch. */
  function DropFirstColumn3(t: Tensor): (r: Tensor)
    ensures |r| == |t|
    ensures forall b :: 0 <= b < |t| ==> r[b] == DropFirstColumn(t[b])
  {
    seq(|t|, b requires 0 <= b < |t| => DropFirstColumn(t[b]))
  }

  /** Dropping the first entry loses nothing else: putting it back restores the row. */
  lemma DropFirstRestores(row: Row)
    requires |row| >= 1
    ensures [row[0]] + DropFirst(row) == row
  {
  }

  /** Dropping the first column of a batch shaped rows x cols (cols >= 1) gives a
      batch shaped rows x (cols - 1) whose entry (b, i, k) is entry (b, i, k + 1). */
  lemma {:induction false} DropFirstColumn3Shape(t: Tensor, rows: nat, cols: nat)
    requires Shaped(t, rows, cols) && cols >= 1
    ensures Shaped(DropFirstColumn3(t), rows, cols - 1)
    ensures forall b, i, k :: 0 <= b < |t| && 0 <= i < rows && 0 <= k < cols - 1 ==>
      DropFirstColumn3(t)[b][i][k] == t[b][i][k + 1]
  {
    var r := DropFirstColumn3(t);
    forall b | 0 <= b < |t|
      ensures |r[b]| == rows
      ensures forall i :: 0 <= i < rows ==> |r[b][i]| == cols - 1
      ensures forall i, k :: 0 <= i < rows && 0 <= k < cols - 1 ==> r[b][i][k] == t[b][i][k + 1]
    {
      assert r[b] == DropFirstColumn(t[b]);
    }
  }
}
