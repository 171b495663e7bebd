# Faster R-CNN detector and trainer glue, modelled in Dafny

This project models the integer, sequence and geometry logic in the detector
object (`frcnn.py`) and the training script (`train.py`) of a Faster R-CNN
object detector. The networks and the proposal pipeline are collaborators outside
this model: the region-proposal network with anchor generation and
`detection_out_rpn`, the classifier with `detection_out_classifier`, the IoU
matcher `calc_iou`, and the batch `Generator`. Each of them enters the model
as a function-typed parameter.

Modules, in the order the program uses them:

- `FeatureMap` (`feature_map.dfy`): `get_output_length`. This is the loop over
  four stride-2 layers with filter sizes and paddings (7,3), (3,1), (1,0), (1,0).
  The proofs show that each layer is ceil(L/2) and the whole stack is ceil(L/16).
  Dafny's `/` with a positive divisor is floor division, like Python's `//`,
  so this holds for every integer L, including 0 and negative values.
- `Tensors` (`tensors.dfy`): rows, matrices and batch tensors of reals, and the
  numpy slice `[..., 1:]` that drops the score column.
- `Proposals` (`proposals.dfy`): `proposal_box` and `temp_ROIs`. The ROI tensor
  is allocated as a zero `array3` and written with one parallel `forall`
  assignment, matching the fancy-indexed numpy assignment. For four-column
  proposals the coordinate reordering (a,b,c,d) -> (b,a,d,c) is its own inverse.
- `Annotate` (`annotate.dfy`): the geometry for one detection. The box is
  padded by 5, rounded half-up with `floor(x + 0.5)`, and clamped on one side
  only. It also covers the frame thickness, the text origin, and the loop that
  draws the inset rectangles of the frame.
- `Frcnn` (`frcnn.dfy`): the `FRCNN` class. It holds `_defaults` and
  `get_defaults`, the constructor, `num_classes`, `get_img_output_length` and
  `detect_image`. `detect_image` returns the list of frames drawn on the copy
  of the image; that list is empty when there is no detection, and then the
  copy is returned untouched.
- `Split` (`split.dfy`): the shuffle, the 9:1 train/validation split, and the
  epoch sizes with the "dataset too small" error.
- `Epochs` (`epochs.dfy`): the generator as a stateful object, both loops of
  `fit_one_epoch`, the per-image accumulation of classifier targets, and the
  two training phases.

Behaviours the proofs bring out:

- `thickness = max((H + W) // W * 2, 1)` always equals `2 * (H // W + 1)`. So it
  is at least 2, and the lower bound 1 never takes effect.
- Each loop of `fit_one_epoch` takes one batch more from its generator than
  it trains on, whenever the generator has one. This is because `enumerate`
  fetches the next batch before the `iteration >= epoch_size` test breaks out.
  The generators live across the epochs of a phase, so epoch k of a phase
  starts at batch k * (epoch_size + 1) and each epoch skips one batch of each.
- `int(len(lines) * 0.1)` is modelled as `len(lines) // 10`. The two agree for
  every length below 10^15, where the rounding error of the product stays
  below the distance to the next integer. With that reading, training fails
  with the `ValueError` exactly when the annotation file has fewer than 20 lines.

## Model

| member | source | states |
|---|---|---|
| FeatureMap.GetOutputLength | frcnn.py:93-101 | the four-layer loop returns ceil(L / 16) for every integer L |
| FeatureMap.LayerIsCeilHalf | frcnn.py:95-100 | each of the four (filter, padding) pairs maps L to ceil(L / 2) |
| FeatureMap.OutputLengthMonotone | frcnn.py:93-101 | a longer side never gives a shorter feature map |
| FeatureMap.OutputLengthPositive | frcnn.py:93-101 | for L >= 0 the output is >= 1 exactly when L >= 1, is 0 for L = 0, and is never more than L |
| Frcnn.FRCNN.GetImgOutputLength | frcnn.py:92-103 | the same function applied to width and to height, returned width first |
| Tensors.DropFirstColumn | train.py:52 | `R = results[i][:, 1:]`: same number of rows, each row shifted left by one entry |
| Tensors.DropFirstColumn3 | frcnn.py:153 | `proposal_box` has the batch's shape, with each row missing its first entry |
| Tensors.DropFirstRestores | frcnn.py:153 | putting the score back in front restores the row, so nothing else is lost |
| Tensors.DropFirstColumn3Shape | frcnn.py:153 | a rows x cols batch becomes rows x (cols - 1), with entry k taken from entry k + 1 |
| Proposals.ProposalBoxShape | frcnn.py:153 | proposal rows of [score, four coordinates] become four-column rows holding those coordinates |
| Proposals.SwapRow | frcnn.py:154-155 | ROI entry k is proposal entry [1,0,3,2][k]; any further column stays 0; the length is kept |
| Proposals.SwapCorners | frcnn.py:154-155 | `temp_ROIs` has the shape of `proposal_box`, with every row reordered |
| Proposals.SwapRowInvolution | frcnn.py:155 | reordering a four-entry row twice gives the row back |
| Proposals.SwapCornersInvolution | frcnn.py:155 | the reordering keeps the rows x 4 shape and applied twice gives back `proposal_box` |
| Proposals.RoiTensor | frcnn.py:154-155 | a fresh zero array of `proposal_box`'s shape whose contents are the reordered proposals |
| Annotate.RoundHalfUp | frcnn.py:190-193 | `floor(x + 0.5)` is the integer r with r <= x + 0.5 < r + 1 |
| Annotate.Trunc | frcnn.py:181 | `int(c)` truncates toward zero: the integer part of c, on either side of 0 |
| Annotate.PlaceBox | frcnn.py:184-193 | top >= 0, left >= 0, bottom <= height and right <= width; each side is its padded, rounded value unless that crossed its one clamp |
| Annotate.PlaceBoxInside | frcnn.py:185-193 | a box whose padded sides lie inside the image is drawn at the padded coordinates, each within half a pixel |
| Annotate.PlaceBoxMayInvert | frcnn.py:190-193 | the clamps are one-sided: a box below the image is drawn with top 295 > bottom 100 |
| Annotate.Thickness | frcnn.py:177 | the thickness is >= 1 and equals 2 * (height // width + 1) |
| Annotate.TextOrigin | frcnn.py:202-205 | x is `left`; y is `top - label_h` when that is >= 0 and `top + 1` otherwise; y >= 0 whenever top >= 0 |
| Annotate.TextOriginBounds | frcnn.py:202-205 | 0 <= y <= top + 1, and the text sits above the top edge exactly when the label height fits there |
| Annotate.Outline | frcnn.py:207-210 | the frame has exactly `thickness` rectangles, the i-th inset by i on every side |
| Annotate.OutlineNested | frcnn.py:207-210 | consecutive rectangles are nested one pixel apart, and the first is the box itself |
| Annotate.DrawOutline | frcnn.py:207-210 | the `for i in range(thickness)` loop draws exactly the rectangles of `Outline`, in order |
| Frcnn.FrameFor | frcnn.py:167-213 | columns 0-3 give the box (scaled by width and height), column 4 the score, column 5 the class; the box lies inside the image on its clamped sides; the label box starts at the text origin and has the label's size |
| Frcnn.ClassifierOutput | frcnn.py:152-162 | the proposal boxes are the proposals without their score column, one row per proposal and four columns; the classifier is handed those boxes with each row's corners swapped ([1, 0, 3, 2] of the score-free columns) as the ROIs, the score-free boxes themselves, and the confidence threshold |
| Frcnn.FRCNN.GetDefaults | frcnn.py:33-38 | a known attribute gives `_defaults[n]`; anything else gives the string "Unrecognized attribute name '" + n + "'" |
| Frcnn.GetDefaultsKnown | frcnn.py:26-31 | the four defaults: the model and classes paths, confidence 0.5, iou 0.3 |
| Frcnn.GetDefaultsUnknown | frcnn.py:37-38 | the message for an unknown attribute is never a default value, and the attribute's name can be read back from it |
| Frcnn.FRCNN.constructor | frcnn.py:43-70 | the settings always equal `_defaults` whatever `kwargs` holds; the `.h5` assertion of `generate` always holds; `num_classes = len(class_names) + 1` |
| Frcnn.FRCNN.DetectImage | frcnn.py:118-216 | proposals are asked for at the ceil(side/16) feature size; the classifier gets the reordered ROIs and the score-free boxes; one frame per detection, none when there are no detections |
| Frcnn.FRCNN.DrawDetections | frcnn.py:177-216 | the loop over detections yields exactly one frame per detection, in order, all with the image's thickness |
| Frcnn.FRCNN.DrawDetection | frcnn.py:180-215 | one pass of that loop yields exactly `FrameFor` of its row |
| Split.Shuffle | train.py:165-166 | the shuffle permutes the lines in place: the multiset of lines is unchanged |
| Split.SplitLines | train.py:168-169 | training followed by validation is exactly the list; validation has len // 10 lines; together they have all the lines |
| Split.SplitPositions | train.py:168-201 | training takes the first positions and validation the rest; validation is not larger than training and gets one line per full ten |
| Split.PrepareLines | train.py:163-169 | after the shuffle and the split, the two parts together hold exactly the file's lines (as a multiset), a tenth of them for validation |
| Split.ComputeEpochSizes | train.py:204-208 | the error occurs exactly when either part is smaller than one batch; otherwise each size is that part's length floor-divided by the batch size, and at least 1 |
| Split.TooSmallBelowTwenty | train.py:204-208 | with two images per batch, the error occurs exactly for fewer than 20 lines; otherwise there are at least 9 training batches and 1 validation batch |
| Epochs.BatchGenerator.constructor | train.py:199-202 | a new generator has yielded nothing yet |
| Epochs.BatchGenerator.Next | train.py:37 | yields the next batch in order, and nothing once exhausted |
| Epochs.ExpectedTargets | train.py:51-56 | image i's three targets are the three parts of `calc_iou` on its score-free proposals and its boxes; one entry per image |
| Epochs.AccumulateTargets | train.py:48-56 | the append loop builds exactly `ExpectedTargets`: `len(X)` entries per list, in image order |
| Epochs.RunPhase | train.py:37-39 | processes min(cap, remaining) batches, the next ones in order, and consumes min(cap + 1, remaining) of them |
| Epochs.FitOneEpoch | train.py:28-116 | at most `epoch_size` training and `epoch_size_val` validation batches, exactly that many when the generators have them |
| Epochs.BatchesInEpoch | train.py:37-39 | the number of batches epoch k of a phase trains on: never more than the cap or the generator's length, exactly the cap while the generator still holds k * (cap + 1) + cap batches, and 0 once k * (cap + 1) reaches its length |
| Epochs.RunStage | train.py:199-212 | new generators for one phase; the error when too small, else one run per epoch `first .. last-1` in order, the one at offset k training on exactly `BatchesInEpoch(len, epoch_size, k)` batches and validating on `BatchesInEpoch(len_val, epoch_size_val, k)`, since the generators carry over from epoch to epoch |
| Epochs.Train | train.py:178-253 | either the error, or epochs 0..99 each run once in increasing order, shown out of 50 for the first phase and out of 100 for the second; epoch e trains and validates on the `BatchesInEpoch` counts at offset e in the first phase and e - 50 in the second, whose generators start afresh |
| Epochs.TrainFromFile | train.py:163-253 | the whole run fails exactly for fewer than 20 lines, and otherwise runs epochs 0..99 once each, in order |

## Left out

- Anchor generation, `detection_out_rpn`, `detection_out_classifier`, NMS and `calc_iou`: their code is not part of this model. They are the parameters `proposeRegions`, `classify`, `proposals` and `calcIou`.
- TensorFlow and Keras: the models, `tf.function` wrappers, weight loading and saving, `compile`, `predict_on_batch`, `train_on_batch` and `test_on_batch`. These are foreign library calls. The RPN targets `Y` only feed `train_on_batch` and are not modelled.
- PIL: RGB conversion, `get_new_img_size` and resizing (the resized size is a parameter), preprocessing, fonts, and the drawing calls themselves. Drawing is recorded as the rectangles passed to `draw.rectangle`; the label's pixel size is the parameter `labelSize`.
- HSV colour generation, the loss running sums and averages, learning-rate decay, and `LossHistory`. These are floating-point bookkeeping.
- The box rescale `boxes * old_width` uses exact reals. Floating-point rounding and the `int32` cast of very large coordinates are not modelled.
- File and console I/O: `_get_class` (the stripped class names are a constructor parameter), reading the annotation file (its lines are a parameter), `write_log`, tqdm, `print`, GPU setup, and `get_FPS` timing. The proposal step of `get_FPS` is the same as `RoiTensor`.
- `np.random.seed(10101)`: the shuffle's random source is the parameter `draw`. Only the permutation property is claimed, not numpy's exact order.
- The `Generator` class is not part of this model. Its output, for each list of lines, is the parameter `generate`, taken as a finite sequence of batches. The `get_img_output_length` that train.py imports from the training utilities is not part of this model either; it sits inside `proposals`.
- Frcnn.FRCNN.DetectImage: requires every detection's class index to lie in `0 .. len(class_names) - 1`, so Python's wrap-around for negative indices is not modelled. It also requires the decoders' output to have the shapes numpy needs: at least one image, equal row counts across images, 5 proposal columns, and at least 6 detection columns.
- Epochs.RunPhase: requires each of the next `cap` batches to carry proposals and boxes for each of its images; for a batch that does not, the source fails with an `IndexError` from numpy, and the model does not describe that failure.
- Epochs.FitOneEpoch: requires the same of the next `epoch_size` training and `epoch_size_val` validation batches, for the same reason.
- Epochs.RunStage: requires every batch of the training and the validation generator to carry proposals and boxes for each of its images, not only the ones the capped loops actually process. Epochs.Train requires the same.
- Epochs.TrainFromFile: requires it of the generator's output over every list of lines, because the lines each part receives depend on the shuffle.
- Epochs.RunPhase: the RPN is taken as one fixed function `proposals` of the batch, although `train_on_batch` updates its weights between the batches of a training loop. So the targets the model gives for two identical batches are equal, where the program's may differ. The same holds for Epochs.FitOneEpoch, whose contents clauses rest on it. The batch counts do not depend on it.
- Split.SplitLines: models `int(len(lines) * 0.1)` as `len(lines) // 10`; floating-point multiplication is not modelled, and the two differ for some lengths of about 10^16 (9999999999999819 lines give one validation line more).
