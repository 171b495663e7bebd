/** The `FRCNN` detector object: its default settings, its constructor, the
    feature-map size it asks the anchor generator for, and `detect_image`, the
    glue between the proposal decoder, the classifier and the drawing of the
    detections.  Networks, anchor generation and box decoding are parameters. */
module Frcnn {
  import opened Tensors
  import FeatureMap
  import Proposals
  import opened Annotate

  /** A configuration value: the defaults hold paths and thresholds. */
  datatype Setting = Text(text: string) | Number(value: real)

  /** `FRCNN._defaults`. */
  const Defaults: map<string, Setting> := map[
    "model_path" := Text("model_data/voc_weights.h5"),
    "classes_path" := Text("model_data/voc_classes.txt"),
    "confidence" := Number(0.5),
    "iou" := Number(0.3)
  ]

  const UnrecognizedPrefix: string := "Unrecognized attribute name '"

  predicate EndsWith(s: string, suffix: string)
  {
    |suffix| <= |s| && s[|s| - |suffix|..] == suffix
  }

  /** What is drawn for one detection: its class name and score (the label
      text), the padded and clamped box, the rectangles of the frame, and the
      filled rectangle behind the label text, whose top-left is the text origin. */
  datatype Frame = Frame(className: string, score: real, box: Rect, outline: seq<Rect>, textBox: Rect)

  /** A decoded detection row: x1, y1, x2, y2 (relative to the image size),
      confidence, class index. */
  ghost predicate DetectionRow(row: Row, classNames: seq<string>)
  {
    |row| >= 6 && 0 <= Trunc(row[5]) < |classNames|
  }

  /** The frame drawn for detection row `row` on an image of the given size. */
  function FrameFor(row: Row, classNames: seq<string>, height: nat, width: nat, thickness: nat,
                    labelSize: (string, real) -> (nat, nat)): (f: Frame)
    requires DetectionRow(row, classNames)
    ensures f.className == classNames[Trunc(row[5])] && f.score == row[4]
    ensures f.box == PlaceBox(row[0] * width as real, row[1] * height as real,
                              row[2] * width as real, row[3] * height as real, height, width)
    ensures f.box.left >= 0 && f.box.top >= 0 && f.box.right <= width && f.box.bottom <= height
    ensures f.outline == Outline(f.box, thickness)
    ensures f.textBox.left == f.box.left && f.textBox.top >= 0
    ensures var o := TextOrigin(f.box.left, f.box.top, labelSize(f.className, f.score).1);
      f.textBox.left == o.x && f.textBox.top == o.y
    ensures f.textBox.right - f.textBox.left == labelSize(f.className, f.score).0
    ensures f.textBox.bottom - f.textBox.top == labelSize(f.className, f.score).1
  {
    var box := PlaceBox(row[0] * width as real, row[1] * height as real,
                        row[2] * width as real, row[3] * height as real, height, width);
    var className := classNames[Trunc(row[5])];
    var size := labelSize(className, row[4]);
    var origin := TextOrigin(box.left, box.top, size.1);
    Frame(className, row[4], box, Outline(box, thickness),
          Rect(origin.x, origin.y, origin.x + size.0, origin.y + size.1))
  }

  /** What the classifier stage returns for the proposals `rpn` (rows of
      [score, four coordinates]): it is given the reordered ROI tensor and the
      proposal boxes without their scores. */
  function ClassifierOutput(rpn: Tensor, rows: nat, classify: (Tensor, Tensor, real) -> Tensor, confidence: real): (r: Tensor)
    requires Shaped(rpn, rows, 5)
    ensures var boxes := DropFirstColumn3(rpn);
      && Shaped(boxes, rows, 4) && Proposals.AtLeastFourColumns(boxes)
      && (forall b, i, k :: 0 <= b < |rpn| && 0 <= i < rows && 0 <= k < 4 ==>
            && boxes[b][i][k] == rpn[b][i][k + 1]
            && Proposals.SwapCorners(boxes)[b][i][k] == rpn[b][i][Proposals.RoiOrder[k] + 1])
      && r == classify(Proposals.SwapCorners(boxes), boxes, confidence)
  {
    Proposals.ProposalBoxShape(rpn, rows);
    classify(Proposals.SwapCorners(DropFirstColumn3(rpn)), DropFirstColumn3(rpn), confidence)
  }

  class FRCNN {
    var modelPath: string
    var classesPath: string
    var confidence: real
    var iou: real
    var classNames: seq<string>
    var numClasses: nat

    /** The four configurable attributes, as `self.__dict__` holds them. */
    function Settings(): map<string, Setting>
      reads this
    {
      map["model_path" := Text(modelPath), "classes_path" := Text(classesPath),
          "confidence" := Number(confidence), "iou" := Number(iou)]
    }

    /** `get_defaults`: the default of a known attribute, and otherwise the
        error message, returned rather than raised. */
    static function GetDefaults(n: string): (v: Setting)
      ensures n in Defaults ==> v == Defaults[n]
      ensures n !in Defaults ==> v == Text(UnrecognizedPrefix + n + "'")
    {
      if n in Defaults then Defaults[n] else Text(UnrecognizedPrefix + n + "'")
    }

    /** `__init__(**kwargs)`: the settings are always the defaults, whatever
        `kwargs` holds; `classNames` are the stripped lines of the classes file.
        `generate()` checks the model path's suffix (which always holds) and
        sets the class count, background included. */
    constructor (kwargs: map<string, Setting>, classNames: seq<string>)
      ensures Settings() == Defaults
      ensures this.classNames == classNames
      ensures numClasses == |classNames| + 1
      ensures EndsWith(modelPath, ".h5")
    {
      modelPath := Defaults["model_path"].text;
      classesPath := Defaults["classes_path"].text;
      confidence := Defaults["confidence"].value;
      iou := Defaults["iou"].value;
      this.classNames := classNames;
      numClasses := |classNames| + 1;
      new;
      assert Settings() == Defaults;
    }

    /** `get_img_output_length`: the feature-map size for an input image,
        width first, each side ceil(side / 16). */
    method GetImgOutputLength(width: int, height: int) returns (featureWidth: int, featureHeight: int)
      ensures featureWidth == FeatureMap.CeilDiv(width, 16)
      ensures featureHeight == FeatureMap.CeilDiv(height, 16)
    {
      featureWidth := FeatureMap.GetOutputLength(width);
      featureHeight := FeatureMap.GetOutputLength(height);
    }

    /** `detect_image` on an image of `height` x `width` pixels that was resized
        to `resizedWidth` x `resizedHeight` for the networks.
        `proposeRegions` stands for the region-proposal network, anchor
        generation and `detection_out_rpn` given the feature-map size: one
        matrix per image with rows [score, four coordinates].  `classify` stands
        for the classifier network and `detection_out_classifier` given the
        ROI tensor, the proposal boxes and the confidence threshold.
        `labelSize` is the pixel size of the label text.  The result lists what
        is drawn on the copy of the image, one frame per detection; with no
        detection the copy is returned untouched. */
    method DetectImage(height: nat, width: nat, resizedWidth: int, resizedHeight: int,
                       proposeRegions: (int, int) -> Tensor,
                       classify: (Tensor, Tensor, real) -> Tensor,
                       labelSize: (string, real) -> (nat, nat))
      returns (frames: seq<Frame>)
      requires width >= 1
      requires var rpn := proposeRegions(FeatureMap.CeilDiv(resizedWidth, 16), FeatureMap.CeilDiv(resizedHeight, 16));
        |rpn| >= 1 && Shaped(rpn, |rpn[0]|, 5)
      requires var rpn := proposeRegions(FeatureMap.CeilDiv(resizedWidth, 16), FeatureMap.CeilDiv(resizedHeight, 16));
        var results := ClassifierOutput(rpn, |rpn[0]|, classify, confidence);
        |results| >= 1 && forall k :: 0 <= k < |results[0]| ==> DetectionRow(results[0][k], classNames)
      ensures var rpn := proposeRegions(FeatureMap.CeilDiv(resizedWidth, 16), FeatureMap.CeilDiv(resizedHeight, 16));
        var detections := ClassifierOutput(rpn, |rpn[0]|, classify, confidence)[0];
        && |frames| == |detections|
        && forall k :: 0 <= k < |detections| ==>
             frames[k] == FrameFor(detections[k], classNames, height, width, Thickness(height, width), labelSize)
    {
      var featureWidth, featureHeight := GetImgOutputLength(resizedWidth, resizedHeight);
      var rpnResults := proposeRegions(featureWidth, featureHeight);
      Proposals.ProposalBoxShape(rpnResults, |rpnResults[0]|);
      var proposalBox := DropFirstColumn3(rpnResults);
      var rois := Proposals.RoiTensor(proposalBox, |rpnResults[0]|, 4);
      var results := classify(Proposals.Contents(rois), proposalBox, confidence);
      if |results[0]| == 0 {
        return [];
      }
      frames := DrawDetections(results[0], height, width, labelSize);
    }

    /** The loop over the detections of `detect_image`, once there is at least
        one: every detection gets its frame, in the decoder's order. */
    method DrawDetections(detections: Matrix, height: nat, width: nat, labelSize: (string, real) -> (nat, nat))
      returns (frames: seq<Frame>)
      requires width >= 1
      requires forall k :: 0 <= k < |detections| ==> DetectionRow(detections[k], classNames)
      ensures |frames| == |detections|
      ensures forall k :: 0 <= k < |detections| ==>
        frames[k] == FrameFor(detections[k], classNames, height, width, Thickness(height, width), labelSize)
    {
      var thickness := Thickness(height, width);
      frames := [];
      for k := 0 to |detections|
        invariant |frames| == k
        invariant forall j :: 0 <= j < k ==>
          frames[j] == FrameFor(detections[j], classNames, height, width, thickness, labelSize)
      {
        var frame := DrawDetection(detections[k], height, width, thickness, labelSize);
        frames := frames + [frame];
      }
    }

    /** One pass of that loop: pad, round and clamp the box, place the label
        text, and draw the frame's rectangles. */
    method DrawDetection(row: Row, height: nat, width: nat, thickness: nat, labelSize: (string, real) -> (nat, nat))
      returns (frame: Frame)
      requires DetectionRow(row, classNames)
      ensures frame == FrameFor(row, classNames, height, width, thickness, labelSize)
    {
      var box := PlaceBox(row[0] * width as real, row[1] * height as real,
                          row[2] * width as real, row[3] * height as real, height, width);
      var className := classNames[Trunc(row[5])];
      var size := labelSize(className, row[4]);
      var origin := TextOrigin(box.left, box.top, size.1);
      var outline := DrawOutline(box, thickness);
      frame := Frame(className, row[4], box, outline,
                     Rect(origin.x, origin.y, origin.x + size.0, origin.y + size.1));
    }
  }

  /** The message for an unknown attribute is never a default value, and the
      attribute's name can be read back from it. */
  lemma GetDefaultsUnknown(n: string)
    requires n !in Defaults
    ensures FRCNN.GetDefaults(n) !in Defaults.Values
    ensures var m := FRCNN.GetDefaults(n).text;
      |m| == |UnrecognizedPrefix| + |n| + 1 && m[|UnrecognizedPrefix|..|m| - 1] == n
  {
    var m := FRCNN.GetDefaults(n).text;
    assert m[0] == 'U';
    assert m[|UnrecognizedPrefix|..|m| - 1] == n;
  }

  /** The four known attributes give their defaults. */
  lemma GetDefaultsKnown()
    ensures FRCNN.GetDefaults("confidence") == Number(0.5)
    ensures FRCNN.GetDefaults("iou") == Number(0.3)
    ensures FRCNN.GetDefaults("model_path") == Text("model_data/voc_weights.h5")
    ensures FRCNN.GetDefaults("classes_path") == Text("model_data/voc_classes.txt")
  {
  }
}
