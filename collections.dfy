/**
 * The wrappers returned for a batch of images. `show` and `save` call the element's own
 * `show` or `save` once per element, in list order; `save` first creates the output folder
 * and writes element i to `pred_{i}.jpg` inside it. For detection, the ground-truth
 * arguments are validated against the number of images before anything is drawn.
 */
module Collections {
  import opened Wrappers
  import opened Canvas
  import opened Effects
  import opened Detection
  import Classification
  import Segmentation

  // Output file names.

  /** The decimal digit `d`. */
  function DigitChar(d: nat): char
    requires d < 10
  {
    ('0' as int + d) as char
  }

  /** `str(n)` for a non-negative integer: its decimal digits, most significant first. */
  function NatToString(n: nat): (s: string)
    ensures 1 <= |s| && (10 <= n ==> 2 <= |s|)
  {
    if n < 10 then [DigitChar(n)] else NatToString(n / 10) + [DigitChar(n % 10)]
  }

  /** Different numbers are written differently. */
  lemma {:induction false} NatToStringInjective(a: nat, b: nat)
    requires NatToString(a) == NatToString(b)
    ensures a == b
  {
    var s := NatToString(a);
    if 10 <= a && 10 <= b {
      assert DigitChar(a % 10) == s[|s| - 1] == DigitChar(b % 10);
      assert NatToString(a / 10) == s[..|s| - 1] == NatToString(b / 10);
      NatToStringInjective(a / 10, b / 10);
    } else if a < 10 && b < 10 {
      assert DigitChar(a) == s[0] == DigitChar(b);
    }
  }

  /** `f"pred_{i}.jpg"`. */
  function PredFileName(i: nat): (name: string)
    ensures |name| == |NatToString(i)| + 9
    ensures name[..5] == "pred_" && name[5..|name| - 4] == NatToString(i) && name[|name| - 4..] == ".jpg"
  {
    "pred_" + NatToString(i) + ".jpg"
  }

  /** Every element of a collection is saved to a file of its own. */
  lemma PredFileNamesDistinct(i: nat, j: nat)
    requires i != j
    ensures PredFileName(i) != PredFileName(j)
  {
    if PredFileName(i) == PredFileName(j) {
      var s := PredFileName(i);
      assert NatToString(i) == s[5..|s| - 4] == NatToString(j);
      NatToStringInjective(i, j);
    }
  }

  /** The path of element i: `os.path.join(output_folder, f"pred_{i}.jpg")`. */
  function ElementPath(folder: string, i: nat): FilePath
  {
    Joined(folder, PredFileName(i))
  }

  // Classification.

  datatype ImagesClassificationPrediction = ImagesClassificationPrediction(
    predictions: seq<Classification.ImageClassificationPrediction>)
  {
    /** The element calls of `show`, one per image, in list order. */
    function ShowCalls(showConfidence: bool): (calls: seq<Result<Effect, Error>>)
      ensures |calls| == |predictions|
    {
      seq(|predictions|, i requires 0 <= i < |predictions| => predictions[i].Show(showConfidence))
    }

    /** The element calls of `save`: element i is saved to `pred_{i}.jpg` in `folder`. */
    function SaveCalls(folder: string, showConfidence: bool): (calls: seq<Result<Effect, Error>>)
      ensures |calls| == |predictions|
    {
      seq(|predictions|, i requires 0 <= i < |predictions| => predictions[i].Save(ElementPath(folder, i), showConfidence))
    }

    /** `show`: each image's `show`, in list order, until one raises. */
    method Show(showConfidence: bool) returns (o: Outcome)
      ensures o == FanOut([], ShowCalls(showConfidence))
    {
      o := RunCalls([], ShowCalls(showConfidence));
    }

    /** `save`: create the folder when it is named, then each image's `save`, in list order. */
    method Save(folder: string, showConfidence: bool) returns (o: Outcome)
      ensures o == FanOut(MakeDirsIf(folder), SaveCalls(folder, showConfidence))
    {
      var effects: seq<Effect> := [];
      if folder != "" {
        effects := [MakeDirs(folder)];
      }
      o := RunCalls(effects, SaveCalls(folder, showConfidence));
    }

    /** Each image written by `save` goes to its own positional file name, in list order. */
    lemma SaveWritesPositionalFiles(folder: string, showConfidence: bool, i: nat)
      requires |MakeDirsIf(folder)| + i < |FanOut(MakeDirsIf(folder), SaveCalls(folder, showConfidence)).effects|
      ensures var saved := FanOut(MakeDirsIf(folder), SaveCalls(folder, showConfidence)).effects[|MakeDirsIf(folder)| + i];
        && saved.SaveImage?
        && saved.path == ElementPath(folder, i)
        && predictions[i].Draw(showConfidence) == Ok(saved.image)
    {
      FanOutEffect(MakeDirsIf(folder), SaveCalls(folder, showConfidence), i);
    }
  }

  // Detection.

  /** A ground-truth argument: absent, one array for a single image, or a list of arrays. */
  datatype TargetArg<T> = Absent | Bare(single: T) | PerImage(arrays: seq<T>)
  {
    /** The argument as a list: a bare array becomes a list of one. */
    function AsList(): (l: seq<T>)
      requires !Absent?
      ensures Bare? ==> l == [single]
      ensures PerImage? ==> l == arrays
    {
      if Bare? then [single] else arrays
    }
  }

  /** The ground truth of each image after validation: `None` placeholders when none was given. */
  datatype PerImageTargets = PerImageTargets(bboxes: seq<Option<seq<BoxF>>>, classIds: seq<Option<seq<int>>>)

  /** All three ground-truth arguments are left out. */
  predicate AllAbsent(bboxes: TargetArg<seq<BoxF>>, format: Option<string>, classIds: TargetArg<seq<int>>)
  {
    bboxes.Absent? && format.None? && classIds.Absent?
  }

  /** All three ground-truth arguments are given. */
  predicate AllGiven(bboxes: TargetArg<seq<BoxF>>, format: Option<string>, classIds: TargetArg<seq<int>>)
  {
    !bboxes.Absent? && format.Some? && !classIds.Absent?
  }

  datatype ImagesDetectionPrediction = ImagesDetectionPrediction(predictions: seq<ImageDetectionPrediction>)
  {
    /** `_check_target_args`: all three arguments or none; as many box arrays as class-id arrays
        (checked first) and as images; `None` for every image when none are given. */
    function CheckTargetArgs(bboxes: TargetArg<seq<BoxF>>, format: Option<string>, classIds: TargetArg<seq<int>>)
      : (r: Result<PerImageTargets, Error>)
      ensures r == Err(PartialTargets) <==> !AllAbsent(bboxes, format, classIds) && !AllGiven(bboxes, format, classIds)
      ensures AllGiven(bboxes, format, classIds) ==>
        var nb, nc := |bboxes.AsList()|, |classIds.AsList()|;
        && (nb != nc ==> r == Err(TargetLengthMismatch(nb, nc)))
        && (nb == nc != |predictions| ==> r == Err(TargetImageCountMismatch(nb, |predictions|)))
        && (r.Ok? <==> nb == nc == |predictions|)
      ensures r.Ok? ==> |r.value.bboxes| == |r.value.classIds| == |predictions|
      ensures r.Ok? && AllAbsent(bboxes, format, classIds) ==>
        forall i :: 0 <= i < |predictions| ==> r.value.bboxes[i].None? && r.value.classIds[i].None?
      ensures r.Ok? && AllGiven(bboxes, format, classIds) ==>
        forall i :: 0 <= i < |predictions| ==>
          r.value.bboxes[i] == Some(bboxes.AsList()[i]) && r.value.classIds[i] == Some(classIds.AsList()[i])
    {
      var n := |predictions|;
      if AllAbsent(bboxes, format, classIds) then
        Ok(PerImageTargets(seq(n, _ => None), seq(n, _ => None)))
      else if !AllGiven(bboxes, format, classIds) then
        Err(PartialTargets)
      else
        var boxes, ids := bboxes.AsList(), classIds.AsList();
        if |boxes| != |ids| then Err(TargetLengthMismatch(|boxes|, |ids|))
        else if |boxes| != n then Err(TargetImageCountMismatch(|boxes|, n))
        else Ok(PerImageTargets(seq(n, i requires 0 <= i < n => Some(boxes[i])),
                                seq(n, i requires 0 <= i < n => Some(ids[i]))))
    }

    /** A bare array for boxes and for class ids is accepted exactly when there is a single image. */
    lemma BareArraysFitOneImage(boxes: seq<BoxF>, format: string, ids: seq<int>)
      ensures CheckTargetArgs(Bare(boxes), Some(format), Bare(ids)).Ok? <==> |predictions| == 1
    {
    }

    /** The ground-truth arguments handed to the `draw` of image `i`. */
    function TargetsOf(checked: PerImageTargets, format: Option<string>, i: nat): Targets
      requires i < |checked.bboxes| && i < |checked.classIds|
    {
      Targets(checked.bboxes[i], format, checked.classIds[i])
    }

    /** Every image can be drawn with its own ground truth. */
    predicate DrawableWith(style: DetectionStyle, checked: PerImageTargets, format: Option<string>)
    {
      && |checked.bboxes| == |checked.classIds| == |predictions|
      && forall i :: 0 <= i < |predictions| ==> predictions[i].Drawable(style, TargetsOf(checked, format, i))
    }

    /** The element calls of `show`: image i with its own ground truth. */
    function ShowCalls(style: DetectionStyle, checked: PerImageTargets, format: Option<string>, convert: BoxConverter)
      : (calls: seq<Result<Effect, Error>>)
      requires DrawableWith(style, checked, format)
      ensures |calls| == |predictions|
    {
      seq(|predictions|, i requires 0 <= i < |predictions| && DrawableWith(style, checked, format) =>
        ShowResult(predictions[i].Rendering(style, TargetsOf(checked, format, i), convert)))
    }

    /** What `show` does: nothing but the error when validation fails, else each image's `show`. */
    function ShowOutcome(style: DetectionStyle, bboxes: TargetArg<seq<BoxF>>, format: Option<string>,
                         classIds: TargetArg<seq<int>>, convert: BoxConverter): (o: Outcome)
      requires CheckTargetArgs(bboxes, format, classIds).Ok? ==>
        DrawableWith(style, CheckTargetArgs(bboxes, format, classIds).value, format)
      ensures CheckTargetArgs(bboxes, format, classIds).Err? ==>
        o == Outcome([], Some(CheckTargetArgs(bboxes, format, classIds).error))
      ensures |o.effects| <= |predictions|
      ensures o.failure.None? ==> CheckTargetArgs(bboxes, format, classIds).Ok? && |o.effects| == |predictions|
    {
      match CheckTargetArgs(bboxes, format, classIds)
      case Err(e) => Outcome([], Some(e))
      case Ok(checked) => FanOut([], ShowCalls(style, checked, format, convert))
    }

    /** `show`: validate the ground truth, then show each image with its own share of it. */
    method Show(style: DetectionStyle, bboxes: TargetArg<seq<BoxF>>, format: Option<string>,
                classIds: TargetArg<seq<int>>, convert: BoxConverter) returns (o: Outcome)
      requires CheckTargetArgs(bboxes, format, classIds).Ok? ==>
        DrawableWith(style, CheckTargetArgs(bboxes, format, classIds).value, format)
      ensures o == ShowOutcome(style, bboxes, format, classIds, convert)
    {
      var checkedOrError := CheckTargetArgs(bboxes, format, classIds);
      if checkedOrError.Err? {
        return Outcome([], Some(checkedOrError.error));
      }
      o := RunCalls([], ShowCalls(style, checkedOrError.value, format, convert));
    }

    /** The element calls of `save`: image i, without ground truth, to `pred_{i}.jpg` in `folder`. */
    function SaveCalls(folder: string, style: DetectionStyle, convert: BoxConverter): (calls: seq<Result<Effect, Error>>)
      requires forall i :: 0 <= i < |predictions| ==> predictions[i].Drawable(style, NoTargets)
      ensures |calls| == |predictions|
    {
      seq(|predictions|, i requires 0 <= i < |predictions| && predictions[i].Drawable(style, NoTargets) =>
        SaveResult(predictions[i].Rendering(style, NoTargets, convert), ElementPath(folder, i)))
    }

    /** What `save` does: create the folder, validate the ground truth, then save each image
        without it. */
    function SaveOutcome(folder: string, style: DetectionStyle, bboxes: TargetArg<seq<BoxF>>, format: Option<string>,
                         classIds: TargetArg<seq<int>>, convert: BoxConverter): (o: Outcome)
      requires forall i :: 0 <= i < |predictions| ==> predictions[i].Drawable(style, NoTargets)
      ensures |MakeDirsIf(folder)| <= |o.effects| <= |MakeDirsIf(folder)| + |predictions|
      ensures o.effects[..|MakeDirsIf(folder)|] == MakeDirsIf(folder)
      ensures CheckTargetArgs(bboxes, format, classIds).Err? ==>
        o == Outcome(MakeDirsIf(folder), Some(CheckTargetArgs(bboxes, format, classIds).error))
      ensures o.failure.None? ==>
        CheckTargetArgs(bboxes, format, classIds).Ok? && |o.effects| == |MakeDirsIf(folder)| + |predictions|
    {
      match CheckTargetArgs(bboxes, format, classIds)
      case Err(e) => Outcome(MakeDirsIf(folder), Some(e))
      case Ok(_) => FanOut(MakeDirsIf(folder), SaveCalls(folder, style, convert))
    }

    /** `save`: the folder is created before the ground truth is validated. */
    method Save(folder: string, style: DetectionStyle, bboxes: TargetArg<seq<BoxF>>, format: Option<string>,
                classIds: TargetArg<seq<int>>, convert: BoxConverter) returns (o: Outcome)
      requires forall i :: 0 <= i < |predictions| ==> predictions[i].Drawable(style, NoTargets)
      ensures o == SaveOutcome(folder, style, bboxes, format, classIds, convert)
    {
      var effects: seq<Effect> := [];
      if folder != "" {
        effects := [MakeDirs(folder)];
      }
      var checkedOrError := CheckTargetArgs(bboxes, format, classIds);
      if checkedOrError.Err? {
        return Outcome(effects, Some(checkedOrError.error));
      }
      o := RunCalls(effects, SaveCalls(folder, style, convert));
    }

    /** `save` validates the ground truth and then ignores it: any two valid ground truths give
        the same saves. */
    lemma SaveDropsTargets(folder: string, style: DetectionStyle, convert: BoxConverter,
                           bboxes: TargetArg<seq<BoxF>>, format: Option<string>, classIds: TargetArg<seq<int>>,
                           bboxes': TargetArg<seq<BoxF>>, format': Option<string>, classIds': TargetArg<seq<int>>)
      requires forall i :: 0 <= i < |predictions| ==> predictions[i].Drawable(style, NoTargets)
      requires CheckTargetArgs(bboxes, format, classIds).Ok? && CheckTargetArgs(bboxes', format', classIds').Ok?
      ensures SaveOutcome(folder, style, bboxes, format, classIds, convert)
           == SaveOutcome(folder, style, bboxes', format', classIds', convert)
      ensures SaveOutcome(folder, style, bboxes, format, classIds, convert)
           == SaveOutcome(folder, style, Absent, None, Absent, convert)
    {
    }

    /** Each image written by `save` is drawn without ground truth and goes to its own positional file name. */
    lemma SaveWritesPositionalFiles(folder: string, style: DetectionStyle, convert: BoxConverter, i: nat)
      requires forall k :: 0 <= k < |predictions| ==> predictions[k].Drawable(style, NoTargets)
      requires |MakeDirsIf(folder)| + i < |FanOut(MakeDirsIf(folder), SaveCalls(folder, style, convert)).effects|
      ensures var saved := FanOut(MakeDirsIf(folder), SaveCalls(folder, style, convert)).effects[|MakeDirsIf(folder)| + i];
        && saved.SaveImage?
        && saved.path == ElementPath(folder, i)
        && predictions[i].Rendering(style, NoTargets, convert) == Ok(saved.image)
    {
      var calls := SaveCalls(folder, style, convert);
      FanOutEffect(MakeDirsIf(folder), calls, i);
      assert calls[i] == SaveResult(predictions[i].Rendering(style, NoTargets, convert), ElementPath(folder, i));
    }

    /** Invalid ground truth stops `save` after the folder is created and before any image is saved. */
    lemma SaveRejectsInvalidTargets(folder: string, style: DetectionStyle, convert: BoxConverter,
                                    bboxes: TargetArg<seq<BoxF>>, format: Option<string>, classIds: TargetArg<seq<int>>)
      requires forall i :: 0 <= i < |predictions| ==> predictions[i].Drawable(style, NoTargets)
      requires CheckTargetArgs(bboxes, format, classIds).Err?
      ensures SaveOutcome(folder, style, bboxes, format, classIds, convert).effects == MakeDirsIf(folder)
    {
    }
  }

  // Segmentation.

  datatype ImagesSegmentationPrediction = ImagesSegmentationPrediction(
    predictions: seq<Segmentation.ImageSegmentationPrediction>)
  {
    /** The element calls of `show`: each image with the default transparency, in list order. */
    function ShowCalls(colorMapping: Option<seq<Color>>): (calls: seq<Effect>)
      ensures |calls| == |predictions|
    {
      seq(|predictions|, i requires 0 <= i < |predictions| => predictions[i].Show(Segmentation.DefaultAlpha, colorMapping))
    }

    /** The element calls of `save`: image i to `pred_{i}.jpg` in `folder`, in list order. */
    function SaveCalls(folder: string, colorMapping: Option<seq<Color>>): (calls: seq<Effect>)
      ensures |calls| == |predictions|
    {
      seq(|predictions|, i requires 0 <= i < |predictions| =>
        predictions[i].Save(ElementPath(folder, i), Segmentation.DefaultAlpha, colorMapping))
    }

    /** `show`: each image's `show`, in list order. */
    method Show(colorMapping: Option<seq<Color>>) returns (effects: seq<Effect>)
      ensures effects == ShowCalls(colorMapping)
    {
      effects := RunAll([], ShowCalls(colorMapping));
    }

    /** `save`: create the folder when it is named, then save each image, in list order. */
    method Save(folder: string, colorMapping: Option<seq<Color>>) returns (effects: seq<Effect>)
      ensures effects == MakeDirsIf(folder) + SaveCalls(folder, colorMapping)
    {
      effects := [];
      if folder != "" {
        effects := [MakeDirs(folder)];
      }
      effects := RunAll(effects, SaveCalls(folder, colorMapping));
    }

    /** Each image is written to its own file, with the model's class names and the default transparency. */
    lemma SaveWritesPositionalFiles(folder: string, colorMapping: Option<seq<Color>>)
      ensures var calls := SaveCalls(folder, colorMapping);
        forall i, j :: 0 <= i < j < |calls| ==> calls[i].path != calls[j].path
    {
      var calls := SaveCalls(folder, colorMapping);
      forall i, j | 0 <= i < j < |calls|
        ensures calls[i].path != calls[j].path
      {
        PredFileNamesDistinct(i, j);
      }
    }
  }
}
