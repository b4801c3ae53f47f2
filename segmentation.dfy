/**
 * `ImageSegmentationPrediction`: one image and the per-pixel class mask a segmentation
 * model produced. `draw` resolves the list of class names, sizes the colour palette after
 * it and overlays the mask on a copy of the image.
 */
module Segmentation {
  import opened Wrappers
  import opened Canvas
  import opened Effects

  /** The model output for one image: a class index per pixel. */
  datatype SegmentationPrediction = SegmentationPrediction(segmentation: seq<seq<int>>)

  /** The default transparency of the overlay in `show` and `save`. */
  const DefaultAlpha: real := 0.6

  /** The class list handed to the overlay: the request, or the vocabulary when the request is
      missing or empty, with `"background"` put in front of a list holding a single name. */
  function ResolveClassNames(vocab: seq<string>, classNames: Option<seq<string>>): (names: seq<string>)
    ensures |names| != 1
    ensures var base := RequestedClassNames(vocab, classNames);
      && |names| == (if |base| == 1 then 2 else |base|)
      && names[|names| - |base|..] == base
      && (|base| == 1 ==> names[0] == "background")
  {
    var base := RequestedClassNames(vocab, classNames);
    if |base| == 1 then ["background"] + base else base
  }

  /** A model trained on one class is drawn with two: the background and that class. */
  lemma SingleClassGetsBackground(vocab: seq<string>)
    requires |vocab| == 1
    ensures ResolveClassNames(vocab, None) == ["background", vocab[0]]
  {
  }

  datatype ImageSegmentationPrediction = ImageSegmentationPrediction(
    image: Image,
    prediction: SegmentationPrediction,
    classNames: seq<string>)
  {
    /** `draw`: one overlay on a copy of the image, whose class count is the length of the resolved
        class list and whose default palette has one colour per class of that list. */
    function Draw(alpha: real, colorMapping: Option<seq<Color>>, classNames': Option<seq<string>>): (r: Image)
      ensures SameShape(r, image) && r.ground == image.ground
      ensures |r.marks| == |image.marks| + 1 && r.marks[..|image.marks|] == image.marks
      ensures var m := r.marks[|image.marks|];
        && m.MaskOverlay?
        && m.mask == prediction.segmentation && m.alpha == alpha
        && m.classNames == ResolveClassNames(classNames, classNames')
        && m.numClasses == |m.classNames|
        && (colorMapping.None? || colorMapping.value == [] ==> m.colors == GenerateColorMapping(m.numClasses))
        && (colorMapping.Some? && colorMapping.value != [] ==> m.colors == colorMapping.value)
    {
      var names := ResolveClassNames(classNames, classNames');
      var drawn := OverlaySegmentation(image, prediction.segmentation, |names|, alpha,
                                       ResolveColors(colorMapping, |names|), names);
      assert drawn.marks[..|image.marks|] == image.marks;
      drawn
    }

    /** Passing the model's own class names is the same as passing none. */
    lemma OwnClassNamesAreTheDefault(alpha: real, colorMapping: Option<seq<Color>>)
      ensures Draw(alpha, colorMapping, Some(classNames)) == Draw(alpha, colorMapping, None)
    {
    }

    /** `show`: draw with the model's class names, then display. */
    function Show(alpha: real, colorMapping: Option<seq<Color>>): (e: Effect)
      ensures e.ShowImage? && e.image == Draw(alpha, colorMapping, Some(classNames))
    {
      ShowImage(Draw(alpha, colorMapping, Some(classNames)))
    }

    /** `save`: draw with the model's class names, then write the image to `path`. */
    function Save(path: FilePath, alpha: real, colorMapping: Option<seq<Color>>): (e: Effect)
      ensures e.SaveImage? && e.path == path && e.image == Draw(alpha, colorMapping, Some(classNames))
    {
      SaveImage(Draw(alpha, colorMapping, Some(classNames)), path)
    }
  }
}
