/**
 * `ImageClassificationPrediction`: one image and the class a classification model chose
 * for it. `draw` writes the class name and the confidence on a copy of the image.
 */
module Classification {
  import opened Wrappers
  import opened Canvas
  import opened Effects

  /** The model output for one image: the chosen class index and its confidence. */
  datatype ClassificationPrediction = ClassificationPrediction(labelIndex: int, confidence: real)

  /** Python's `s[i]`: a negative index counts from the end; any other index outside `s` raises. */
  function PyIndex<T>(s: seq<T>, i: int): (r: Option<T>)
    ensures r.Some? <==> -|s| <= i < |s|
  {
    if 0 <= i < |s| then Some(s[i])
    else if -|s| <= i < 0 then Some(s[|s| + i])
    else None
  }

  datatype ImageClassificationPrediction = ImageClassificationPrediction(
    image: Image,
    prediction: ClassificationPrediction,
    classNames: seq<string>)
  {
    /** `draw`: the label of the predicted class and its confidence drawn on a copy of the image.
        `show_confidence` is accepted and not used: the confidence is always passed on. */
    function Draw(showConfidence: bool): (r: Result<Image, Error>)
      ensures r.Ok? <==> -|classNames| <= prediction.labelIndex < |classNames|
      ensures r.Err? ==> r.error == ClassIndexOutOfRange(prediction.labelIndex)
      ensures r.Ok? ==> && SameShape(r.value, image) && r.value.ground == image.ground
                        && r.value.marks == image.marks + [LabelMark(PyIndex(classNames, prediction.labelIndex).value, prediction.confidence)]
    {
      match PyIndex(classNames, prediction.labelIndex)
      case None => Err(ClassIndexOutOfRange(prediction.labelIndex))
      case Some(name) => Ok(DrawLabel(image, name, prediction.confidence))
    }

    /** The drawn label is the vocabulary entry at the predicted index, counted from the end when negative. */
    lemma DrawWritesClassName(showConfidence: bool)
      requires -|classNames| <= prediction.labelIndex < |classNames|
      ensures var name := if prediction.labelIndex >= 0 then classNames[prediction.labelIndex] else classNames[|classNames| + prediction.labelIndex];
        Draw(showConfidence).value.marks == image.marks + [LabelMark(name, prediction.confidence)]
    {
    }

    /** Whether the confidence is asked for or not, the same image is drawn. */
    lemma DrawIgnoresShowConfidence()
      ensures Draw(true) == Draw(false)
    {
    }

    /** `show`: draw, then display. */
    function Show(showConfidence: bool): (r: Result<Effect, Error>)
      ensures r.Ok? <==> Draw(showConfidence).Ok?
      ensures r.Ok? ==> r.value == ShowImage(Draw(showConfidence).value)
    {
      ShowResult(Draw(showConfidence))
    }

    /** `save`: draw, then write the image to `path`. */
    function Save(path: FilePath, showConfidence: bool): (r: Result<Effect, Error>)
      ensures r.Ok? <==> Draw(showConfidence).Ok?
      ensures r.Ok? ==> r.value == SaveImage(Draw(showConfidence).value, path)
    {
      SaveResult(Draw(showConfidence), path)
    }
  }
}
