/**
 * `ImageDetectionPrediction`: one image, the boxes a detection model found on it and the
 * model's class names. `draw` filters the classes to show, draws the predicted boxes by
 * increasing confidence on a copy of the image and, when ground-truth boxes are given,
 * composes predictions and ground truth side by side on two enlarged white canvases.
 */
module Detection {
  import opened Wrappers
  import opened Canvas
  import opened Effects
  import opened Ordering

  /** The model output for one image: three parallel sequences, one entry per detected
      object, and the `(height, width)` of the image the coordinates refer to. */
  datatype DetectionPrediction = DetectionPrediction(
    bboxesXyxy: seq<BoxF>,
    labels: seq<int>,
    confidence: seq<real>,
    imageHeight: nat,
    imageWidth: nat)
  {
    predicate Valid()
    {
      |bboxesXyxy| == |labels| && |labels| == |confidence|
    }
  }

  /** The keyword arguments of `draw` that control how boxes look and which classes are drawn. */
  datatype DetectionStyle = DetectionStyle(
    boxThickness: Option<nat>,
    showConfidence: bool,
    colorMapping: Option<seq<Color>>,
    classNames: Option<seq<string>>)

  /** The ground-truth arguments of `draw`: boxes, the name of their format, class ids. */
  datatype Targets = Targets(bboxes: Option<seq<BoxF>>, format: Option<string>, classIds: Option<seq<int>>)

  const NoTargets: Targets := Targets(None, None, None)

  /** A converter for callers that pass no ground truth: it is never consulted. */
  const NoConversion: BoxConverter := (boxes: seq<BoxF>, h: nat, w: nat, format: Option<string>) => None

  /** The box-format conversion collaborator: converts boxes of the named format to absolute
      xyxy for an image of the given height and width; `None` when it rejects the format name. */
  type BoxConverter = (seq<BoxF>, nat, nat, Option<string>) -> Option<seq<BoxF>>

  // Which classes are shown.

  /** The class ids to show, or the error listing the requested names the model does not know. */
  function ClassIdsToShow(vocab: seq<string>, classNames: Option<seq<string>>): (r: Result<set<nat>, Error>)
    ensures r.Err? <==> exists name :: name in RequestedClassNames(vocab, classNames) && name !in vocab
    ensures r.Err? ==> && r.error.UnknownClassNames?
                       && (forall name :: name in r.error.invalid <==> name in RequestedClassNames(vocab, classNames) && name !in vocab)
    ensures r.Ok? ==> forall i: nat :: i in r.value <==> i < |vocab| && vocab[i] in RequestedClassNames(vocab, classNames)
  {
    var requested := RequestedClassNames(vocab, classNames);
    var invalid := set name | name in requested && name !in vocab;
    if invalid != {} then Err(UnknownClassNames(invalid))
    else
      assert forall name :: name in requested ==> name in vocab by {
        forall name | name in requested ensures name in vocab {
          assert name !in vocab ==> name in invalid;
        }
      }
      Ok(set i: nat | i < |vocab| && vocab[i] in requested)
  }

  /** The names of the shown ids are exactly the requested names. */
  lemma ShownIdsNameTheRequest(vocab: seq<string>, classNames: Option<seq<string>>)
    requires ClassIdsToShow(vocab, classNames).Ok?
    ensures var shown := ClassIdsToShow(vocab, classNames).value;
      (set i | i in shown && i < |vocab| :: vocab[i]) == (set name | name in RequestedClassNames(vocab, classNames))
  {
    var shown := ClassIdsToShow(vocab, classNames).value;
    var requested := RequestedClassNames(vocab, classNames);
    forall name | name in requested
      ensures name in (set i | i in shown && i < |vocab| :: vocab[i])
    {
      var i :| 0 <= i < |vocab| && vocab[i] == name;
      assert i in shown;
    }
  }

  /** Without a request every class of the vocabulary is shown. */
  lemma DefaultShowsWholeVocabulary(vocab: seq<string>, classNames: Option<seq<string>>)
    requires classNames.None? || classNames.value == []
    ensures ClassIdsToShow(vocab, classNames).Ok?
    ensures forall i: nat :: i in ClassIdsToShow(vocab, classNames).value <==> i < |vocab|
  {
  }

  // Filtering a drawing order by class.

  /** The entries of `order` whose label is shown, in the order of `order`. */
  function ShownOnly(order: seq<nat>, labels: seq<int>, shown: set<nat>): (d: seq<nat>)
    requires InBounds(order, |labels|)
    ensures forall k :: 0 <= k < |d| ==> d[k] < |labels| && labels[d[k]] in shown
  {
    if order == [] then []
    else
      var last := order[|order| - 1];
      ShownOnly(order[..|order| - 1], labels, shown) + (if labels[last] in shown then [last] else [])
  }

  /** The filtered order draws only entries of `order`. */
  lemma {:induction false} ShownOnlyFrom(order: seq<nat>, labels: seq<int>, shown: set<nat>)
    requires InBounds(order, |labels|)
    ensures forall k :: 0 <= k < |ShownOnly(order, labels, shown)| ==> ShownOnly(order, labels, shown)[k] in order
  {
    if order != [] {
      var init := order[..|order| - 1];
      ShownOnlyFrom(init, labels, shown);
      assert order == init + [order[|order| - 1]];
    }
  }

  /** A shown entry occurs in the filtered order as often as in `order`; any other entry not at all. */
  ghost predicate CountsFiltered(d: seq<nat>, order: seq<nat>, labels: seq<int>, shown: set<nat>)
  {
    var filtered: multiset<nat> := multiset(d);
    var all: multiset<nat> := multiset(order);
    forall i: nat :: filtered[i] == (if i < |labels| && labels[i] in shown then all[i] else 0)
  }

  /** Each position of a shown class occurs once in `d`, any other position not at all. */
  ghost predicate DrawnOnce(d: seq<nat>, labels: seq<int>, shown: set<nat>)
  {
    var drawn: multiset<nat> := multiset(d);
    forall i: nat :: drawn[i] == (if i < |labels| && labels[i] in shown then 1 else 0)
  }

  lemma {:induction false} ShownOnlyCounts(order: seq<nat>, labels: seq<int>, shown: set<nat>)
    requires InBounds(order, |labels|)
    ensures CountsFiltered(ShownOnly(order, labels, shown), order, labels, shown)
  {
    if order != [] {
      var init := order[..|order| - 1];
      var last := order[|order| - 1];
      ShownOnlyCounts(init, labels, shown);
      var kept: seq<nat> := if labels[last] in shown then [last] else [];
      assert ShownOnly(order, labels, shown) == ShownOnly(init, labels, shown) + kept;
      assert order == init + [last];
      CountsStep(ShownOnly(init, labels, shown), kept, init, last, labels, shown);
    }
  }

  /** Appending one entry to the order and, when it is shown, to the filtered order keeps the counts. */
  lemma CountsStep(d: seq<nat>, kept: seq<nat>, init: seq<nat>, last: nat, labels: seq<int>, shown: set<nat>)
    requires CountsFiltered(d, init, labels, shown)
    requires last < |labels| && kept == if labels[last] in shown then [last] else []
    ensures CountsFiltered(d + kept, init + [last], labels, shown)
  {
    var before: multiset<nat> := multiset(d);
    var added: multiset<nat> := multiset(kept);
    var allBefore: multiset<nat> := multiset(init);
    var lastOnly: multiset<nat> := multiset{last};
    assert multiset(d + kept) == before + added;
    assert multiset(init + [last]) == allBefore + lastOnly;
    forall i: nat
      ensures (before + added)[i] == (if i < |labels| && labels[i] in shown then (allBefore + lastOnly)[i] else 0)
    {
      if i < |labels| && labels[i] in shown {
        assert before[i] == allBefore[i];
      } else {
        assert before[i] == 0;
      }
    }
  }

  lemma {:induction false} ShownOnlyKeepsOrder(order: seq<nat>, labels: seq<int>, shown: set<nat>, conf: seq<real>)
    requires SortedBy(order, conf)
    requires InBounds(order, |labels|)
    ensures SortedBy(ShownOnly(order, labels, shown), conf)
  {
    if order != [] {
      var init := order[..|order| - 1];
      var last := order[|order| - 1];
      ShownOnlyKeepsOrder(init, labels, shown, conf);
      ShownOnlyFrom(init, labels, shown);
      var d := ShownOnly(init, labels, shown);
      forall k | 0 <= k < |d|
        ensures conf[d[k]] <= conf[last]
      {
        var m :| 0 <= m < |init| && init[m] == d[k];
        assert order[m] == d[k];
      }
    }
  }

  /** Extending the order by one entry extends the filtered order by that entry when it is shown. */
  lemma ShownOnlyStep(order: seq<nat>, k: nat, labels: seq<int>, shown: set<nat>)
    requires k < |order| && InBounds(order, |labels|)
    ensures ShownOnly(order[..k + 1], labels, shown)
         == ShownOnly(order[..k], labels, shown) + (if labels[order[k]] in shown then [order[k]] else [])
  {
    assert order[..k + 1][..k] == order[..k];
  }

  /** The rows `0 .. t-1` whose class id is shown, in row order (`range(t)` filtered by class). */
  function ShownRows(t: nat, ids: seq<int>, shown: set<nat>): (d: seq<nat>)
    requires t <= |ids|
    ensures forall k :: 0 <= k < |d| ==> d[k] < t && ids[d[k]] in shown
  {
    if t == 0 then [] else ShownRows(t - 1, ids, shown) + (if ids[t - 1] in shown then [t - 1] else [])
  }

  /** Positions below `n`, strictly increasing. */
  predicate IncreasingBelow(d: seq<nat>, n: nat)
  {
    && (forall k :: 0 <= k < |d| ==> d[k] < n)
    && (forall j, k :: 0 <= j < k < |d| ==> d[j] < d[k])
  }

  /** Rows are filtered in row order: each row at most once, in increasing order. */
  lemma {:induction false} ShownRowsIncrease(t: nat, ids: seq<int>, shown: set<nat>)
    requires t <= |ids|
    ensures IncreasingBelow(ShownRows(t, ids, shown), t)
  {
    if t > 0 {
      ShownRowsIncrease(t - 1, ids, shown);
      var prev := ShownRows(t - 1, ids, shown);
      var d := ShownRows(t, ids, shown);
      forall j, k | 0 <= j < k < |d|
        ensures d[j] < d[k]
      {
        assert d[j] == prev[j];
        if k < |prev| {
          assert d[k] == prev[k];
        }
      }
    }
  }

  /** A row is kept exactly when its class id is shown. */
  lemma {:induction false} ShownRowsMembership(t: nat, ids: seq<int>, shown: set<nat>)
    requires t <= |ids|
    ensures forall r: nat :: r in ShownRows(t, ids, shown) <==> r < t && ids[r] in shown
  {
    if t > 0 {
      ShownRowsMembership(t - 1, ids, shown);
    }
  }

  // The side-by-side composition.

  /** One half of the composition: `picture` pasted at (60, 10) on a white canvas enlarged to
      `CanvasHeight(h)` x `CanvasWidth(w)`, captioned at (w / 4, 30). */
  function Panel(picture: Image, caption: string, h: nat, w: nat, ch: nat): (panel: Image)
    requires picture.height == h && picture.width == w && picture.channels == ch && PasteFits(h, w)
    ensures panel.height == CanvasHeight(h) && panel.width == CanvasWidth(w) && panel.channels == ch
    ensures panel.ground == White
    ensures panel.marks == [Pasted(60, 10, picture), Caption(caption, w / 4, 30)]
  {
    PutText(Paste(WhiteCanvas(CanvasHeight(h), CanvasWidth(w), ch), picture, PaddingTop, PaddingLeft),
            caption, w / 4, 30)
  }

  /** Predictions and ground truth side by side, each on a canvas 1/20 wider and 1/8 taller. */
  function SideBySide(predictions: Image, targets: Image): (r: Image)
    requires SameShape(predictions, targets) && PasteFits(targets.height, targets.width)
    ensures r.height == targets.height + targets.height / 8
    ensures r.width == 2 * (targets.width + targets.width / 20)
    ensures r.channels == targets.channels
    ensures r.marks == []
    ensures r.ground.Beside?
    ensures var left, right := r.ground.left, r.ground.right;
      && left.height == right.height == r.height && left.width == right.width == r.width / 2
      && left.ground == White && right.ground == White
      && left.marks == [Pasted(60, 10, predictions), Caption("Predictions", targets.width / 4, 30)]
      && right.marks == [Pasted(60, 10, targets), Caption("Ground Truth", targets.width / 4, 30)]
  {
    var h, w, ch := targets.height, targets.width, targets.channels;
    HConcat(Panel(predictions, "Predictions", h, w, ch), Panel(targets, "Ground Truth", h, w, ch))
  }

  // One image with its detections.

  datatype ImageDetectionPrediction = ImageDetectionPrediction(
    image: Image,
    prediction: DetectionPrediction,
    classNames: seq<string>)
  {
    predicate Valid()
    {
      prediction.Valid()
    }

    /** What `draw` needs of its arguments: a colour for every class and, when ground truth
        is given, an image large enough for the (60, 10) paste offset. */
    predicate Drawable(style: DetectionStyle, targets: Targets)
    {
      && Valid()
      && ColorsCover(style.colorMapping, |classNames|)
      && (targets.bboxes.Some? && targets.bboxes.value != [] ==> PasteFits(image.height, image.width))
    }

    /** Every shown class has a name and a colour. */
    predicate ShownFits(shown: set<nat>, colors: seq<Color>)
    {
      forall c :: c in shown ==> c < |classNames| && c < |colors|
    }

    /** The ground-truth boxes in absolute xyxy: converted when there are any, passed through otherwise. */
    function ConvertTargets(targets: Targets, convert: BoxConverter): (r: Result<seq<BoxF>, Error>)
      ensures r.Ok? && r.value != [] ==> targets.bboxes.Some? && targets.bboxes.value != []
      ensures r.Err? ==> r.error == UnknownBoxFormat(targets.format)
    {
      var boxes := targets.bboxes.GetOr([]);
      if boxes == [] then Ok(boxes)
      else
        match convert(boxes, prediction.imageHeight, prediction.imageWidth, targets.format)
        case None => Err(UnknownBoxFormat(targets.format))
        case Some(xyxy) => Ok(xyxy)
    }

    /** The box drawn for prediction `i`: class name and (optionally) confidence as title. */
    function PredictionMark(i: nat, shown: set<nat>, colors: seq<Color>, style: DetectionStyle): Mark
      requires Valid() && ShownFits(shown, colors)
      requires i < |prediction.labels| && prediction.labels[i] in shown
    {
      var c := prediction.labels[i] as nat;
      var score := if style.showConfidence then Some(prediction.confidence[i]) else None;
      BoxMark(c, Scored(classNames[c], score), colors[c], style.boxThickness, ToPixels(prediction.bboxesXyxy[i]))
    }

    /** The boxes drawn for the predictions `drawn`, in that order. */
    function PredictionMarks(drawn: seq<nat>, shown: set<nat>, colors: seq<Color>, style: DetectionStyle): (marks: seq<Mark>)
      requires Valid() && ShownFits(shown, colors)
      requires forall k :: 0 <= k < |drawn| ==> drawn[k] < |prediction.labels| && prediction.labels[drawn[k]] in shown
      ensures |marks| == |drawn|
      ensures forall k :: 0 <= k < |drawn| ==> marks[k] == PredictionMark(drawn[k], shown, colors, style)
    {
      seq(|drawn|, k requires 0 <= k < |drawn| && Valid() && ShownFits(shown, colors)
                     && drawn[k] < |prediction.labels| && prediction.labels[drawn[k]] in shown =>
        PredictionMark(drawn[k], shown, colors, style))
    }

    lemma PredictionMarksAppend(drawn: seq<nat>, i: nat, shown: set<nat>, colors: seq<Color>, style: DetectionStyle)
      requires Valid() && ShownFits(shown, colors)
      requires forall k :: 0 <= k < |drawn| ==> drawn[k] < |prediction.labels| && prediction.labels[drawn[k]] in shown
      requires i < |prediction.labels| && prediction.labels[i] in shown
      ensures PredictionMarks(drawn + [i], shown, colors, style)
           == PredictionMarks(drawn, shown, colors, style) + [PredictionMark(i, shown, colors, style)]
    {
    }

    /** The box drawn for ground-truth row `t`: class name only. */
    function TargetMark(t: nat, xyxy: seq<BoxF>, ids: seq<int>, shown: set<nat>, colors: seq<Color>, style: DetectionStyle): Mark
      requires ShownFits(shown, colors)
      requires t < |xyxy| && t < |ids| && ids[t] in shown
    {
      var c := ids[t] as nat;
      BoxMark(c, Plain(classNames[c]), colors[c], style.boxThickness, ToPixels(xyxy[t]))
    }

    /** The boxes drawn for the ground-truth rows `drawn`, in that order. */
    function TargetMarks(drawn: seq<nat>, xyxy: seq<BoxF>, ids: seq<int>, shown: set<nat>, colors: seq<Color>, style: DetectionStyle): (marks: seq<Mark>)
      requires ShownFits(shown, colors)
      requires forall k :: 0 <= k < |drawn| ==> drawn[k] < |xyxy| && drawn[k] < |ids| && ids[drawn[k]] in shown
      ensures |marks| == |drawn|
      ensures forall k :: 0 <= k < |drawn| ==> marks[k] == TargetMark(drawn[k], xyxy, ids, shown, colors, style)
    {
      seq(|drawn|, k requires 0 <= k < |drawn| && ShownFits(shown, colors)
                     && drawn[k] < |xyxy| && drawn[k] < |ids| && ids[drawn[k]] in shown =>
        TargetMark(drawn[k], xyxy, ids, shown, colors, style))
    }

    lemma TargetMarksAppend(drawn: seq<nat>, t: nat, xyxy: seq<BoxF>, ids: seq<int>, shown: set<nat>, colors: seq<Color>, style: DetectionStyle)
      requires ShownFits(shown, colors)
      requires forall k :: 0 <= k < |drawn| ==> drawn[k] < |xyxy| && drawn[k] < |ids| && ids[drawn[k]] in shown
      requires t < |xyxy| && t < |ids| && ids[t] in shown
      ensures TargetMarks(drawn + [t], xyxy, ids, shown, colors, style)
           == TargetMarks(drawn, xyxy, ids, shown, colors, style) + [TargetMark(t, xyxy, ids, shown, colors, style)]
    {
    }

    /** The predictions drawn, in drawing order: `np.argsort` of the confidences, shown classes only. */
    function DrawnPredictions(shown: set<nat>): seq<nat>
      requires Valid()
    {
      ShownOnly(ArgSort(prediction.confidence), prediction.labels, shown)
    }

    /** A copy of the image with the shown predictions drawn on it. */
    function PredictionsImage(shown: set<nat>, colors: seq<Color>, style: DetectionStyle): Image
      requires Valid() && ShownFits(shown, colors)
    {
      image.(marks := image.marks + PredictionMarks(DrawnPredictions(shown), shown, colors, style))
    }

    /** The ground-truth rows drawn, in drawing order: row order, shown classes only. */
    function DrawnTargets(xyxy: seq<BoxF>, ids: seq<int>, shown: set<nat>): seq<nat>
      requires |xyxy| <= |ids|
    {
      ShownRows(|xyxy|, ids, shown)
    }

    /** A copy of the image with the shown ground-truth boxes drawn on it, in row order. */
    function TargetsImage(xyxy: seq<BoxF>, ids: seq<int>, shown: set<nat>, colors: seq<Color>, style: DetectionStyle): Image
      requires ShownFits(shown, colors) && |xyxy| <= |ids|
    {
      image.(marks := image.marks + TargetMarks(DrawnTargets(xyxy, ids, shown), xyxy, ids, shown, colors, style))
    }

    /** The image `draw` returns, or the error it raises. */
    function Rendering(style: DetectionStyle, targets: Targets, convert: BoxConverter): (r: Result<Image, Error>)
      requires Drawable(style, targets)
      ensures r.Err? ==> r.error.UnknownClassNames? || r.error.UnknownBoxFormat? || r.error.MissingTargetClassId?
      ensures r.Ok? ==> r.value.channels == image.channels
    {
      match ClassIdsToShow(classNames, style.classNames)
      case Err(e) => Err(e)
      case Ok(shown) =>
        match ConvertTargets(targets, convert)
        case Err(e) => Err(e)
        case Ok(xyxy) =>
          var colors := ResolveColors(style.colorMapping, |classNames|);
          var predictions := PredictionsImage(shown, colors, style);
          if xyxy == [] then Ok(predictions)
          else
            var ids := targets.classIds.GetOr([]);
            if |ids| < |xyxy| then Err(MissingTargetClassId(|ids|))
            else Ok(SideBySide(predictions, TargetsImage(xyxy, ids, shown, colors, style)))
    }

    /** Every prediction of a shown class is drawn exactly once, none of a hidden class, in order of
        non-decreasing confidence. */
    lemma DrawnPredictionsByConfidence(shown: set<nat>)
      requires Valid()
      ensures SortedBy(DrawnPredictions(shown), prediction.confidence)
      ensures DrawnOnce(DrawnPredictions(shown), prediction.labels, shown)
    {
      var order := ArgSort(prediction.confidence);
      ArgSortSorts(prediction.confidence);
      ShownOnlyKeepsOrder(order, prediction.labels, shown, prediction.confidence);
      ShownOnlyCounts(order, prediction.labels, shown);
    }

    /** Ground-truth rows are drawn in row order, and exactly the rows of a shown class. */
    lemma DrawnTargetsInRowOrder(xyxy: seq<BoxF>, ids: seq<int>, shown: set<nat>)
      requires |xyxy| <= |ids|
      ensures IncreasingBelow(DrawnTargets(xyxy, ids, shown), |xyxy|)
      ensures forall t: nat :: t in DrawnTargets(xyxy, ids, shown) <==> t < |xyxy| && ids[t] in shown
    {
      ShownRowsIncrease(|xyxy|, ids, shown);
      ShownRowsMembership(|xyxy|, ids, shown);
    }

    /** A requested class name the model does not know is reported before the targets are looked at. */
    lemma RenderingRejectsUnknownClassNames(style: DetectionStyle, targets: Targets, convert: BoxConverter)
      requires Drawable(style, targets)
      ensures (exists name :: name in RequestedClassNames(classNames, style.classNames) && name !in classNames)
          <==> Rendering(style, targets, convert).Err? && Rendering(style, targets, convert).error.UnknownClassNames?
    {
    }

    /** Without ground-truth boxes `draw` returns the predictions drawn on a copy of the image:
        same shape and picture, the image's own marks followed by the box of each drawn prediction,
        in drawing order. */
    lemma RenderingWithoutTargets(style: DetectionStyle, targets: Targets, convert: BoxConverter)
      requires Drawable(style, targets)
      requires ClassIdsToShow(classNames, style.classNames).Ok?
      requires targets.bboxes.None? || targets.bboxes.value == []
      ensures var r := Rendering(style, targets, convert);
        var shown := ClassIdsToShow(classNames, style.classNames).value;
        && r.Ok?
        && SameShape(r.value, image) && r.value.ground == image.ground
        && |r.value.marks| == |image.marks| + |DrawnPredictions(shown)|
        && r.value.marks[..|image.marks|] == image.marks
        && r.value.marks == image.marks + PredictionMarks(DrawnPredictions(shown), shown, ResolveColors(style.colorMapping, |classNames|), style)
    {
      var shown := ClassIdsToShow(classNames, style.classNames).value;
      var colors := ResolveColors(style.colorMapping, |classNames|);
      var marks := image.marks + PredictionMarks(DrawnPredictions(shown), shown, colors, style);
      assert marks[..|image.marks|] == image.marks;
    }

    /** With ground-truth boxes in a format the converter accepts, `draw` either raises at the first
        row without a class id, or returns predictions and ground truth side by side, each pasted at
        (60, 10) on a white canvas 1/8 taller and 1/20 wider than the image: on the left the drawn
        predictions, on the right the boxes of the shown ground-truth rows in row order. */
    lemma RenderingWithTargets(style: DetectionStyle, targets: Targets, convert: BoxConverter)
      requires Drawable(style, targets)
      requires ClassIdsToShow(classNames, style.classNames).Ok?
      requires targets.bboxes.Some? && targets.bboxes.value != []
      requires var converted := convert(targets.bboxes.value, prediction.imageHeight, prediction.imageWidth, targets.format);
        converted.Some? && |converted.value| == |targets.bboxes.value|
      ensures var r := Rendering(style, targets, convert);
        var rows, ids := |targets.bboxes.value|, targets.classIds.GetOr([]);
        var xyxy := convert(targets.bboxes.value, prediction.imageHeight, prediction.imageWidth, targets.format).value;
        var shown := ClassIdsToShow(classNames, style.classNames).value;
        var colors := ResolveColors(style.colorMapping, |classNames|);
        && (|ids| < rows ==> r == Err(MissingTargetClassId(|ids|)))
        && (rows <= |ids| ==>
              && r.Ok?
              && r.value.height == image.height + image.height / 8
              && r.value.width == 2 * (image.width + image.width / 20)
              && r.value.channels == image.channels
              && r.value.ground.Beside?
              && r.value.ground.left.marks == [Pasted(60, 10, PredictionsImage(shown, colors, style)), Caption("Predictions", image.width / 4, 30)]
              && r.value.ground.right.marks == [Pasted(60, 10, TargetsImage(xyxy, ids, shown, colors, style)), Caption("Ground Truth", image.width / 4, 30)])
    {
    }

    /** Without ground truth the converter is never called. */
    lemma RenderingWithoutTargetsIgnoresConverter(style: DetectionStyle, convert: BoxConverter, convert': BoxConverter)
      requires Drawable(style, NoTargets)
      ensures Rendering(style, NoTargets, convert) == Rendering(style, NoTargets, convert')
    {
    }

    /** A box format the converter rejects is reported as an error once the class names are valid. */
    lemma RenderingRejectsUnknownFormat(style: DetectionStyle, targets: Targets, convert: BoxConverter)
      requires Drawable(style, targets)
      requires ClassIdsToShow(classNames, style.classNames).Ok?
      requires targets.bboxes.Some? && targets.bboxes.value != []
      requires convert(targets.bboxes.value, prediction.imageHeight, prediction.imageWidth, targets.format).None?
      ensures Rendering(style, targets, convert) == Err(UnknownBoxFormat(targets.format))
    {
    }

    /** `draw`: boxes are drawn one call at a time on copies of the image. */
    method Draw(style: DetectionStyle, targets: Targets, convert: BoxConverter) returns (r: Result<Image, Error>)
      requires Drawable(style, targets)
      ensures r == Rendering(style, targets, convert)
    {
      var shownOrError := ClassIdsToShow(classNames, style.classNames);
      if shownOrError.Err? {
        return Err(shownOrError.error);
      }
      var shown := shownOrError.value;
      var converted := ConvertTargets(targets, convert);
      if converted.Err? {
        return Err(converted.error);
      }
      var xyxy := converted.value;
      var ids := targets.classIds.GetOr([]);
      var colors := ResolveColors(style.colorMapping, |classNames|);

      var drawing := DrawPredictions(shown, colors, style);
      if xyxy == [] {
        return Ok(drawing);
      }
      var targetDrawing :- DrawTargets(xyxy, ids, shown, colors, style);
      r := Ok(SideBySide(drawing, targetDrawing));
    }

    /** The loop over `np.argsort(confidence)` that draws the shown predictions. */
    method DrawPredictions(shown: set<nat>, colors: seq<Color>, style: DetectionStyle) returns (drawing: Image)
      requires Valid() && ShownFits(shown, colors)
      ensures drawing == PredictionsImage(shown, colors, style)
    {
      drawing := DrawInOrder(ArgSort(prediction.confidence), shown, colors, style);
    }

    /** Draws the predictions at the positions `order` whose class is shown, in that order. */
    method DrawInOrder(order: seq<nat>, shown: set<nat>, colors: seq<Color>, style: DetectionStyle) returns (drawing: Image)
      requires Valid() && ShownFits(shown, colors)
      requires InBounds(order, |prediction.labels|)
      ensures drawing == image.(marks := image.marks + PredictionMarks(ShownOnly(order, prediction.labels, shown), shown, colors, style))
    {
      drawing := image;
      ghost var drawn: seq<nat> := [];
      var k := 0;
      while k < |order|
        invariant k <= |order| && drawn == ShownOnly(order[..k], prediction.labels, shown)
        invariant drawing == image.(marks := image.marks + PredictionMarks(drawn, shown, colors, style))
      {
        var i := order[k];
        var classId := prediction.labels[i];
        ShownOnlyStep(order, k, prediction.labels, shown);
        if classId in shown {
          PredictionMarksAppend(drawn, i, shown, colors, style);
          var score := if style.showConfidence then Some(prediction.confidence[i]) else None;
          drawing := DrawBox(drawing, classId as nat, Scored(classNames[classId], score), colors[classId],
                             style.boxThickness, ToPixels(prediction.bboxesXyxy[i]));
          drawn := drawn + [i];
        }
        k := k + 1;
      }
      assert order[..k] == order;
    }

    /** The loop over the ground-truth rows; it raises at the first row without a class id. */
    method DrawTargets(xyxy: seq<BoxF>, ids: seq<int>, shown: set<nat>, colors: seq<Color>, style: DetectionStyle)
      returns (r: Result<Image, Error>)
      requires ShownFits(shown, colors)
      ensures |ids| < |xyxy| ==> r == Err(MissingTargetClassId(|ids|))
      ensures |xyxy| <= |ids| ==> r == Ok(TargetsImage(xyxy, ids, shown, colors, style))
    {
      var drawing := image;
      ghost var rows: seq<nat> := [];
      var t := 0;
      while t < |xyxy|
        invariant t <= |xyxy| && t <= |ids|
        invariant rows == ShownRows(t, ids, shown)
        invariant drawing == image.(marks := image.marks + TargetMarks(rows, xyxy, ids, shown, colors, style))
      {
        if t == |ids| {
          return Err(MissingTargetClassId(t));
        }
        var classId := ids[t];
        if classId in shown {
          TargetMarksAppend(rows, t, xyxy, ids, shown, colors, style);
          drawing := DrawBox(drawing, classId as nat, Plain(classNames[classId]), colors[classId],
                             style.boxThickness, ToPixels(xyxy[t]));
          rows := rows + [t];
        }
        t := t + 1;
      }
      r := Ok(drawing);
    }

    /** `show`: draw, then display. */
    method Show(style: DetectionStyle, targets: Targets, convert: BoxConverter) returns (r: Result<Effect, Error>)
      requires Drawable(style, targets)
      ensures r == ShowResult(Rendering(style, targets, convert))
    {
      var drawn := Draw(style, targets, convert);
      r := if drawn.Ok? then Ok(ShowImage(drawn.value)) else Err(drawn.error);
    }

    /** `save`: draw, then write the image to `path`. */
    method Save(path: FilePath, style: DetectionStyle, targets: Targets, convert: BoxConverter) returns (r: Result<Effect, Error>)
      requires Drawable(style, targets)
      ensures r == SaveResult(Rendering(style, targets, convert), path)
    {
      var drawn := Draw(style, targets, convert);
      r := if drawn.Ok? then Ok(SaveImage(drawn.value, path)) else Err(drawn.error);
    }
  }
}
