/**
 * The wrappers returned for a video: one image prediction per frame and the frame rate.
 * `draw` draws every frame in order; `show` and `save` hand the drawn frames to the video
 * player or writer.
 */
module Videos {
  import opened Wrappers
  import opened Canvas
  import opened Effects
  import opened Detection
  import Segmentation

  datatype VideoDetectionPrediction = VideoDetectionPrediction(
    frames: seq<ImageDetectionPrediction>,
    fps: int,
    nFrames: int)
  {
    /** Every frame can be drawn with the given style. */
    predicate Drawable(style: DetectionStyle)
    {
      forall i :: 0 <= i < |frames| ==> frames[i].Drawable(style, NoTargets)
    }

    /** The drawn frames, one per source frame and in order; a frame whose `draw` raises holds the error. */
    function DrawnFrames(style: DetectionStyle): (drawn: seq<Result<Image, Error>>)
      requires Drawable(style)
      ensures |drawn| == |frames|
    {
      seq(|frames|, i requires 0 <= i < |frames| && Drawable(style) => frames[i].Rendering(style, NoTargets, NoConversion))
    }

    /** `draw`: each frame drawn without ground truth, in order. */
    method Draw(style: DetectionStyle) returns (drawn: seq<Result<Image, Error>>)
      requires Drawable(style)
      ensures |drawn| == |frames|
      ensures forall i :: 0 <= i < |frames| ==> drawn[i] == frames[i].Rendering(style, NoTargets, NoConversion)
    {
      drawn := [];
      var i := 0;
      while i < |frames|
        invariant i <= |frames| && |drawn| == i
        invariant forall k :: 0 <= k < i ==> drawn[k] == frames[k].Rendering(style, NoTargets, NoConversion)
      {
        var frame := frames[i].Draw(style, NoTargets, NoConversion);
        drawn := drawn + [frame];
        i := i + 1;
      }
    }

    /** The frames that reach the player or writer: those drawn before the first one that raises. */
    function PlayedFrames(style: DetectionStyle): (played: seq<Image>)
      requires Drawable(style)
      ensures |played| == OkPrefix(DrawnFrames(style))
      ensures forall i :: 0 <= i < |played| ==> played[i] == DrawnFrames(style)[i].value
    {
      var drawn := DrawnFrames(style);
      Values(drawn[..OkPrefix(drawn)])
    }

    /** The error of the first frame that raises, if any. */
    function FirstFailure(style: DetectionStyle): (failure: Option<Error>)
      requires Drawable(style)
      ensures failure.None? <==> forall i :: 0 <= i < |frames| ==> DrawnFrames(style)[i].Ok?
    {
      var drawn := DrawnFrames(style);
      var n := OkPrefix(drawn);
      if n == |drawn| then None else Some(drawn[n].error)
    }

    /** `show`: the drawn frames played in the "Detection" window at the video's frame rate. */
    method Show(style: DetectionStyle) returns (o: Outcome)
      requires Drawable(style)
      ensures o == Outcome([ShowVideo("Detection", PlayedFrames(style), fps)], FirstFailure(style))
    {
      var drawn := Draw(style);
      assert drawn == DrawnFrames(style);
      var n := OkPrefix(drawn);
      o := Outcome([ShowVideo("Detection", Values(drawn[..n]), fps)], if n == |drawn| then None else Some(drawn[n].error));
    }

    /** `save`: the drawn frames written to `path` at the video's frame rate. */
    method Save(path: FilePath, style: DetectionStyle) returns (o: Outcome)
      requires Drawable(style)
      ensures o == Outcome([SaveVideo(path, PlayedFrames(style), fps)], FirstFailure(style))
    {
      var drawn := Draw(style);
      assert drawn == DrawnFrames(style);
      var n := OkPrefix(drawn);
      o := Outcome([SaveVideo(path, Values(drawn[..n]), fps)], if n == |drawn| then None else Some(drawn[n].error));
    }

    /** When every frame can be drawn, every frame is played, each in its source position. */
    lemma AllFramesPlayed(style: DetectionStyle)
      requires Drawable(style)
      requires forall i :: 0 <= i < |frames| ==> DrawnFrames(style)[i].Ok?
      ensures |PlayedFrames(style)| == |frames|
      ensures forall i :: 0 <= i < |frames| ==> PlayedFrames(style)[i] == DrawnFrames(style)[i].value
    {
      OkPrefixIsFirstError(DrawnFrames(style), |frames|);
    }
  }

  datatype VideoSegmentationPrediction = VideoSegmentationPrediction(
    frames: seq<Segmentation.ImageSegmentationPrediction>,
    fps: int)
  {
    /** `draw`: one drawn frame per source frame, in order. */
    function Draw(alpha: real, colorMapping: Option<seq<Color>>, classNames: Option<seq<string>>): (drawn: seq<Image>)
      ensures |drawn| == |frames|
      ensures forall i :: 0 <= i < |frames| ==> drawn[i] == frames[i].Draw(alpha, colorMapping, classNames)
    {
      seq(|frames|, i requires 0 <= i < |frames| => frames[i].Draw(alpha, colorMapping, classNames))
    }

    /** `show`: the drawn frames played in the "Segmentation" window. */
    function Show(alpha: real, colorMapping: Option<seq<Color>>, classNames: Option<seq<string>>): (e: Effect)
      ensures e.ShowVideo? && e.window == "Segmentation" && e.fps == fps
      ensures |e.frames| == |frames| && e.frames == Draw(alpha, colorMapping, classNames)
    {
      ShowVideo("Segmentation", Draw(alpha, colorMapping, classNames), fps)
    }

    /** `save`: the drawn frames written to `path`. */
    function Save(path: FilePath, alpha: real, colorMapping: Option<seq<Color>>, classNames: Option<seq<string>>): (e: Effect)
      ensures e.SaveVideo? && e.path == path && e.fps == fps
      ensures |e.frames| == |frames| && e.frames == Draw(alpha, colorMapping, classNames)
    {
      SaveVideo(path, Draw(alpha, colorMapping, classNames), fps)
    }

    /** Each drawn frame keeps the shape and picture of its source frame. */
    lemma DrawKeepsFrames(alpha: real, colorMapping: Option<seq<Color>>, classNames: Option<seq<string>>)
      ensures var drawn := Draw(alpha, colorMapping, classNames);
        forall i :: 0 <= i < |frames| ==> SameShape(drawn[i], frames[i].image) && drawn[i].ground == frames[i].image.ground
    {
    }
  }
}
