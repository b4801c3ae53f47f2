/**
 * The side effects of the wrappers and the errors they raise: display and persistence
 * calls, recorded in the order they are made, and the fan-out over the elements of a
 * collection that stops at the first element that raises.
 */
module Effects {
  import opened Wrappers
  import opened Canvas

  /** An output path: given by the caller, or `os.path.join(folder, name)`. */
  datatype FilePath = Given(path: string) | Joined(folder: string, name: string)

  datatype Effect =
    | MakeDirs(folder: string)
    | ShowImage(image: Image)
    | SaveImage(image: Image, path: FilePath)
    | ShowVideo(window: string, frames: seq<Image>, fps: int)
    | SaveVideo(path: FilePath, frames: seq<Image>, fps: int)

  /** The errors the wrappers raise (all `ValueError` in the source, except the last three). */
  datatype Error =
    | UnknownClassNames(invalid: set<string>)
    | PartialTargets
    | TargetLengthMismatch(bboxes: nat, classIds: nat)
    | TargetImageCountMismatch(bboxes: nat, images: nat)
    | UnknownBoxFormat(format: Option<string>)
    | MissingTargetClassId(index: nat)
    | ClassIndexOutOfRange(classIndex: int)

  /** How many leading results of a fan-out succeed before the first one that raises. */
  function OkPrefix<T>(rs: seq<Result<T, Error>>): (n: nat)
    ensures n <= |rs|
    ensures forall i :: 0 <= i < n ==> rs[i].Ok?
    ensures n < |rs| ==> rs[n].Err?
  {
    if rs == [] || rs[0].Err? then 0 else 1 + OkPrefix(rs[1..])
  }

  /** The first failing result is the first error: no other position fits that description. */
  lemma {:induction false} OkPrefixIsFirstError<T>(rs: seq<Result<T, Error>>, i: nat)
    requires i <= |rs| && forall k :: 0 <= k < i ==> rs[k].Ok?
    requires i == |rs| || rs[i].Err?
    ensures OkPrefix(rs) == i
  {
    if i > 0 {
      OkPrefixIsFirstError(rs[1..], i - 1);
    }
  }

  /** The values of results that all succeeded, in order. */
  function Values<T>(rs: seq<Result<T, Error>>): (vs: seq<T>)
    requires forall k :: 0 <= k < |rs| ==> rs[k].Ok?
    ensures |vs| == |rs| && forall k :: 0 <= k < |rs| ==> vs[k] == rs[k].value
  {
    if rs == [] then [] else Values(rs[..|rs| - 1]) + [rs[|rs| - 1].value]
  }

  /** What a fan-out did: the calls it made, in order, and the error that stopped it, if any. */
  datatype Outcome = Outcome(effects: seq<Effect>, failure: Option<Error>)

  /** Calls `before`, then the element calls `calls` in order until the first one that raises. */
  function FanOut(before: seq<Effect>, calls: seq<Result<Effect, Error>>): (o: Outcome)
    ensures |o.effects| == |before| + OkPrefix(calls) && o.effects[..|before|] == before
    ensures forall i :: 0 <= i < OkPrefix(calls) ==> o.effects[|before| + i] == calls[i].value
    ensures o.failure.None? <==> forall i :: 0 <= i < |calls| ==> calls[i].Ok?
    ensures o.failure.Some? ==> o.failure.value == calls[OkPrefix(calls)].error
  {
    var n := OkPrefix(calls);
    var made := before + Values(calls[..n]);
    assert made[..|before|] == before;
    Outcome(made, if n == |calls| then None else Some(calls[n].error))
  }

  /** Every element effect of a fan-out is the value of a call that succeeded, at the same position. */
  lemma FanOutEffect(before: seq<Effect>, calls: seq<Result<Effect, Error>>, i: nat)
    requires |before| + i < |FanOut(before, calls).effects|
    ensures calls[i].Ok? && FanOut(before, calls).effects[|before| + i] == calls[i].value
  {
  }

  /** One more successful call extends the calls made. */
  lemma ValuesStep<T>(rs: seq<Result<T, Error>>, i: nat)
    requires i < |rs| && forall k :: 0 <= k <= i ==> rs[k].Ok?
    ensures Values(rs[..i + 1]) == Values(rs[..i]) + [rs[i].value]
  {
    assert rs[..i + 1][..i] == rs[..i];
  }

  /** The per-element loop of a fan-out: after `before`, each call in order; the first one
      that raises ends the loop with its error. */
  method RunCalls(before: seq<Effect>, calls: seq<Result<Effect, Error>>) returns (o: Outcome)
    ensures o == FanOut(before, calls)
  {
    var effects := before;
    var i := 0;
    while i < |calls|
      invariant i <= |calls| && forall k :: 0 <= k < i ==> calls[k].Ok?
      invariant effects == before + Values(calls[..i])
    {
      if calls[i].Err? {
        OkPrefixIsFirstError(calls, i);
        return Outcome(effects, Some(calls[i].error));
      }
      ValuesStep(calls, i);
      effects := effects + [calls[i].value];
      i := i + 1;
    }
    OkPrefixIsFirstError(calls, i);
    assert calls[..i] == calls;
    o := Outcome(effects, None);
  }

  /** The per-element loop of a fan-out whose calls cannot raise: after `before`, each call in order. */
  method RunAll(before: seq<Effect>, calls: seq<Effect>) returns (effects: seq<Effect>)
    ensures effects == before + calls
  {
    effects := before;
    var i := 0;
    while i < |calls|
      invariant i <= |calls| && effects == before + calls[..i]
    {
      assert calls[..i + 1] == calls[..i] + [calls[i]];
      effects := effects + [calls[i]];
      i := i + 1;
    }
    assert calls[..i] == calls;
  }

  /** `os.makedirs(folder)` when the folder name is not empty. */
  function MakeDirsIf(folder: string): (effects: seq<Effect>)
    ensures |effects| <= 1 && (effects == [] <==> folder == "")
    ensures forall e :: e in effects ==> e == MakeDirs(folder)
  {
    if folder != "" then [MakeDirs(folder)] else []
  }

  /** `show_image(draw(...))`: the error of `draw`, or the display call. */
  function ShowResult(drawn: Result<Image, Error>): Result<Effect, Error>
  {
    match drawn
    case Ok(img) => Ok(ShowImage(img))
    case Err(e) => Err(e)
  }

  /** `save_image(draw(...), path)`: the error of `draw`, or the write call. */
  function SaveResult(drawn: Result<Image, Error>, path: FilePath): Result<Effect, Error>
  {
    match drawn
    case Ok(img) => Ok(SaveImage(img, path))
    case Err(e) => Err(e)
  }
}
