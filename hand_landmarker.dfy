/** The gesture estimator hook: it holds the detector and the video element once they exist,
    runs one predict step per animation frame and writes the result into the tree store.
    The detector's output, the video's readiness state, the host's square root and the frame
    handle the host hands back are parameters of the steps. */
module HandLandmarker {
  import opened Types
  import opened Gesture
  import opened Store

  /** The setter calls one predict step makes: one strength write when the detector and the
      video are ready, none otherwise. Every one of them is of the kind the store's
      invariants allow. */
  function PredictEvents(ready: bool, result: HandLandmarkResult, sqrt: real -> real): (es: seq<Event>)
    requires ready ==> TipsPresent(result)
    ensures |es| == (if ready then 1 else 0)
    ensures forall i :: 0 <= i < |es| ==> es[i].SetStrength?
    ensures forall i :: 0 <= i < |es| ==> Admissible(es[i])
  {
    if ready then [SetStrength(DetectedStrength(result, sqrt))] else []
  }

  /** The setter calls of the video's first-decoded-frame handler: readiness set to `true`,
      then the first predict step. */
  function LoadedDataEvents(ready: bool, result: HandLandmarkResult, sqrt: real -> real): (es: seq<Event>)
    requires ready ==> TipsPresent(result)
    ensures |es| >= 1 && es[0] == SetReady(true)
    ensures es[1..] == PredictEvents(ready, result, sqrt)
    ensures forall i :: 0 <= i < |es| ==> Admissible(es[i])
  {
    [SetReady(true)] + PredictEvents(ready, result, sqrt)
  }

  /** A predict step changes only the strength, to what Step computes; textures and
      readiness are kept. */
  lemma PredictEventsRunStep(s: TreeState, ready: bool, result: HandLandmarkResult, sqrt: real -> real)
    requires ready ==> TipsPresent(result)
    ensures Run(s, PredictEvents(ready, result, sqrt))
            == s.(interactionStrength := Step(ready, result, s.interactionStrength, sqrt))
  {
  }

  /** One program callback that writes the store: a predict step, the video's loaded-data
      handler, or a photo upload completing. */
  datatype Callback =
    | PredictStep(ready: bool, result: HandLandmarkResult)
    | LoadedData(ready: bool, result: HandLandmarkResult)
    | Upload(texture: Texture)

  /** The detector's result can be read wherever the callback reads it. */
  predicate CallbackReadable(c: Callback)
  {
    match c
    case PredictStep(ready, result) => ready ==> TipsPresent(result)
    case LoadedData(ready, result) => ready ==> TipsPresent(result)
    case Upload(_) => true
  }

  /** The setter calls one callback makes. */
  function CallbackEvents(c: Callback, sqrt: real -> real): seq<Event>
    requires CallbackReadable(c)
  {
    match c
    case PredictStep(ready, result) => PredictEvents(ready, result, sqrt)
    case LoadedData(ready, result) => LoadedDataEvents(ready, result, sqrt)
    case Upload(t) => [AddTexture(t)]
  }

  /** The setter calls of a sequence of callbacks, in order. */
  function Trace(cs: seq<Callback>, sqrt: real -> real): seq<Event>
    requires forall n :: 0 <= n < |cs| ==> CallbackReadable(cs[n])
    decreases |cs|
  {
    if cs == [] then [] else CallbackEvents(cs[0], sqrt) + Trace(cs[1..], sqrt)
  }

  /** Every setter call the program's callbacks make is an admissible one. */
  lemma {:induction false} TraceAdmissible(cs: seq<Callback>, sqrt: real -> real)
    requires forall n :: 0 <= n < |cs| ==> CallbackReadable(cs[n])
    ensures forall i :: 0 <= i < |Trace(cs, sqrt)| ==> Admissible(Trace(cs, sqrt)[i])
    decreases |cs|
  {
    if cs != [] {
      TraceAdmissible(cs[1..], sqrt);
      var head := CallbackEvents(cs[0], sqrt);
      var tail := Trace(cs[1..], sqrt);
      assert Trace(cs, sqrt) == head + tail;
      forall i | 0 <= i < |head + tail|
        ensures Admissible((head + tail)[i])
      {
        if i >= |head| {
          assert (head + tail)[i] == tail[i - |head|];
        }
      }
    }
  }

  /** However predict steps, the loaded-data handler and uploads interleave, starting from
      the store's initial state the strength is in [0, 1] after every setter call, and once
      readiness is observed it holds at every later point. */
  lemma ProgramInvariants(cs: seq<Callback>, sqrt: real -> real, i: nat, j: nat)
    requires forall n :: 0 <= n < |cs| ==> CallbackReadable(cs[n])
    requires i <= j <= |Trace(cs, sqrt)|
    ensures StrengthInRange(Run(Initial(), Trace(cs, sqrt)[..j]))
    ensures Run(Initial(), Trace(cs, sqrt)[..i]).isVisionReady
            ==> Run(Initial(), Trace(cs, sqrt)[..j]).isVisionReady
  {
    TraceAdmissible(cs, sqrt);
    ProgramRunInvariants(Trace(cs, sqrt), i, j);
  }

  /** The estimator's refs: whether the detector and the video element have been attached,
      and the handle of the next scheduled animation frame. */
  class Estimator {
    const store: TreeStore
    var landmarkerLoaded: bool
    var videoAttached: bool
    var requestRef: Option<int>

    constructor (store: TreeStore)
      ensures this.store == store
      ensures !landmarkerLoaded && !videoAttached && requestRef == None
    {
      this.store := store;
      landmarkerLoaded := false;
      videoAttached := false;
      requestRef := None;
    }

    /** Whether a predict step runs the detector: the detector exists, the video element
        exists, and the video has decoded at least its current frame. */
    predicate Ready(readyState: int)
      reads this
    {
      landmarkerLoaded && videoAttached && readyState >= 2
    }

    /** The detector has been created and stored in its ref. */
    method AttachLandmarker()
      modifies this`landmarkerLoaded
      ensures landmarkerLoaded
    {
      landmarkerLoaded := true;
    }

    /** One predict step: if ready, write the detected strength (0 when no hand was found)
        into the store; in every case schedule the next frame. */
    method Predict(readyState: int, results: HandLandmarkResult, sqrt: real -> real, nextFrame: int)
      requires Ready(readyState) ==> TipsPresent(results)
      modifies store, this`requestRef
      ensures store.State() == Run(old(store.State()), PredictEvents(Ready(readyState), results, sqrt))
      ensures store.interactionStrength == Step(Ready(readyState), results, old(store.interactionStrength), sqrt)
      ensures store.userTextures == old(store.userTextures) && store.isVisionReady == old(store.isVisionReady)
      ensures requestRef == Some(nextFrame)
    {
      ghost var before := store.State();
      if landmarkerLoaded && videoAttached && readyState >= 2 {
        if results.landmarks.Some? && |results.landmarks.value| > 0 {
          var landmarks := results.landmarks.value[0];
          var thumbTip := landmarks[ThumbTip];
          var indexTip := landmarks[IndexTip];
          var distance := sqrt(SquaredDistance(thumbTip, indexTip));
          var strength := (distance - MinD) / (MaxD - MinD);
          strength := Max(0.0, Min(1.0, strength));
          store.SetInteractionStrength(strength);
        } else {
          store.SetInteractionStrength(0.0);
        }
      }
      PredictEventsRunStep(before, Ready(readyState), results, sqrt);
      requestRef := Some(nextFrame);
    }

    /** The video's first frame has decoded: keep the video element, mark the store ready and
        run the first predict step. */
    method OnLoadedData(readyState: int, results: HandLandmarkResult, sqrt: real -> real, nextFrame: int)
      requires landmarkerLoaded && readyState >= 2 ==> TipsPresent(results)
      modifies store, this`videoAttached, this`requestRef
      ensures videoAttached && store.isVisionReady
      ensures store.State() == Run(old(store.State()), LoadedDataEvents(Ready(readyState), results, sqrt))
      ensures requestRef == Some(nextFrame)
    {
      ghost var before := store.State();
      videoAttached := true;
      store.SetVisionReady(true);
      ghost var mid := store.State();
      Predict(readyState, results, sqrt, nextFrame);
      RunConcat(before, [SetReady(true)], PredictEvents(Ready(readyState), results, sqrt));
      assert Run(before, [SetReady(true)]) == mid;
    }
  }
}
