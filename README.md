# Gesture strength and tree store — a Dafny model

This project models the core of a small WebGL "magic tree" toy. A webcam hand tracker reduces
each video frame to one number, the interaction strength in [0, 1]: 0 means a closed hand and
an assembled tree, 1 means an open hand and an exploded tree. The number is written into a
shared store, which also holds the photo textures the user uploaded and a "camera is live" flag.

Two pieces of the source are modelled:

- **The predict step** of the hand-landmarker hook (`hooks/useHandLandmarker.ts`). It reads the
  first detected hand and its thumb tip (landmark 4) and index tip (landmark 8). It takes the
  Euclidean distance between them and maps that distance linearly from the band [0.05, 0.15]
  onto [0, 1], clamping outside the band. When no hand is reported it writes 0. When the
  detector or the video is not ready it writes nothing. Every step ends by scheduling the next
  animation frame. The video's loaded-data handler keeps the video element, sets the store's
  readiness to `true` and runs the first step.
- **The tree store** (`stores/useTreeStore.ts`): three fields and their setters. Each setter
  overwrites only its own field; the texture setter replaces the list by a copy of it with one
  texture on the end.

Layout:

- `types.dfy` (module `Types`): the value shapes of `types.ts`. `Landmark` and
  `HandLandmarkResult` are the detector's output. `TreeState` holds the data fields of the store;
  the setters are part of the class instead.
- `gesture.dfy` (module `Gesture`): the pure arithmetic of the step (`SquaredDistance`,
  `Normalize`, `DetectedStrength`, `Step`) and the lemmas about it.
- `tree_store.dfy` (module `Store`): the class `TreeStore` with its three setters. It also holds
  a value-level account of setter calls: `Event`, `Apply`, and `Run` over a sequence of calls.
  The lemmas about many calls (append order, the range of the strength, the readiness latch) are
  stated on `Run`. Each setter method's `ensures` ties the new state to `Apply` of the old one.
- `hand_landmarker.dfy` (module `HandLandmarker`): the class `Estimator`. It holds the hook's
  refs: the detector, the video element and the next frame handle. Its methods are `Predict`,
  `OnLoadedData` and `AttachLandmarker`. The module also says which setter calls each callback
  makes, and proves the store's invariants for any interleaving of those callbacks.

Calls into code the model cannot see become parameters:

- the detector's result for the frame (`detectForVideo`);
- the video's `readyState`;
- the host's `Math.sqrt`, passed as `sqrt: real -> real`;
- the frame handle that `requestAnimationFrame` returns.

Two facts hold for any `sqrt` at all: the strength lies in [0, 1], and "no hand" gives 0. Lemmas
whose statement needs the real square root require `IsRoot(sqrt(q), q)`, and only for the one
radicand `q` they use. `Math.pow(v, 2)` is modelled as `v * v`.

Doubles are modelled as `real`, so floating-point rounding is not modelled.

## Model

| member | source | states |
|---|---|---|
| `Gesture.SquaredDistance` | hooks/useHandLandmarker.ts:85-89 | the sum of squared coordinate differences under the source's square root is non-negative, and zero exactly when the two landmarks coincide |
| `Gesture.Normalize` | hooks/useHandLandmarker.ts:94-99 | for every real distance, even a negative or huge one, the strength is in [0, 1]; it is 0 exactly when the distance is at most 0.05 and 1 exactly when the distance is at least 0.15; inside the band, the strength is the fraction of the band the distance has covered |
| `Gesture.NormalizeDenormalize` | hooks/useHandLandmarker.ts:94-99 | every strength in [0, 1] is reached, by the in-band distance that `Denormalize` gives for it (a round trip) |
| `Gesture.NormalizeMonotone` | hooks/useHandLandmarker.ts:98-99 | a larger tip distance never gives a smaller strength |
| `Gesture.NormalizeInBand` | hooks/useHandLandmarker.ts:98-99 | for 0.05 < d < 0.15 the strength is strictly between 0 and 1 and equals (d - 0.05) / 0.10 |
| `Gesture.NormalizeBySquare` | hooks/useHandLandmarker.ts:85-99 | with d the true root of q: strength 0 iff q <= 0.0025, strength 1 iff q >= 0.0225; in between, the squared in-band distance of the strength is q |
| `Gesture.DetectedStrength` | hooks/useHandLandmarker.ts:77-108 | once the step runs, the strength it writes is in [0, 1] for any square-root function, and exactly 0 when the hand list is missing or empty |
| `Gesture.Step` | hooks/useHandLandmarker.ts:72-109 | when the detector or the video is not ready the strength is unchanged; otherwise it is the detected strength: in [0, 1], and 0 when no hand is seen, whatever the previous value |
| `Gesture.DetectedStrengthReadsOnlyTips` | hooks/useHandLandmarker.ts:78-82 | two results whose first hands agree on landmarks 4 and 8 give the same strength; other hands and other landmarks are irrelevant |
| `Gesture.StepIdempotent` | hooks/useHandLandmarker.ts:72-108 | repeating a step on an unchanged detector result gives the same strength again (no hidden accumulating state) |
| `Gesture.DetectedStrengthBySquare` | hooks/useHandLandmarker.ts:81-99 | with a true square root, the written strength is 0 iff the squared thumb-to-index distance is at most 0.0025 and 1 iff it is at least 0.0225 |
| `Gesture.StepOnFirstHand` | hooks/useHandLandmarker.ts:77-99 | a ready step on a frame whose first hand is `hand` writes the normalised root of that hand's squared tip distance, whatever other hands follow |
| `Gesture.FistGivesZero` | hooks/useHandLandmarker.ts:85-99 | coincident tips give strength 0 |
| `Gesture.OpenHandGivesOne` | hooks/useHandLandmarker.ts:85-99 | tips (0, 0, 0) and (0.2, 0, 0) give strength 1 |
| `Gesture.PinchGivesPointTwo` | hooks/useHandLandmarker.ts:85-99 | tips (0.30, 0.40, 0) and (0.30, 0.47, 0), 0.07 apart, give strength 0.2 |
| `Store.RunConcat` | stores/useTreeStore.ts:9-15 | running two sequences of setter calls one after the other is the same as running their concatenation |
| `Store.RunTextures` | stores/useTreeStore.ts:11-13 | after any setter calls, the texture list is the old list followed by exactly the appended textures in call order; no call removes or reorders an entry |
| `Store.RunAppends` | stores/useTreeStore.ts:11-13 | after N appends the list is the old one followed by the N textures in call order, and strength and readiness are unchanged |
| `Store.AppendsAt` | stores/useTreeStore.ts:11-13 | the append calls for a texture list are one per texture, and the n-th call appends the n-th texture |
| `Store.RunKeepsStrengthInRange` | stores/useTreeStore.ts:9 | the store does not clamp, but if every strength written is in [0, 1] the stored strength stays in [0, 1], whatever the readiness and texture writes are |
| `Store.RunKeepsReady` | stores/useTreeStore.ts:15 | if readiness is only ever set to `true`, once true it stays true, whatever strengths and textures are written |
| `Store.ProgramRunInvariants` | stores/useTreeStore.ts:5-15 | from the initial state, under the program's kinds of setter calls, the strength is in [0, 1] after every call, and once readiness is observed it holds at every later point |
| `Store.TreeStore.constructor` | stores/useTreeStore.ts:5-7 | the initial state is strength 0, an empty texture list and not ready |
| `Store.TreeStore.SetInteractionStrength` | stores/useTreeStore.ts:9 | the strength becomes exactly the argument; textures and readiness are unchanged |
| `Store.TreeStore.AddUserTexture` | stores/useTreeStore.ts:11-13 | the list grows by one, the old list is its prefix and the last entry is the new texture; strength and readiness are unchanged |
| `Store.TreeStore.SetVisionReady` | stores/useTreeStore.ts:15 | readiness becomes exactly the argument; strength and textures are unchanged |
| `HandLandmarker.PredictEvents` | hooks/useHandLandmarker.ts:73-108 | a predict step makes exactly one setter call when ready and none otherwise; that call is a strength write, and the strength it writes is in [0, 1] |
| `HandLandmarker.LoadedDataEvents` | hooks/useHandLandmarker.ts:61-66 | the loaded-data handler first sets readiness to `true`, and every call after that one is a predict step's; all its writes are admissible |
| `HandLandmarker.PredictEventsRunStep` | hooks/useHandLandmarker.ts:73-108 | a predict step changes only the stored strength, to what `Step` computes from the old strength |
| `HandLandmarker.TraceAdmissible` | hooks/useHandLandmarker.ts:61-108 | in the setter calls made by any sequence of predict steps, loaded-data handlers and uploads, every strength write is in [0, 1] and every readiness write is `true`; texture appends are unconstrained |
| `HandLandmarker.ProgramInvariants` | hooks/useHandLandmarker.ts:61-108 | for any interleaving of those callbacks, starting from the initial store, the strength is in [0, 1] at every point and readiness never returns to false |
| `HandLandmarker.Estimator.constructor` | hooks/useHandLandmarker.ts:8-10 | the detector, video and frame refs all start empty |
| `HandLandmarker.Estimator.AttachLandmarker` | hooks/useHandLandmarker.ts:21-28 | after the detector is created the detector ref is set |
| `HandLandmarker.Estimator.Predict` | hooks/useHandLandmarker.ts:72-111 | the store's new state is the old one after this step's writes; the new strength is `Step` of the old one; textures and readiness are unchanged; the next frame is scheduled |
| `HandLandmarker.Estimator.OnLoadedData` | hooks/useHandLandmarker.ts:61-66 | after the handler, the video ref is set, the store is ready, the store's state is the old one after the handler's writes, and the next frame is scheduled |

## Left out

- Detector set-up (loading the vision runtime and the hand model from remote URLs), webcam
  acquisition, and the three error messages (hooks/useHandLandmarker.ts:16-37, 45-60, 67-69):
  these are asynchronous I/O and calls into a foreign library. `AttachLandmarker` stands for the
  successful outcome of line 21 only.
- `video.play()` (hooks/useHandLandmarker.ts:62): playback is host behaviour; the video's
  decoding progress reaches the model only as the `readyState` parameter.
- `performance.now()` and `detectForVideo` (hooks/useHandLandmarker.ts:74-75): the timestamp is
  not modelled, and the detector's result is a parameter of `Predict`. For simplicity the
  parameter is passed even when the step is not ready; in that case it is not read. The source
  has no try/catch around `detectForVideo`: a detector that throws skips line 110, so no next
  frame is scheduled and the loop stops, just as with a short hand (below). The model cannot
  express a throwing detector; it does not treat such a frame as "no hand" either.
- `requestAnimationFrame` and `cancelAnimationFrame` (hooks/useHandLandmarker.ts:39-41, 110):
  host scheduling. The model records only that every step ends by storing the next frame handle
  in `requestRef`. Teardown is not modelled.
- `Math.sqrt` is a parameter, not a definition. The clamp facts hold for any function there; the
  squared-distance and concrete-case lemmas assume the true root at the radicand they use.
- Floating point: doubles are reals, so rounding, NaN and infinities are not modelled. With NaN
  coordinates the source's `Math.max(0, Math.min(1, NaN))` would store NaN; the model cannot
  express that input.
- A first hand with fewer than nine landmarks: the source indexes entries 4 and 8 without a
  check. It would throw before rescheduling, and the loop would stop. `Step`, `DetectedStrength`
  and `Predict` require the two entries to exist whenever a ready step sees a hand. The detector
  always reports 21 landmarks per hand.
- The readiness latch is a property of the callers, not of the store. `setVisionReady` accepts
  `false` as well, and `SetVisionReady` models that. The latch is proved for the program's
  callers only: `RunKeepsReady` and `ProgramInvariants` assume every readiness write is `true`.
- Texture decoding in the uploader (components/UI/Uploader.tsx): FileReader and TextureLoader are
  asynchronous I/O. Their completions appear only as `Upload` callbacks, and the order in which
  uploads complete is whatever order those callbacks are given in.
- Rendering, particle layout with `Math.random`, trigonometry, shaders, per-frame smoothing and
  the UI (components/Scene, components/UI/Interface.tsx, App.tsx): floats, randomness and
  presentation.
- Source comments versus code: the comment on the no-hand branch speaks of drifting back slowly
  (hooks/useHandLandmarker.ts:104-106), but the code writes 0 at once. The model follows the code.
