/** The value shapes shared by the gesture estimator and the tree store. */
module Types {

  /** A value that may be absent (a JavaScript `undefined`/`null`). */
  datatype Option<+T> = None | Some(value: T)

  /** One tracked keypoint of a hand, in the detector's normalised image coordinates. */
  datatype Landmark = Landmark(x: real, y: real, z: real)

  /** The landmarks of one detected hand, in the detector's fixed keypoint order. */
  type Hand = seq<Landmark>

  /** What the detector reports for one video frame: the landmark lists of the hands it
      found. The list itself may be missing, which the estimator treats like an empty one. */
  datatype HandLandmarkResult = HandLandmarkResult(landmarks: Option<seq<Hand>>)

  /** Stands for one decoded user-photo texture; only its place in the texture list is
      modelled, not the identity of the texture object. */
  datatype Texture = Texture(source: string)

  /** The data part of the shared tree state: the gesture strength, the uploaded photo
      textures in upload order, and whether the camera feed is live. */
  datatype TreeState = TreeState(interactionStrength: real, userTextures: seq<Texture>, isVisionReady: bool)
}
