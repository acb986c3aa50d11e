/** Datatypes shared by the tracker, the retargeting engine and the UI (src/types.ts). */
module Types {

  datatype Option<+T> = None | Some(value: T)

  /** Euler rotation of one joint, one scalar per axis. */
  datatype Rotation = Rotation(x: real, y: real, z: real)

  /** Per-eye openness. The retargeting step tests each side for presence, so each may be absent. */
  datatype Eye = Eye(l: Option<real>, r: Option<real>)

  /** The five mouth-shape (viseme) coefficients. */
  datatype MouthShape = MouthShape(A: real, E: real, I: real, O: real, U: real)

  datatype Mouth = Mouth(x: real, y: real, shape: Option<MouthShape>)

  datatype Pupil = Pupil(x: real, y: real)

  /** The face solve's output. `head`, `eye` and `mouth` are declared required, but the
      retargeting step reads the pose untyped and tests each of them, so they are optional here. */
  datatype FaceRig = FaceRig(
    head: Option<Rotation>,
    eye: Option<Eye>,
    mouth: Option<Mouth>,
    brow: real,
    pupil: Pupil)

  /** The body solve's output: eight optional joints. */
  datatype PoseRig = PoseRig(
    Hips: Option<Rotation>,
    Spine: Option<Rotation>,
    Spine1: Option<Rotation>,
    Spine2: Option<Rotation>,
    LeftArm: Option<Rotation>,
    LeftForeArm: Option<Rotation>,
    RightArm: Option<Rotation>,
    RightForeArm: Option<Rotation>)

  /** One entry of a hand solve: a joint name and its rotation. */
  datatype HandEntry = HandEntry(key: string, rotation: Rotation)

  predicate KeysDistinct(entries: seq<HandEntry>)
  {
    forall i, j :: 0 <= i < j < |entries| ==> entries[i].key != entries[j].key
  }

  /** A string-keyed record of rotations. Its keys are distinct and, as in any script object,
      enumerated in insertion order, which is the order the retargeting step visits them. */
  type HandRig = entries: seq<HandEntry> | KeysDistinct(entries) witness []

  /** One tracking result: four regions, each of which may be null. */
  datatype RiggedPose = RiggedPose(
    face: Option<FaceRig>,
    pose: Option<PoseRig>,
    rightHand: Option<HandRig>,
    leftHand: Option<HandRig>)

  /** Per-region presence flags shown by the UI. */
  datatype TrackingStatus = TrackingStatus(face: bool, pose: bool, hands: bool)

  datatype Background = Background(
    id: string,
    name: string,
    nameAr: Option<string>,
    color: string,
    imageUrl: Option<string>,
    isCustom: bool)

  datatype AvatarCategory = Male | Female | Character | Custom

  datatype Avatar = Avatar(
    id: string,
    name: string,
    nameAr: string,
    url: string,
    thumbnail: Option<string>,
    category: AvatarCategory,
    description: Option<string>)

  datatype AppMode = Camera | Video

  /** Hand side, as passed to the hand solve ("Right" / "Left") and used in joint names. */
  datatype Side = Left | Right

  /** Smoothing coefficient per channel class. */
  datatype SmoothingConfig = SmoothingConfig(head: real, neck: real, spine: real, arms: real, hands: real, face: real)

  const DefaultSmoothing: SmoothingConfig := SmoothingConfig(0.12, 0.1, 0.08, 0.1, 0.2, 0.4)

  function Coefficients(c: SmoothingConfig): (cs: seq<real>)
    ensures |cs| == 6
  {
    [c.head, c.neck, c.spine, c.arms, c.hands, c.face]
  }

  /** Every default coefficient is a proper blend factor: strictly between 0 and 1. */
  lemma DefaultSmoothingInOpenUnitInterval()
    ensures forall i :: 0 <= i < 6 ==> 0.0 < Coefficients(DefaultSmoothing)[i] < 1.0
  {
  }

  /** Hands and face react faster than head, neck, spine and arms. */
  lemma DefaultSmoothingHandsAndFaceFaster()
    ensures forall i :: 0 <= i < 4 ==>
      Coefficients(DefaultSmoothing)[i] < DefaultSmoothing.hands &&
      Coefficients(DefaultSmoothing)[i] < DefaultSmoothing.face
  {
  }
}
