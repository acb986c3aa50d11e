/** The per-tick update of the retargeting step (src/components/Scene.tsx, the `useFrame` callback
    at lines 80-165): each joint of the latest tracking result moves the resolved bone's Euler
    angles toward its target by linear interpolation, and the face moves the head mesh's morph
    weights the same way. */
module SceneTick {
  import opened Types
  import opened SceneNames
  import opened SceneTable

  // ---------------------------------------------------------------------------------------------
  // Interpolation
  // ---------------------------------------------------------------------------------------------

  /** `THREE.MathUtils.lerp(a, b, t)`. */
  function Lerp(a: real, b: real, t: real): real
  {
    (1.0 - t) * a + t * b
  }

  function Abs(x: real): real { if x < 0.0 then -x else x }

  function Pow(x: real, n: nat): real
  {
    if n == 0 then 1.0 else x * Pow(x, n - 1)
  }

  /** For a blend factor in [0, 1] the new value lies between the old value and the target. */
  lemma LerpBetween(a: real, b: real, t: real)
    requires 0.0 <= t <= 1.0
    ensures a <= b ==> a <= Lerp(a, b, t) <= b
    ensures b <= a ==> b <= Lerp(a, b, t) <= a
  {
    var d := if a <= b then b - a else a - b;
    ProductNonnegative(t, d);
    ProductNonnegative(1.0 - t, d);
    assert (1.0 - t) * d == d - t * d;
    assert Lerp(a, b, t) == a + t * (b - a);
  }

  lemma ProductNonnegative(x: real, y: real)
    requires x >= 0.0 && y >= 0.0
    ensures x * y >= 0.0
  {
  }

  /** One tick scales the offset from the target by the factor 1 - t. */
  lemma LerpOffset(a: real, b: real, t: real)
    ensures Lerp(a, b, t) - b == (1.0 - t) * (a - b)
  {
  }

  /** The value after `n` ticks toward a fixed target. */
  function Approach(a: real, b: real, t: real, n: nat): real
  {
    if n == 0 then a else Lerp(Approach(a, b, t, n - 1), b, t)
  }

  lemma {:induction false} ApproachOffset(a: real, b: real, t: real, n: nat)
    ensures Approach(a, b, t, n) - b == Pow(1.0 - t, n) * (a - b)
  {
    if n > 0 {
      ApproachOffset(a, b, t, n - 1);
      ApproachStep(a, b, t, n);
      ScaleStep(Approach(a, b, t, n) - b, Approach(a, b, t, n - 1) - b, 1.0 - t, Pow(1.0 - t, n - 1), Pow(1.0 - t, n), a - b);
    }
  }

  /** One more tick scales the offset from the target by 1 - t. */
  lemma ApproachStep(a: real, b: real, t: real, n: nat)
    requires n > 0
    ensures Approach(a, b, t, n) - b == (1.0 - t) * (Approach(a, b, t, n - 1) - b)
    ensures Pow(1.0 - t, n) == (1.0 - t) * Pow(1.0 - t, n - 1)
  {
    LerpOffset(Approach(a, b, t, n - 1), b, t);
  }

  lemma ScaleStep(next: real, prev: real, c: real, p: real, pc: real, d: real)
    requires next == c * prev && prev == p * d && pc == c * p
    ensures next == pc * d
  {
  }

  lemma {:induction false} PowNonnegative(x: real, n: nat)
    requires x >= 0.0
    ensures Pow(x, n) >= 0.0
  {
    if n > 0 { PowNonnegative(x, n - 1); }
  }

  /** For a blend factor in [0, 1], after `n` ticks toward a fixed target the distance to it is
      (1 - t)^n times the first one: each tick shrinks it by the factor 1 - t. */
  lemma ApproachDistance(a: real, b: real, t: real, n: nat)
    requires 0.0 <= t <= 1.0
    ensures Abs(Approach(a, b, t, n) - b) == Pow(1.0 - t, n) * Abs(a - b)
  {
    ApproachOffset(a, b, t, n);
    PowNonnegative(1.0 - t, n);
    var p := Pow(1.0 - t, n);
    var d := a - b;
    if d < 0.0 {
      ProductNonnegative(p, -d);
      NegatedFactor(p, d);
    } else {
      ProductNonnegative(p, d);
    }
  }

  lemma NegatedFactor(x: real, y: real)
    ensures x * -y == -(x * y)
  {
  }

  /** Each axis of a resolved bone after one `rotateBone` call. */
  function LerpRotation(r: Rotation, target: Rotation, t: real): Rotation
  {
    Rotation(Lerp(r.x, target.x, t), Lerp(r.y, target.y, t), Lerp(r.z, target.z, t))
  }

  // ---------------------------------------------------------------------------------------------
  // The rotation writes of one tick
  // ---------------------------------------------------------------------------------------------

  /** One `rotateBone(name, target, alpha)` call. */
  datatype Write = Write(name: string, target: Rotation, alpha: real)

  const HeadAlpha: real := 0.15
  const NeckAlpha: real := 0.1
  const BodyAlpha: real := 0.1
  const HandAlpha: real := 0.25

  /** The head target mirrors the x angle; the neck takes half of the head target. */
  function HeadWrites(face: Option<FaceRig>): seq<Write>
  {
    if face.Some? && face.value.head.Some? then
      var h := face.value.head.value;
      [Write("Head", Rotation(-h.x, h.y, h.z), HeadAlpha),
       Write("Neck", Rotation(-h.x * 0.5, h.y * 0.5, h.z * 0.5), NeckAlpha)]
    else []
  }

  /** `if (pose.J) rotateBone('J', pose.J, alpha)`. */
  function JointWrite(name: string, rot: Option<Rotation>, alpha: real): seq<Write>
  {
    if rot.Some? then [Write(name, rot.value, alpha)] else []
  }

  function BodyWrites(pose: Option<PoseRig>): seq<Write>
  {
    if pose.None? then []
    else
      var p := pose.value;
      JointWrite("Spine", p.Spine, BodyAlpha) + JointWrite("Spine1", p.Spine1, BodyAlpha) +
      JointWrite("Spine2", p.Spine2, BodyAlpha) + JointWrite("Hips", p.Hips, BodyAlpha)
  }

  function RightArmWrites(pose: Option<PoseRig>): seq<Write>
  {
    if pose.None? then []
    else JointWrite("RightArm", pose.value.RightArm, BodyAlpha) + JointWrite("RightForeArm", pose.value.RightForeArm, BodyAlpha)
  }

  function LeftArmWrites(pose: Option<PoseRig>): seq<Write>
  {
    if pose.None? then []
    else JointWrite("LeftArm", pose.value.LeftArm, BodyAlpha) + JointWrite("LeftForeArm", pose.value.LeftForeArm, BodyAlpha)
  }

  /** Every key of a hand record, in key order, with the hand blend factor. */
  function EntryWrites(entries: seq<HandEntry>): (ws: seq<Write>)
    ensures |ws| == |entries|
    ensures forall i :: 0 <= i < |entries| ==>
      ws[i] == Write(entries[i].key, entries[i].rotation, HandAlpha)
  {
    if entries == [] then [] else EntryWrites(entries[..|entries| - 1]) + [Write(entries[|entries| - 1].key, entries[|entries| - 1].rotation, HandAlpha)]
  }

  function HandWrites(hand: Option<HandRig>): seq<Write>
  {
    if hand.None? then [] else EntryWrites(hand.value)
  }

  /** All rotation writes of one tick, in the order the callback issues them. */
  function RotationWrites(p: RiggedPose): seq<Write>
  {
    HeadWrites(p.face) + BodyWrites(p.pose) + RightArmWrites(p.pose) + HandWrites(p.rightHand) +
    LeftArmWrites(p.pose) + HandWrites(p.leftHand)
  }

  /** Head and neck are written only when the face carries a head rotation, and before every
      other joint: first the head, whose target mirrors the x angle, with blend 0.15, then the
      neck, aimed at exactly half of the head target, with blend 0.1. */
  lemma HeadAndNeckTargets(p: RiggedPose)
    ensures RotationWrites(p)[..|HeadWrites(p.face)|] == HeadWrites(p.face)
    ensures p.face.None? || p.face.value.head.None? ==> HeadWrites(p.face) == []
    ensures p.face.Some? && p.face.value.head.Some? ==>
      var h := p.face.value.head.value;
      var ws := HeadWrites(p.face);
      |ws| == 2 &&
      ws[0] == Write("Head", Rotation(-h.x, h.y, h.z), 0.15) &&
      ws[1].name == "Neck" && ws[1].alpha == 0.1 &&
      ws[1].target == Rotation(ws[0].target.x * 0.5, ws[0].target.y * 0.5, ws[0].target.z * 0.5)
  {
    var ws := RotationWrites(p);
    var rest := BodyWrites(p.pose) + RightArmWrites(p.pose) + HandWrites(p.rightHand) +
      LeftArmWrites(p.pose) + HandWrites(p.leftHand);
    assert ws == HeadWrites(p.face) + rest;
  }

  /** The pose joint a body or arm write is named after. */
  function PoseJoint(p: PoseRig, name: string): Option<Rotation>
  {
    if name == "Spine" then p.Spine
    else if name == "Spine1" then p.Spine1
    else if name == "Spine2" then p.Spine2
    else if name == "Hips" then p.Hips
    else if name == "RightArm" then p.RightArm
    else if name == "RightForeArm" then p.RightForeArm
    else if name == "LeftArm" then p.LeftArm
    else if name == "LeftForeArm" then p.LeftForeArm
    else None
  }

  function PoseRegionWrites(pose: Option<PoseRig>): seq<Write>
  {
    BodyWrites(pose) + RightArmWrites(pose) + LeftArmWrites(pose)
  }

  lemma InJointWrite(w: Write, name: string, rot: Option<Rotation>, alpha: real)
    ensures w in JointWrite(name, rot, alpha) <==> rot.Some? && w == Write(name, rot.value, alpha)
  {
  }

  lemma PoseWriteHasJoint(p: PoseRig, w: Write)
    requires w in PoseRegionWrites(Some(p))
    ensures w.alpha == 0.1 && PoseJoint(p, w.name) == Some(w.target)
  {
    InJointWrite(w, "Spine", p.Spine, BodyAlpha);
    InJointWrite(w, "Spine1", p.Spine1, BodyAlpha);
    InJointWrite(w, "Spine2", p.Spine2, BodyAlpha);
    InJointWrite(w, "Hips", p.Hips, BodyAlpha);
    InJointWrite(w, "RightArm", p.RightArm, BodyAlpha);
    InJointWrite(w, "RightForeArm", p.RightForeArm, BodyAlpha);
    InJointWrite(w, "LeftArm", p.LeftArm, BodyAlpha);
    InJointWrite(w, "LeftForeArm", p.LeftForeArm, BodyAlpha);
  }

  lemma PoseJointIsWritten(p: PoseRig, w: Write)
    requires w.alpha == 0.1 && PoseJoint(p, w.name) == Some(w.target)
    ensures w in PoseRegionWrites(Some(p))
  {
    var body := JointWrite("Spine", p.Spine, BodyAlpha) + JointWrite("Spine1", p.Spine1, BodyAlpha) +
      JointWrite("Spine2", p.Spine2, BodyAlpha) + JointWrite("Hips", p.Hips, BodyAlpha);
    var right := JointWrite("RightArm", p.RightArm, BodyAlpha) + JointWrite("RightForeArm", p.RightForeArm, BodyAlpha);
    var left := JointWrite("LeftArm", p.LeftArm, BodyAlpha) + JointWrite("LeftForeArm", p.LeftForeArm, BodyAlpha);
    assert PoseRegionWrites(Some(p)) == body + right + left;
    if w.name == "Spine" {
      assert w in JointWrite("Spine", p.Spine, BodyAlpha);
    } else if w.name == "Spine1" {
      assert w in JointWrite("Spine1", p.Spine1, BodyAlpha);
    } else if w.name == "Spine2" {
      assert w in JointWrite("Spine2", p.Spine2, BodyAlpha);
    } else if w.name == "Hips" {
      assert w in JointWrite("Hips", p.Hips, BodyAlpha);
    } else if w.name == "RightArm" {
      assert w in JointWrite("RightArm", p.RightArm, BodyAlpha);
    } else if w.name == "RightForeArm" {
      assert w in JointWrite("RightForeArm", p.RightForeArm, BodyAlpha);
    } else if w.name == "LeftArm" {
      assert w in JointWrite("LeftArm", p.LeftArm, BodyAlpha);
    } else {
      assert w.name == "LeftForeArm";
      assert w in JointWrite("LeftForeArm", p.LeftForeArm, BodyAlpha);
    }
  }

  /** A body or arm joint is written exactly when the pose has it, toward the pose's rotation, with
      blend 0.1; without a pose no body or arm joint is written. */
  lemma PoseJointWrites(pose: Option<PoseRig>, w: Write)
    ensures w in PoseRegionWrites(pose) <==>
      pose.Some? && w.alpha == 0.1 && PoseJoint(pose.value, w.name) == Some(w.target)
  {
    if pose.Some? {
      if w in PoseRegionWrites(pose) {
        PoseWriteHasJoint(pose.value, w);
      }
      if w.alpha == 0.1 && PoseJoint(pose.value, w.name) == Some(w.target) {
        PoseJointIsWritten(pose.value, w);
      }
    }
  }

  /** A hand's writes are its entries in key order, each with blend 0.25. */
  lemma HandEntryWrites(hand: HandRig)
    ensures |HandWrites(Some(hand))| == |hand|
    ensures forall i :: 0 <= i < |hand| ==> HandWrites(Some(hand))[i] == Write(hand[i].key, hand[i].rotation, 0.25)
  {
  }

  // ---------------------------------------------------------------------------------------------
  // Applying the rotation writes
  // ---------------------------------------------------------------------------------------------

  predicate SlotsBelow(t: NodeTable, n: nat)
  {
    forall k :: k in t.slots ==> t.slots[k] < n
  }

  /** One `rotateBone` call on the rotations of all scene objects: the resolved object's three
      angles move toward the target; an unresolved name changes nothing. */
  function ApplyWrite(rots: seq<Rotation>, t: NodeTable, w: Write): (r: seq<Rotation>)
    requires SlotsBelow(t, |rots|)
    ensures |r| == |rots|
    ensures Resolve(t, w.name).None? ==> r == rots
    ensures Resolve(t, w.name).Some? ==>
      var i := Resolve(t, w.name).value;
      i < |rots| && r[i] == LerpRotation(rots[i], w.target, w.alpha) &&
      forall j :: 0 <= j < |rots| && j != i ==> r[j] == rots[j]
  {
    match Resolve(t, w.name)
    case None => rots
    case Some(i) => rots[i := LerpRotation(rots[i], w.target, w.alpha)]
  }

  /** The writes applied one after the other. */
  function ApplyWrites(rots: seq<Rotation>, t: NodeTable, ws: seq<Write>): (r: seq<Rotation>)
    requires SlotsBelow(t, |rots|)
    ensures |r| == |rots|
    decreases |ws|
  {
    if ws == [] then rots else ApplyWrites(ApplyWrite(rots, t, ws[0]), t, ws[1..])
  }

  lemma {:induction false} ApplyWritesAppend(rots: seq<Rotation>, t: NodeTable, ws1: seq<Write>, ws2: seq<Write>)
    requires SlotsBelow(t, |rots|)
    ensures ApplyWrites(rots, t, ws1 + ws2) == ApplyWrites(ApplyWrites(rots, t, ws1), t, ws2)
    decreases |ws1|
  {
    if ws1 == [] {
      assert ws1 + ws2 == ws2;
    } else {
      assert (ws1 + ws2)[1..] == ws1[1..] + ws2;
      ApplyWritesAppend(ApplyWrite(rots, t, ws1[0]), t, ws1[1..], ws2);
    }
  }

  lemma ApplySingleWrite(rots: seq<Rotation>, t: NodeTable, w: Write)
    requires SlotsBelow(t, |rots|)
    ensures ApplyWrites(rots, t, [w]) == ApplyWrite(rots, t, w)
  {
    assert [w][1..] == [];
  }

  /** An object that no write resolves to keeps its rotation. */
  lemma {:induction false} UnresolvedKeepsRotation(rots: seq<Rotation>, t: NodeTable, ws: seq<Write>, i: nat)
    requires SlotsBelow(t, |rots|) && i < |rots|
    requires forall w :: w in ws ==> Resolve(t, w.name) != Some(i)
    ensures ApplyWrites(rots, t, ws)[i] == rots[i]
    decreases |ws|
  {
    if ws != [] {
      assert ws[0] in ws;
      assert forall w :: w in ws[1..] ==> w in ws;
      UnresolvedKeepsRotation(ApplyWrite(rots, t, ws[0]), t, ws[1..], i);
    }
  }

  predicate AxesWithin(r: Rotation, bound: real)
  {
    Abs(r.x) <= bound && Abs(r.y) <= bound && Abs(r.z) <= bound
  }

  lemma LerpWithin(a: real, b: real, t: real, bound: real)
    requires 0.0 <= t <= 1.0 && Abs(a) <= bound && Abs(b) <= bound
    ensures Abs(Lerp(a, b, t)) <= bound
  {
    LerpBetween(a, b, t);
  }

  /** With blend factors in [0, 1], angles bounded by `bound` stay bounded by it when every
      target is. */
  lemma {:induction false} ApplyWritesKeepsBound(rots: seq<Rotation>, t: NodeTable, ws: seq<Write>, bound: real)
    requires SlotsBelow(t, |rots|)
    requires forall i :: 0 <= i < |rots| ==> AxesWithin(rots[i], bound)
    requires forall w :: w in ws ==> 0.0 <= w.alpha <= 1.0 && AxesWithin(w.target, bound)
    ensures forall i :: 0 <= i < |rots| ==> AxesWithin(ApplyWrites(rots, t, ws)[i], bound)
    decreases |ws|
  {
    if ws != [] {
      var w := ws[0];
      assert w in ws;
      var next := ApplyWrite(rots, t, w);
      if Resolve(t, w.name).Some? {
        var i := Resolve(t, w.name).value;
        LerpWithin(rots[i].x, w.target.x, w.alpha, bound);
        LerpWithin(rots[i].y, w.target.y, w.alpha, bound);
        LerpWithin(rots[i].z, w.target.z, w.alpha, bound);
      }
      assert forall v :: v in ws[1..] ==> v in ws;
      ApplyWritesKeepsBound(next, t, ws[1..], bound);
    }
  }

  // ---------------------------------------------------------------------------------------------
  // Morph weights
  // ---------------------------------------------------------------------------------------------

  const MorphAlpha: real := 0.5

  /** One morph-weight assignment: the weight index and its target. */
  datatype MorphWrite = MorphWrite(index: nat, target: real)

  /** `dict[name]` as a morph write toward `target`, when the dictionary has the name. */
  function NamedMorph(dict: map<string, nat>, name: string, target: real): seq<MorphWrite>
  {
    if name in dict then [MorphWrite(dict[name], target)] else []
  }

  /** Blinks: the left blink follows the right eye's openness and the right blink the left's, each
      written only when its index and its eye value exist. */
  function EyeWrites(eye: Option<Eye>, dict: map<string, nat>): seq<MorphWrite>
  {
    if eye.None? then []
    else
      (if eye.value.r.Some? then NamedMorph(dict, "eyeBlinkLeft", 1.0 - eye.value.r.value) else []) +
      (if eye.value.l.Some? then NamedMorph(dict, "eyeBlinkRight", 1.0 - eye.value.l.value) else [])
  }

  /** `dict['mouthOpen'] ?? dict['jawOpen']`. */
  function MouthOpenIndex(dict: map<string, nat>): Option<nat>
  {
    if "mouthOpen" in dict then Some(dict["mouthOpen"])
    else if "jawOpen" in dict then Some(dict["jawOpen"])
    else None
  }

  function MouthWrites(mouth: Option<Mouth>, dict: map<string, nat>): seq<MorphWrite>
  {
    if mouth.None? || mouth.value.shape.None? then []
    else
      var shape := mouth.value.shape.value;
      (if MouthOpenIndex(dict).Some? then [MorphWrite(MouthOpenIndex(dict).value, shape.A)] else []) +
      NamedMorph(dict, "mouthSmile", shape.E * 0.5)
  }

  function MorphWrites(face: FaceRig, dict: map<string, nat>): seq<MorphWrite>
  {
    EyeWrites(face.eye, dict) + MouthWrites(face.mouth, dict)
  }

  /** The blink channels: the left blink closes as the right eye opens and the right blink as the
      left eye opens, each only when the dictionary has the morph and the solve has the eye. */
  lemma EyeChannels(eye: Option<Eye>, dict: map<string, nat>, m: MorphWrite)
    ensures m in EyeWrites(eye, dict) <==>
      (eye.Some? && eye.value.r.Some? && "eyeBlinkLeft" in dict &&
        m == MorphWrite(dict["eyeBlinkLeft"], 1.0 - eye.value.r.value)) ||
      (eye.Some? && eye.value.l.Some? && "eyeBlinkRight" in dict &&
        m == MorphWrite(dict["eyeBlinkRight"], 1.0 - eye.value.l.value))
  {
    if eye.Some? {
      var left := if eye.value.r.Some? then NamedMorph(dict, "eyeBlinkLeft", 1.0 - eye.value.r.value) else [];
      var right := if eye.value.l.Some? then NamedMorph(dict, "eyeBlinkRight", 1.0 - eye.value.l.value) else [];
      assert m in left + right <==> m in left || m in right;
    }
  }

  /** The mouth channels: the opening follows the solve's A shape on `mouthOpen`, or on `jawOpen`
      only when the avatar has no `mouthOpen`; the smile follows half the E shape. */
  lemma MouthChannels(mouth: Option<Mouth>, dict: map<string, nat>, m: MorphWrite)
    ensures m in MouthWrites(mouth, dict) <==>
      mouth.Some? && mouth.value.shape.Some? &&
      (("mouthOpen" in dict && m == MorphWrite(dict["mouthOpen"], mouth.value.shape.value.A)) ||
       ("mouthOpen" !in dict && "jawOpen" in dict && m == MorphWrite(dict["jawOpen"], mouth.value.shape.value.A)) ||
       ("mouthSmile" in dict && m == MorphWrite(dict["mouthSmile"], mouth.value.shape.value.E * 0.5)))
  {
    if mouth.Some? && mouth.value.shape.Some? {
      var shape := mouth.value.shape.value;
      var open := if MouthOpenIndex(dict).Some? then [MorphWrite(MouthOpenIndex(dict).value, shape.A)] else [];
      var smile := NamedMorph(dict, "mouthSmile", shape.E * 0.5);
      assert m in open + smile <==> m in open || m in smile;
    }
  }

  /** The writes of one face solve are exactly the blink and mouth channels. */
  lemma MorphChannels(face: FaceRig, dict: map<string, nat>, m: MorphWrite)
    ensures m in MorphWrites(face, dict) <==> m in EyeWrites(face.eye, dict) || m in MouthWrites(face.mouth, dict)
    ensures m in EyeWrites(face.eye, dict) <==>
      (face.eye.Some? && face.eye.value.r.Some? && "eyeBlinkLeft" in dict &&
        m == MorphWrite(dict["eyeBlinkLeft"], 1.0 - face.eye.value.r.value)) ||
      (face.eye.Some? && face.eye.value.l.Some? && "eyeBlinkRight" in dict &&
        m == MorphWrite(dict["eyeBlinkRight"], 1.0 - face.eye.value.l.value))
    ensures m in MouthWrites(face.mouth, dict) <==>
      face.mouth.Some? && face.mouth.value.shape.Some? &&
      (("mouthOpen" in dict && m == MorphWrite(dict["mouthOpen"], face.mouth.value.shape.value.A)) ||
       ("mouthOpen" !in dict && "jawOpen" in dict && m == MorphWrite(dict["jawOpen"], face.mouth.value.shape.value.A)) ||
       ("mouthSmile" in dict && m == MorphWrite(dict["mouthSmile"], face.mouth.value.shape.value.E * 0.5)))
  {
    EyeChannels(face.eye, dict, m);
    MouthChannels(face.mouth, dict, m);
  }

  predicate IndicesBelow(dict: map<string, nat>, n: nat)
  {
    forall k :: k in dict ==> dict[k] < n
  }

  function ApplyMorph(weights: seq<real>, m: MorphWrite): (r: seq<real>)
    requires m.index < |weights|
    ensures |r| == |weights|
  {
    weights[m.index := Lerp(weights[m.index], m.target, MorphAlpha)]
  }

  function ApplyMorphs(weights: seq<real>, ms: seq<MorphWrite>): (r: seq<real>)
    requires forall m :: m in ms ==> m.index < |weights|
    ensures |r| == |weights|
    decreases |ms|
  {
    if ms == [] then weights
    else
      assert forall m :: m in ms[1..] ==> m in ms;
      ApplyMorphs(ApplyMorph(weights, ms[0]), ms[1..])
  }

  lemma {:induction false} ApplyMorphsAppend(weights: seq<real>, ms1: seq<MorphWrite>, ms2: seq<MorphWrite>)
    requires forall m :: m in ms1 + ms2 ==> m.index < |weights|
    ensures ApplyMorphs(weights, ms1 + ms2) == ApplyMorphs(ApplyMorphs(weights, ms1), ms2)
    decreases |ms1|
  {
    if ms1 != [] {
      assert (ms1 + ms2)[1..] == ms1[1..] + ms2;
      assert forall m :: m in ms1[1..] + ms2 ==> m in ms1 + ms2;
      assert (ms1 + ms2)[0] == ms1[0];
      ApplyMorphsAppend(ApplyMorph(weights, ms1[0]), ms1[1..], ms2);
    } else {
      assert ms1 + ms2 == ms2;
    }
  }

  lemma MorphWritesFit(face: FaceRig, dict: map<string, nat>, n: nat)
    requires IndicesBelow(dict, n)
    ensures forall m :: m in MorphWrites(face, dict) ==> m.index < n
  {
  }

  predicate UnitInterval(x: real) { 0.0 <= x <= 1.0 }

  /** Every morph target is in [0, 1] when the face's eye openness, A and E coefficients are. */
  lemma MorphTargetsInUnitInterval(face: FaceRig, dict: map<string, nat>)
    requires face.eye.Some? && face.eye.value.l.Some? ==> UnitInterval(face.eye.value.l.value)
    requires face.eye.Some? && face.eye.value.r.Some? ==> UnitInterval(face.eye.value.r.value)
    requires face.mouth.Some? && face.mouth.value.shape.Some? ==>
      UnitInterval(face.mouth.value.shape.value.A) && UnitInterval(face.mouth.value.shape.value.E)
    ensures forall m :: m in MorphWrites(face, dict) ==> UnitInterval(m.target)
  {
  }

  /** Weights in [0, 1] stay in [0, 1] under targets in [0, 1]. */
  lemma {:induction false} ApplyMorphsKeepsUnitInterval(weights: seq<real>, ms: seq<MorphWrite>)
    requires forall m :: m in ms ==> m.index < |weights| && UnitInterval(m.target)
    requires forall i :: 0 <= i < |weights| ==> UnitInterval(weights[i])
    ensures forall i :: 0 <= i < |weights| ==> UnitInterval(ApplyMorphs(weights, ms)[i])
    decreases |ms|
  {
    if ms != [] {
      var m := ms[0];
      assert m in ms;
      LerpBetween(weights[m.index], m.target, MorphAlpha);
      var next := ApplyMorph(weights, m);
      assert forall v :: v in ms[1..] ==> v in ms;
      ApplyMorphsKeepsUnitInterval(next, ms[1..]);
    }
  }

  // ---------------------------------------------------------------------------------------------
  // One tick
  // ---------------------------------------------------------------------------------------------

  /** Every dictionary index of every mesh is an index of that mesh's weight list. */
  predicate DictionariesFit(scene: seq<SceneObject>, weights: seq<seq<real>>)
  {
    |weights| == |scene| &&
    forall i :: 0 <= i < |scene| && scene[i].morphDictionary.Some? ==>
      IndicesBelow(scene[i].morphDictionary.value, |weights[i]|)
  }

  /** The rotations after one tick: nothing happens without a pose or before the table is built. */
  function TickRotations(scene: seq<SceneObject>, rots: seq<Rotation>, nodes: Option<NodeTable>,
                         pose: Option<RiggedPose>): (r: seq<Rotation>)
    requires |rots| == |scene| && (nodes.Some? ==> nodes.value == Table(scene))
    ensures |r| == |rots|
    ensures pose.None? || nodes.None? ==> r == rots
  {
    if pose.None? || nodes.None? then rots
    else
      TableSlotsInRange(scene);
      ApplyWrites(rots, nodes.value, RotationWrites(pose.value))
  }

  /** The face's morph writes on the head mesh's weight list: only that list can change, and only
      when there is a face and the head mesh has a morph dictionary. */
  function FaceWeights(scene: seq<SceneObject>, weights: seq<seq<real>>, t: NodeTable,
                       face: Option<FaceRig>): (r: seq<seq<real>>)
    requires DictionariesFit(scene, weights) && WellFormed(t) && SlotsBelow(t, |scene|)
    ensures |r| == |weights|
    ensures face.None? ==> r == weights
    ensures forall i :: 0 <= i < |weights| ==> |r[i]| == |weights[i]|
    ensures forall i :: 0 <= i < |weights| && Some(i) != HeadMesh(scene, t) ==> r[i] == weights[i]
  {
    var head := HeadMesh(scene, t);
    if face.None? || head.None? || scene[head.value].morphDictionary.None? then weights
    else
      var h := head.value;
      var dict := scene[h].morphDictionary.value;
      MorphWritesFit(face.value, dict, |weights[h]|);
      weights[h := ApplyMorphs(weights[h], MorphWrites(face.value, dict))]
  }

  /** With a head mesh that has a dictionary, the face moves that mesh's weights by its morph
      writes. */
  lemma FaceWeightsOnHead(scene: seq<SceneObject>, weights: seq<seq<real>>, t: NodeTable, face: FaceRig,
                          h: nat, dict: map<string, nat>)
    requires DictionariesFit(scene, weights) && WellFormed(t) && SlotsBelow(t, |scene|)
    requires HeadMesh(scene, t) == Some(h) && scene[h].morphDictionary == Some(dict)
    ensures h < |weights| && forall m :: m in MorphWrites(face, dict) ==> m.index < |weights[h]|
    ensures FaceWeights(scene, weights, t, Some(face)) == weights[h := ApplyMorphs(weights[h], MorphWrites(face, dict))]
  {
    MorphWritesFit(face, dict, |weights[h]|);
  }

  /** The morph weights after one tick: nothing happens without a pose or before the table is
      built. */
  function TickWeights(scene: seq<SceneObject>, weights: seq<seq<real>>, nodes: Option<NodeTable>,
                       pose: Option<RiggedPose>): (r: seq<seq<real>>)
    requires DictionariesFit(scene, weights) && (nodes.Some? ==> nodes.value == Table(scene))
    ensures |r| == |weights|
    ensures pose.None? || nodes.None? || pose.value.face.None? ==> r == weights
  {
    if pose.None? || nodes.None? then weights
    else
      TableSlotsInRange(scene);
      FaceWeights(scene, weights, nodes.value, pose.value.face)
  }

  /** An object that no write of the tick resolves to keeps its rotation. */
  lemma TickKeepsUntargeted(scene: seq<SceneObject>, rots: seq<Rotation>, p: RiggedPose, i: nat)
    requires |rots| == |scene| && i < |rots|
    requires forall w :: w in RotationWrites(p) ==> Resolve(Table(scene), w.name) != Some(i)
    ensures TickRotations(scene, rots, Some(Table(scene)), Some(p))[i] == rots[i]
  {
    TableSlotsInRange(scene);
    UnresolvedKeepsRotation(rots, Table(scene), RotationWrites(p), i);
  }

  /** Every write of a tick comes from a region of the result: the face's head, the pose's body
      and arm joints, or one of the hands; an absent region contributes none. */
  lemma TickWritesByRegion(p: RiggedPose, w: Write)
    ensures w in RotationWrites(p) <==>
      w in HeadWrites(p.face) || w in PoseRegionWrites(p.pose) || w in HandWrites(p.rightHand) || w in HandWrites(p.leftHand)
    ensures p.face.None? ==> HeadWrites(p.face) == []
    ensures p.pose.None? ==> PoseRegionWrites(p.pose) == []
    ensures p.rightHand.None? ==> HandWrites(p.rightHand) == []
    ensures p.leftHand.None? ==> HandWrites(p.leftHand) == []
  {
    var body := BodyWrites(p.pose);
    var right := RightArmWrites(p.pose);
    var left := LeftArmWrites(p.pose);
    assert w in PoseRegionWrites(p.pose) <==> w in body || w in right || w in left;
  }

  /** A result with all four regions null writes nothing: rotations and weights stay as they
      were. */
  lemma AbsentRegionsWriteNothing(scene: seq<SceneObject>, rots: seq<Rotation>, weights: seq<seq<real>>,
                                  nodes: Option<NodeTable>)
    requires |rots| == |scene| && DictionariesFit(scene, weights) && (nodes.Some? ==> nodes.value == Table(scene))
    ensures TickRotations(scene, rots, nodes, Some(RiggedPose(None, None, None, None))) == rots
    ensures TickWeights(scene, weights, nodes, Some(RiggedPose(None, None, None, None))) == weights
  {
    assert RotationWrites(RiggedPose(None, None, None, None)) == [];
  }

  /** The loaded avatar: its scene objects in traversal order, the node table once built, and the
      two pieces of per-object state the tick overwrites in place — every object's Euler angles
      and every mesh's morph weights. */
  class AvatarModel {
    const scene: seq<SceneObject>
    var nodes: Option<NodeTable>
    const rotations: array<Rotation>
    const influences: array<seq<real>>

    predicate Valid()
      reads this, rotations, influences
    {
      rotations.Length == |scene| &&
      DictionariesFit(scene, influences[..]) &&
      (nodes.Some? ==> nodes.value == Table(scene) && SlotsBelow(nodes.value, |scene|))
    }

    /** A freshly loaded scene has no table yet. */
    constructor(objects: seq<SceneObject>, rots: seq<Rotation>, weights: seq<seq<real>>)
      requires |rots| == |objects| && DictionariesFit(objects, weights)
      ensures Valid() && nodes.None?
      ensures scene == objects && rotations[..] == rots && influences[..] == weights
    {
      scene := objects;
      nodes := None;
      rotations := new Rotation[|rots|](i requires 0 <= i < |rots| => rots[i]);
      influences := new seq<real>[|weights|](i requires 0 <= i < |weights| => weights[i]);
    }

    /** The effect run on every scene change: traverse the scene from an empty table, filing each
        bone under its raw and normalised names and each mesh under its raw name. */
    method BuildNodes()
      requires Valid()
      modifies this
      ensures Valid() && nodes == Some(Table(scene))
    {
      var t := EmptyTable;
      var i := 0;
      while i < |scene|
        invariant i <= |scene|
        invariant t == Table(scene[..i])
      {
        var obj := scene[i];
        if obj.isBone {
          t := Insert(t, obj.name, i);
          t := Insert(t, Normalize(obj.name), i);
        }
        if obj.isMesh {
          t := Insert(t, obj.name, i);
        }
        assert scene[..i + 1][..i] == scene[..i];
        i := i + 1;
      }
      assert scene[..i] == scene;
      TableSlotsInRange(scene);
      nodes := Some(t);
    }

    /** `rotateBone(name, rot, alpha)`. */
    method RotateBone(name: string, rot: Rotation, alpha: real)
      requires Valid() && nodes.Some?
      modifies rotations
      ensures Valid()
      ensures rotations[..] == ApplyWrite(old(rotations[..]), nodes.value, Write(name, rot, alpha))
    {
      var bone := Resolve(nodes.value, name);
      if bone.Some? {
        var i := bone.value;
        ghost var before := rotations[..];
        rotations[i] := LerpRotation(rotations[i], rot, alpha);
        assert rotations[..] == before[i := LerpRotation(before[i], rot, alpha)];
      }
    }

    /** `Object.keys(hand).forEach(key => rotateBone(key, hand[key], 0.25))`. */
    method RotateHand(hand: HandRig)
      requires Valid() && nodes.Some?
      modifies rotations
      ensures Valid()
      ensures rotations[..] == ApplyWrites(old(rotations[..]), nodes.value, HandWrites(Some(hand)))
    {
      ghost var start := rotations[..];
      var i := 0;
      while i < |hand|
        invariant i <= |hand| && Valid()
        invariant rotations[..] == ApplyWrites(start, nodes.value, EntryWrites(hand[..i]))
      {
        ghost var before := rotations[..];
        RotateBone(hand[i].key, hand[i].rotation, HandAlpha);
        assert hand[..i + 1][..i] == hand[..i];
        ApplySingleWrite(before, nodes.value, Write(hand[i].key, hand[i].rotation, HandAlpha));
        ApplyWritesAppend(start, nodes.value, EntryWrites(hand[..i]), [Write(hand[i].key, hand[i].rotation, HandAlpha)]);
        i := i + 1;
      }
      assert hand[..i] == hand;
    }

    /** `if (pose.J) rotateBone('J', pose.J, alpha)`. */
    method RotateJoint(name: string, rot: Option<Rotation>, alpha: real)
      requires Valid() && nodes.Some?
      modifies rotations
      ensures Valid()
      ensures rotations[..] == ApplyWrites(old(rotations[..]), nodes.value, JointWrite(name, rot, alpha))
    {
      if rot.Some? {
        ghost var before := rotations[..];
        RotateBone(name, rot.value, alpha);
        ApplySingleWrite(before, nodes.value, Write(name, rot.value, alpha));
      }
    }

    /** `headMesh.morphTargetInfluences[index] = lerp(headMesh.morphTargetInfluences[index], target, 0.5)`. */
    method SetWeight(h: nat, index: nat, target: real)
      requires Valid() && h < influences.Length && index < |influences[h]|
      modifies influences
      ensures Valid()
      ensures influences[..] == old(influences[..])[h := ApplyMorph(old(influences[h]), MorphWrite(index, target))]
    {
      var w := influences[h];
      influences[h] := w[index := Lerp(w[index], target, MorphAlpha)];
    }

    /** `if (dict[name] !== undefined) <lerp weight dict[name] toward target>`. */
    method SetNamedMorph(h: nat, dict: map<string, nat>, name: string, target: real)
      requires Valid() && h < influences.Length && IndicesBelow(dict, |influences[h]|)
      modifies influences
      ensures Valid()
      ensures influences[..] == old(influences[..])[h := ApplyMorphs(old(influences[h]), NamedMorph(dict, name, target))]
    {
      if name in dict {
        SetWeight(h, dict[name], target);
        assert [MorphWrite(dict[name], target)][1..] == [];
      }
    }

    /** The blink block: the left blink from the right eye, then the right blink from the left eye. */
    method Blink(h: nat, dict: map<string, nat>, eye: Option<Eye>)
      requires Valid() && h < influences.Length && IndicesBelow(dict, |influences[h]|)
      modifies influences
      ensures Valid()
      ensures influences[..] == old(influences[..])[h := ApplyMorphs(old(influences[h]), EyeWrites(eye, dict))]
    {
      if eye.Some? {
        ghost var w0 := influences[h];
        var e := eye.value;
        ghost var first: seq<MorphWrite> := [];
        if e.r.Some? {
          SetNamedMorph(h, dict, "eyeBlinkLeft", 1.0 - e.r.value);
          first := NamedMorph(dict, "eyeBlinkLeft", 1.0 - e.r.value);
        }
        ghost var w1 := influences[h];
        assert w1 == ApplyMorphs(w0, first);
        assert influences[..] == old(influences[..])[h := w1];
        ghost var second: seq<MorphWrite> := [];
        if e.l.Some? {
          SetNamedMorph(h, dict, "eyeBlinkRight", 1.0 - e.l.value);
          second := NamedMorph(dict, "eyeBlinkRight", 1.0 - e.l.value);
        }
        assert influences[..] == old(influences[..])[h := ApplyMorphs(w1, second)];
        assert EyeWrites(eye, dict) == first + second;
        ApplyMorphsAppend(w0, first, second);
      }
    }

    /** The mouth block: opening from A (on `mouthOpen`, else `jawOpen`), then the smile from half
        of E. */
    method MoveMouth(h: nat, dict: map<string, nat>, mouth: Option<Mouth>)
      requires Valid() && h < influences.Length && IndicesBelow(dict, |influences[h]|)
      modifies influences
      ensures Valid()
      ensures influences[..] == old(influences[..])[h := ApplyMorphs(old(influences[h]), MouthWrites(mouth, dict))]
    {
      if mouth.Some? && mouth.value.shape.Some? {
        ghost var w0 := influences[h];
        var shape := mouth.value.shape.value;
        var mouthOpenIndex := MouthOpenIndex(dict);
        ghost var first: seq<MorphWrite> := [];
        if mouthOpenIndex.Some? {
          SetWeight(h, mouthOpenIndex.value, shape.A);
          first := [MorphWrite(mouthOpenIndex.value, shape.A)];
          assert first[1..] == [];
        }
        SetNamedMorph(h, dict, "mouthSmile", shape.E * 0.5);
        ApplyMorphsAppend(w0, first, NamedMorph(dict, "mouthSmile", shape.E * 0.5));
      }
    }

    /** The morph-target block of the tick, on the head mesh when it has a dictionary. */
    method UpdateMorphs(face: Option<FaceRig>)
      requires Valid() && nodes.Some?
      modifies influences
      ensures Valid()
      ensures influences[..] == FaceWeights(scene, old(influences[..]), nodes.value, face)
    {
      var head := HeadMesh(scene, nodes.value);
      if head.Some? && scene[head.value].morphDictionary.Some? && face.Some? {
        var h := head.value;
        var dict := scene[h].morphDictionary.value;
        ghost var before := influences[..];
        ghost var w0 := influences[h];
        FaceWeightsOnHead(scene, before, nodes.value, face.value, h, dict);
        Blink(h, dict, face.value.eye);
        MoveMouth(h, dict, face.value.mouth);
        ApplyMorphsAppend(w0, EyeWrites(face.value.eye, dict), MouthWrites(face.value.mouth, dict));
      }
    }

    /** The head block: the head, then the neck, when the face carries a head rotation. */
    method RotateHead(face: Option<FaceRig>)
      requires Valid() && nodes.Some?
      modifies rotations
      ensures Valid()
      ensures rotations[..] == ApplyWrites(old(rotations[..]), nodes.value, HeadWrites(face))
    {
      if face.Some? && face.value.head.Some? {
        var h := face.value.head.value;
        var head := Write("Head", Rotation(-h.x, h.y, h.z), HeadAlpha);
        var neck := Write("Neck", Rotation(-h.x * 0.5, h.y * 0.5, h.z * 0.5), NeckAlpha);
        assert HeadWrites(face) == [head, neck];
        RotateBones(head, neck);
      }
    }

    /** Two `rotateBone` calls, one after the other. */
    method RotateBones(first: Write, second: Write)
      requires Valid() && nodes.Some?
      modifies rotations
      ensures Valid()
      ensures rotations[..] == ApplyWrites(old(rotations[..]), nodes.value, [first, second])
    {
      ghost var r0 := rotations[..];
      RotateBone(first.name, first.target, first.alpha);
      RotateBone(second.name, second.target, second.alpha);
      ApplySingleWrite(r0, nodes.value, first);
      ApplySingleWrite(ApplyWrite(r0, nodes.value, first), nodes.value, second);
      ApplyWritesAppend(r0, nodes.value, [first], [second]);
      assert [first] + [second] == [first, second];
    }

    /** Two optional joints, one after the other. */
    method RotateJoints(a: string, ra: Option<Rotation>, b: string, rb: Option<Rotation>, alpha: real)
      requires Valid() && nodes.Some?
      modifies rotations
      ensures Valid()
      ensures rotations[..] == ApplyWrites(old(rotations[..]), nodes.value, JointWrite(a, ra, alpha) + JointWrite(b, rb, alpha))
    {
      ghost var r0 := rotations[..];
      RotateJoint(a, ra, alpha);
      RotateJoint(b, rb, alpha);
      ApplyWritesAppend(r0, nodes.value, JointWrite(a, ra, alpha), JointWrite(b, rb, alpha));
    }

    /** The body block: spine, upper spine, chest, then hips. */
    method RotateBody(pose: Option<PoseRig>)
      requires Valid() && nodes.Some?
      modifies rotations
      ensures Valid()
      ensures rotations[..] == ApplyWrites(old(rotations[..]), nodes.value, BodyWrites(pose))
    {
      if pose.Some? {
        var p := pose.value;
        ghost var r0 := rotations[..];
        ghost var done: seq<Write> := [];
        RotateJoint("Spine", p.Spine, BodyAlpha);
        ApplyWritesAppend(r0, nodes.value, done, JointWrite("Spine", p.Spine, BodyAlpha));
        done := done + JointWrite("Spine", p.Spine, BodyAlpha);
        RotateJoint("Spine1", p.Spine1, BodyAlpha);
        ApplyWritesAppend(r0, nodes.value, done, JointWrite("Spine1", p.Spine1, BodyAlpha));
        done := done + JointWrite("Spine1", p.Spine1, BodyAlpha);
        RotateJoint("Spine2", p.Spine2, BodyAlpha);
        ApplyWritesAppend(r0, nodes.value, done, JointWrite("Spine2", p.Spine2, BodyAlpha));
        done := done + JointWrite("Spine2", p.Spine2, BodyAlpha);
        RotateJoint("Hips", p.Hips, BodyAlpha);
        ApplyWritesAppend(r0, nodes.value, done, JointWrite("Hips", p.Hips, BodyAlpha));
        done := done + JointWrite("Hips", p.Hips, BodyAlpha);
        assert [] + JointWrite("Spine", p.Spine, BodyAlpha) == JointWrite("Spine", p.Spine, BodyAlpha);
      }
    }

    /** The callback run on every rendered frame: nothing before the table is built or without a
        pose; otherwise head and neck, the face's morph targets, the body, the right arm and hand,
        then the left arm and hand. */
    method Tick(pose: Option<RiggedPose>)
      requires Valid()
      modifies rotations, influences
      ensures Valid() && nodes == old(nodes)
      ensures rotations[..] == TickRotations(scene, old(rotations[..]), nodes, pose)
      ensures influences[..] == TickWeights(scene, old(influences[..]), nodes, pose)
    {
      if pose.None? || nodes.None? {
        return;
      }
      var p := pose.value;
      ghost var t := nodes.value;
      ghost var r0 := rotations[..];

      RotateHead(p.face);
      ghost var done := HeadWrites(p.face);
      UpdateMorphs(p.face);

      RotateBody(p.pose);
      ApplyWritesAppend(r0, t, done, BodyWrites(p.pose));
      done := done + BodyWrites(p.pose);

      if p.pose.Some? {
        RotateJoints("RightArm", p.pose.value.RightArm, "RightForeArm", p.pose.value.RightForeArm, BodyAlpha);
      }
      ApplyWritesAppend(r0, t, done, RightArmWrites(p.pose));
      done := done + RightArmWrites(p.pose);

      if p.rightHand.Some? {
        RotateHand(p.rightHand.value);
      }
      ApplyWritesAppend(r0, t, done, HandWrites(p.rightHand));
      done := done + HandWrites(p.rightHand);

      if p.pose.Some? {
        RotateJoints("LeftArm", p.pose.value.LeftArm, "LeftForeArm", p.pose.value.LeftForeArm, BodyAlpha);
      }
      ApplyWritesAppend(r0, t, done, LeftArmWrites(p.pose));
      done := done + LeftArmWrites(p.pose);

      if p.leftHand.Some? {
        RotateHand(p.leftHand.value);
      }
      ApplyWritesAppend(r0, t, done, HandWrites(p.leftHand));
      done := done + HandWrites(p.leftHand);
      assert done == RotationWrites(p);
    }
  }
}