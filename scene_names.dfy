/** Joint-name handling of the retargeting step (src/components/Scene.tsx): the name
    normalisation, the solver-to-skeleton alias table and the ordered list of lookup keys. */
module SceneNames {
  import opened Types

  // ---------------------------------------------------------------------------------------------
  // Name normalisation: lower-case, then remove every "mixamorig", ":" and run of "_" in one
  // left-to-right pass.
  // ---------------------------------------------------------------------------------------------

  predicate IsUpper(c: char) { 'A' <= c <= 'Z' }

  function LowerChar(c: char): (d: char)
    ensures !IsUpper(d)
    ensures IsUpper(c) ==> d as int == c as int + 32
    ensures !IsUpper(c) ==> d == c
  {
    if IsUpper(c) then (c as int + 32) as char else c
  }

  /** Lower-casing of ASCII letters; every other character is kept. */
  function Lower(s: string): (r: string)
    ensures |r| == |s|
    ensures forall i :: 0 <= i < |s| ==> r[i] == LowerChar(s[i])
  {
    if s == [] then [] else [LowerChar(s[0])] + Lower(s[1..])
  }

  const VendorPrefix: string := "mixamorig"

  /** The global replace of the pattern `mixamorig|:|_+` by the empty string. At every position the
      three alternatives start with different characters, so at most one can match there; a run of
      underscores is removed one underscore per step, which yields the same string as removing the
      whole run at once. */
  function StripTokens(s: string): (r: string)
    ensures |r| <= |s|
    ensures forall i :: 0 <= i < |r| ==> r[i] != ':' && r[i] != '_'
    decreases |s|
  {
    if s == [] then []
    else if |s| >= |VendorPrefix| && s[..|VendorPrefix|] == VendorPrefix then StripTokens(s[|VendorPrefix|..])
    else if s[0] == ':' || s[0] == '_' then StripTokens(s[1..])
    else [s[0]] + StripTokens(s[1..])
  }

  /** `normalize`: the output has no ':' and no '_', no upper-case letter, and is never longer
      than the input. */
  function Normalize(name: string): (r: string)
    ensures |r| <= |name|
    ensures forall i :: 0 <= i < |r| ==> r[i] != ':' && r[i] != '_' && !IsUpper(r[i])
  {
    var lowered := Lower(name);
    StripTokensDrawsFrom(lowered);
    StripTokens(lowered)
  }

  /** Stripping only removes characters: every character of the result occurs in the input. */
  lemma {:induction false} StripTokensDrawsFrom(s: string)
    ensures forall i :: 0 <= i < |StripTokens(s)| ==> StripTokens(s)[i] in s
    decreases |s|
  {
    if s != [] {
      StripTokensDrawsFrom(s[1..]);
      if |s| >= |VendorPrefix| && s[..|VendorPrefix|] == VendorPrefix {
        StripTokensDrawsFrom(s[|VendorPrefix|..]);
        assert forall c :: c in s[|VendorPrefix|..] ==> c in s;
      } else {
        assert forall c :: c in s[1..] ==> c in s;
      }
    }
  }

  predicate OccursAt(s: string, t: string, i: nat)
  {
    i + |t| <= |s| && s[i..i + |t|] == t
  }

  /** No ':' or '_' in `s`, and "mixamorig" starts nowhere in it. */
  predicate Plain(s: string)
  {
    (forall i :: 0 <= i < |s| ==> s[i] != ':' && s[i] != '_') &&
    (forall i :: 0 <= i < |s| ==> !OccursAt(s, VendorPrefix, i))
  }

  lemma {:induction false} StripTokensKeepsPlain(s: string)
    requires Plain(s)
    ensures StripTokens(s) == s
    decreases |s|
  {
    if s != [] {
      assert !OccursAt(s, VendorPrefix, 0);
      var t := s[1..];
      forall i | 0 <= i < |t| ensures !OccursAt(t, VendorPrefix, i) {
        assert !OccursAt(s, VendorPrefix, i + 1);
        if i + |VendorPrefix| <= |t| {
          assert t[i..i + |VendorPrefix|] == s[i + 1..i + 1 + |VendorPrefix|];
        }
      }
      StripTokensKeepsPlain(t);
      assert s == [s[0]] + t;
    }
  }

  /** A name whose lower-cased form holds none of the removed tokens normalises to that form. */
  lemma NormalizeOfPlainName(name: string)
    requires Plain(Lower(name))
    ensures Normalize(name) == Lower(name)
  {
    StripTokensKeepsPlain(Lower(name));
  }

  lemma {:induction false} LowerAppend(a: string, b: string)
    ensures Lower(a + b) == Lower(a) + Lower(b)
  {
    if a == [] {
      assert a + b == b;
    } else {
      assert (a + b)[1..] == a[1..] + b;
      LowerAppend(a[1..], b);
    }
  }

  lemma LowerOfLowercase(s: string)
    requires forall i :: 0 <= i < |s| ==> !IsUpper(s[i])
    ensures Lower(s) == s
  {
  }

  lemma StripAfterPrefix(t: string)
    ensures StripTokens(VendorPrefix + t) == StripTokens(t)
  {
    var s := VendorPrefix + t;
    assert s[..|VendorPrefix|] == VendorPrefix && s[|VendorPrefix|..] == t;
  }

  lemma StripAfterSeparator(c: char, t: string)
    requires c == ':' || c == '_'
    ensures StripTokens([c] + t) == StripTokens(t)
  {
    var s := [c] + t;
    assert s[1..] == t;
    if |s| >= |VendorPrefix| {
      assert s[..|VendorPrefix|][0] != VendorPrefix[0];
    }
  }

  lemma StripKeepsChar(c: char, t: string)
    requires c != ':' && c != '_' && !OccursAt([c] + t, VendorPrefix, 0)
    ensures StripTokens([c] + t) == [c] + StripTokens(t)
  {
    assert ([c] + t)[1..] == t;
  }

  lemma LowerVendorPrefixed(t: string)
    ensures Lower(VendorPrefix + t) == VendorPrefix + Lower(t)
  {
    LowerOfLowercase(VendorPrefix);
    LowerAppend(VendorPrefix, t);
  }

  lemma LowerColonPrefixed(t: string)
    ensures Lower([':'] + t) == [':'] + Lower(t)
  {
    LowerAppend([':'], t);
  }

  /** Bone names exported with the vendor prefix, with or without a colon, normalise to the
      same key as the bare joint name: its lower-cased form. */
  lemma NormalizeVendorVariants(bare: string)
    requires Plain(Lower(bare))
    ensures Normalize(bare) == Lower(bare)
    ensures Normalize(VendorPrefix + bare) == Lower(bare)
    ensures Normalize(VendorPrefix + ":" + bare) == Lower(bare)
  {
    var low := Lower(bare);
    StripTokensKeepsPlain(low);
    LowerVendorPrefixed(bare);
    StripAfterPrefix(low);
    var colon := [':'] + bare;
    assert VendorPrefix + ":" + bare == VendorPrefix + colon;
    LowerVendorPrefixed(colon);
    LowerColonPrefixed(bare);
    StripAfterPrefix([':'] + low);
    StripAfterSeparator(':', low);
  }

  /** The colon variant of the vendor prefix normalises like the bare name, whatever the name. */
  lemma NormalizeVendorColon(bare: string)
    ensures Normalize(VendorPrefix + ":" + bare) == Normalize(bare)
  {
    var colon := [':'] + bare;
    assert VendorPrefix + ":" + bare == VendorPrefix + colon;
    LowerVendorPrefixed(colon);
    LowerColonPrefixed(bare);
    StripAfterPrefix([':'] + Lower(bare));
    StripAfterSeparator(':', Lower(bare));
  }

  /** The arm joint names of the body solve qualify for the lemma above. */
  lemma LeftArmIsPlain()
    ensures Lower("LeftArm") == "leftarm" && Plain(Lower("LeftArm"))
  {
  }

  /** No token starts at any character of `p`, when `p` is followed by `t`. */
  predicate NoTokenIn(p: string, t: string)
  {
    forall i :: 0 <= i < |p| ==> p[i] != ':' && p[i] != '_' && !OccursAt(p + t, VendorPrefix, i)
  }

  lemma NoTokenInTail(p: string, t: string)
    requires p != [] && NoTokenIn(p, t)
    ensures NoTokenIn(p[1..], t)
    ensures !OccursAt([p[0]] + (p[1..] + t), VendorPrefix, 0)
  {
    var u, rest := p + t, p[1..];
    assert rest + t == u[1..];
    assert u == [p[0]] + (rest + t);
    forall i | 0 <= i < |rest| ensures rest[i] != ':' && rest[i] != '_' && !OccursAt(rest + t, VendorPrefix, i) {
      assert rest[i] == p[i + 1];
      ShiftedOccurrence(u, i);
    }
  }

  /** Characters at which no token starts are kept. */
  lemma {:induction false} StripKeepsUnmatched(p: string, t: string)
    requires NoTokenIn(p, t)
    ensures StripTokens(p + t) == p + StripTokens(t)
    decreases |p|
  {
    if p == [] {
      assert p + t == t && p + StripTokens(t) == StripTokens(t);
    } else {
      var rest := p[1..];
      NoTokenInTail(p, t);
      StripKeepsChar(p[0], rest + t);
      StripKeepsUnmatched(rest, t);
      calc {
        StripTokens(p + t);
        { assert p + t == [p[0]] + (rest + t); }
        [p[0]] + StripTokens(rest + t);
        [p[0]] + (rest + StripTokens(t));
        { assert p == [p[0]] + rest; }
        p + StripTokens(t);
      }
    }
  }

  lemma ShiftedOccurrence(u: string, i: nat)
    requires u != []
    ensures OccursAt(u[1..], VendorPrefix, i) == OccursAt(u, VendorPrefix, i + 1)
  {
    if i + 1 + |VendorPrefix| <= |u| {
      assert u[1..][i..i + |VendorPrefix|] == u[i + 1..i + 1 + |VendorPrefix|];
    }
  }

  lemma StripNestedPrefix(s: string)
    requires s == VendorPrefix[..4] + VendorPrefix + VendorPrefix[4..]
    ensures StripTokens(s) == VendorPrefix
  {
    var p, t := VendorPrefix[..4], VendorPrefix + VendorPrefix[4..];
    assert s == p + t;
    forall i | 0 <= i < |p| ensures p[i] != ':' && p[i] != '_' && !OccursAt(p + t, VendorPrefix, i) {
      if i == 0 {
        assert (p + t)[5] != VendorPrefix[5];
      } else {
        assert (p + t)[i] != VendorPrefix[0];
      }
    }
    StripKeepsUnmatched(p, t);
    StripAfterPrefix(VendorPrefix[4..]);
    assert Plain(VendorPrefix[4..]);
    StripTokensKeepsPlain(VendorPrefix[4..]);
    assert p + VendorPrefix[4..] == VendorPrefix;
  }

  lemma NormalizeVendorPrefix()
    ensures Normalize(VendorPrefix) == []
  {
    LowerOfLowercase(VendorPrefix);
    StripAfterPrefix([]);
    assert VendorPrefix + [] == VendorPrefix;
  }

  /** Normalisation is a single pass, not a fixed point: removing an inner "mixamorig" can join
      the characters around it into a new one, which only a second pass removes. */
  lemma NormalizeNotIdempotent(s: string)
    requires s == VendorPrefix[..4] + VendorPrefix + VendorPrefix[4..]
    ensures Normalize(s) == VendorPrefix
    ensures Normalize(Normalize(s)) == []
  {
    assert forall i :: 0 <= i < |VendorPrefix| ==> !IsUpper(VendorPrefix[i]);
    assert forall i :: 0 <= i < |s| ==> s[i] in VendorPrefix;
    LowerOfLowercase(s);
    StripNestedPrefix(s);
    NormalizeVendorPrefix();
  }

  // ---------------------------------------------------------------------------------------------
  // The alias table from the hand solver's joint names to the skeleton's bone names.
  // ---------------------------------------------------------------------------------------------

  /** `KalidokitToMixamo`, row by row in source order: the left hand, then the right hand. */
  const LeftHandRows: seq<(string, string)> := [
    ("LeftWrist", "LeftHand"),
    ("LeftThumbProximal", "LeftHandThumb1"),
    ("LeftThumbIntermediate", "LeftHandThumb2"),
    ("LeftThumbDistal", "LeftHandThumb3"),
    ("LeftIndexProximal", "LeftHandIndex1"),
    ("LeftIndexIntermediate", "LeftHandIndex2"),
    ("LeftIndexDistal", "LeftHandIndex3"),
    ("LeftMiddleProximal", "LeftHandMiddle1"),
    ("LeftMiddleIntermediate", "LeftHandMiddle2"),
    ("LeftMiddleDistal", "LeftHandMiddle3"),
    ("LeftRingProximal", "LeftHandRing1"),
    ("LeftRingIntermediate", "LeftHandRing2"),
    ("LeftRingDistal", "LeftHandRing3"),
    ("LeftLittleProximal", "LeftHandPinky1"),
    ("LeftLittleIntermediate", "LeftHandPinky2"),
    ("LeftLittleDistal", "LeftHandPinky3")
  ]

  const RightHandRows: seq<(string, string)> := [
    ("RightWrist", "RightHand"),
    ("RightThumbProximal", "RightHandThumb1"),
    ("RightThumbIntermediate", "RightHandThumb2"),
    ("RightThumbDistal", "RightHandThumb3"),
    ("RightIndexProximal", "RightHandIndex1"),
    ("RightIndexIntermediate", "RightHandIndex2"),
    ("RightIndexDistal", "RightHandIndex3"),
    ("RightMiddleProximal", "RightHandMiddle1"),
    ("RightMiddleIntermediate", "RightHandMiddle2"),
    ("RightMiddleDistal", "RightHandMiddle3"),
    ("RightRingProximal", "RightHandRing1"),
    ("RightRingIntermediate", "RightHandRing2"),
    ("RightRingDistal", "RightHandRing3"),
    ("RightLittleProximal", "RightHandPinky1"),
    ("RightLittleIntermediate", "RightHandPinky2"),
    ("RightLittleDistal", "RightHandPinky3")
  ]

  const AliasRows: seq<(string, string)> := LeftHandRows + RightHandRows

  predicate UniqueKeys(rows: seq<(string, string)>)
  {
    forall i, j :: 0 <= i < j < |rows| ==> rows[i].0 != rows[j].0
  }

  /** The record built from rows, a later row overwriting an earlier one with the same key. */
  function RowsToMap(rows: seq<(string, string)>): (m: map<string, string>)
    ensures forall k :: k in m <==> exists i :: 0 <= i < |rows| && rows[i].0 == k
  {
    if rows == [] then map[]
    else
      var n := |rows| - 1;
      var m := RowsToMap(rows[..n]);
      assert forall i :: 0 <= i < n ==> rows[..n][i] == rows[i];
      m[rows[n].0 := rows[n].1]
  }

  const KalidokitToMixamo: map<string, string> := RowsToMap(AliasRows)

  lemma LeftKeysUnique()
    ensures UniqueKeys(LeftHandRows)
  {
  }

  lemma RightKeysUnique()
    ensures UniqueKeys(RightHandRows)
  {
  }

  lemma AliasKeysUnique()
    ensures UniqueKeys(AliasRows)
  {
    LeftKeysUnique();
    RightKeysUnique();
    assert forall i :: 0 <= i < 16 ==> LeftHandRows[i].0[0] == 'L';
    assert forall j :: 0 <= j < 16 ==> RightHandRows[j].0[0] == 'R';
    forall i, j | 0 <= i < j < |AliasRows| ensures AliasRows[i].0 != AliasRows[j].0 {
      if j < 16 {
        assert AliasRows[i] == LeftHandRows[i] && AliasRows[j] == LeftHandRows[j];
      } else if 16 <= i {
        assert AliasRows[i] == RightHandRows[i - 16] && AliasRows[j] == RightHandRows[j - 16];
      } else {
        assert AliasRows[i] == LeftHandRows[i] && AliasRows[j] == RightHandRows[j - 16];
      }
    }
  }

  predicate UniqueValues(rows: seq<(string, string)>)
  {
    forall i, j :: 0 <= i < j < |rows| ==> rows[i].1 != rows[j].1
  }

  lemma LeftValuesUnique()
    ensures UniqueValues(LeftHandRows)
  {
  }

  lemma RightValuesUnique()
    ensures UniqueValues(RightHandRows)
  {
  }

  lemma AliasValuesUnique()
    ensures UniqueValues(AliasRows)
  {
    LeftValuesUnique();
    RightValuesUnique();
    assert forall i :: 0 <= i < 16 ==> LeftHandRows[i].1[0] == 'L';
    assert forall j :: 0 <= j < 16 ==> RightHandRows[j].1[0] == 'R';
    forall i, j | 0 <= i < j < |AliasRows| ensures AliasRows[i].1 != AliasRows[j].1 {
      if j < 16 {
        assert AliasRows[i] == LeftHandRows[i] && AliasRows[j] == LeftHandRows[j];
      } else if 16 <= i {
        assert AliasRows[i] == RightHandRows[i - 16] && AliasRows[j] == RightHandRows[j - 16];
      } else {
        assert AliasRows[i] == LeftHandRows[i] && AliasRows[j] == RightHandRows[j - 16];
      }
    }
  }

  lemma {:induction false} RowsToMapLookup(rows: seq<(string, string)>, i: nat)
    requires UniqueKeys(rows) && i < |rows|
    ensures rows[i].0 in RowsToMap(rows) && RowsToMap(rows)[rows[i].0] == rows[i].1
  {
    var n := |rows| - 1;
    if i < n {
      assert UniqueKeys(rows[..n]);
      RowsToMapLookup(rows[..n], i);
      assert rows[..n][i] == rows[i];
    }
  }

  lemma {:induction false} RowsToMapSize(rows: seq<(string, string)>)
    requires UniqueKeys(rows)
    ensures |RowsToMap(rows)| == |rows|
  {
    if rows != [] {
      var n := |rows| - 1;
      assert UniqueKeys(rows[..n]);
      RowsToMapSize(rows[..n]);
      assert rows[n].0 !in RowsToMap(rows[..n]);
    }
  }

  lemma AliasLookup(i: nat)
    requires i < |AliasRows|
    ensures AliasRows[i].0 in KalidokitToMixamo && KalidokitToMixamo[AliasRows[i].0] == AliasRows[i].1
  {
    AliasKeysUnique();
    RowsToMapLookup(AliasRows, i);
  }

  /** The table has 32 entries: for each side the wrist and fifteen finger segments. */
  lemma AliasTableSize()
    ensures |KalidokitToMixamo| == 32
  {
    AliasKeysUnique();
    RowsToMapSize(AliasRows);
  }

  /** No two solver joints are sent to the same skeleton bone. */
  lemma AliasTableInjective()
    ensures forall k1, k2 ::
      (k1 in KalidokitToMixamo && k2 in KalidokitToMixamo && KalidokitToMixamo[k1] == KalidokitToMixamo[k2]) ==> k1 == k2
  {
    forall k1, k2 | k1 in KalidokitToMixamo && k2 in KalidokitToMixamo && KalidokitToMixamo[k1] == KalidokitToMixamo[k2]
      ensures k1 == k2
    {
      var i :| 0 <= i < |AliasRows| && AliasRows[i].0 == k1;
      var j :| 0 <= j < |AliasRows| && AliasRows[j].0 == k2;
      AliasLookup(i);
      AliasLookup(j);
      AliasValuesUnique();
    }
  }

  datatype Finger = Thumb | Index | Middle | Ring | Little
  datatype Segment = Proximal | Intermediate | Distal

  /** The hand joints the solver names: a wrist, or one segment of one finger. */
  datatype HandJoint = Wrist(side: Side) | Phalanx(side: Side, finger: Finger, segment: Segment)

  function SideName(s: Side): string
  {
    match s
    case Left => "Left"
    case Right => "Right"
  }

  function FingerName(f: Finger): string
  {
    match f
    case Thumb => "Thumb"
    case Index => "Index"
    case Middle => "Middle"
    case Ring => "Ring"
    case Little => "Little"
  }

  function SegmentName(g: Segment): string
  {
    match g
    case Proximal => "Proximal"
    case Intermediate => "Intermediate"
    case Distal => "Distal"
  }

  /** The skeleton's finger names call the little finger the pinky. */
  function SkeletonFingerName(f: Finger): string
  {
    match f
    case Little => "Pinky"
    case _ => FingerName(f)
  }

  /** The skeleton numbers the segments from the palm outwards. */
  function SegmentNumber(g: Segment): string
  {
    match g
    case Proximal => "1"
    case Intermediate => "2"
    case Distal => "3"
  }

  function KalidokitName(j: HandJoint): string
  {
    match j
    case Wrist(s) => SideName(s) + "Wrist"
    case Phalanx(s, f, g) => SideName(s) + FingerName(f) + SegmentName(g)
  }

  function MixamoName(j: HandJoint): string
  {
    match j
    case Wrist(s) => SideName(s) + "Hand"
    case Phalanx(s, f, g) => SideName(s) + "Hand" + SkeletonFingerName(f) + SegmentNumber(g)
  }

  /** Where a joint's row sits in the table. */
  function RowOf(j: HandJoint): (i: nat)
    ensures i < |AliasRows|
  {
    var base := match j.side case Left => 0 case Right => 16;
    match j
    case Wrist(_) => base
    case Phalanx(_, f, g) =>
      base + 1
      + (match f case Thumb => 0 case Index => 3 case Middle => 6 case Ring => 9 case Little => 12)
      + (match g case Proximal => 0 case Intermediate => 1 case Distal => 2)
  }

  lemma LeftWristRow()
    ensures LeftHandRows[RowOf(Wrist(Left))] == (KalidokitName(Wrist(Left)), MixamoName(Wrist(Left)))
  {
    assert KalidokitName(Wrist(Left)) == "LeftWrist";
    assert MixamoName(Wrist(Left)) == "LeftHand";
  }

  lemma LeftThumbProximalRow()
    ensures LeftHandRows[RowOf(Phalanx(Left, Thumb, Proximal))] == (KalidokitName(Phalanx(Left, Thumb, Proximal)), MixamoName(Phalanx(Left, Thumb, Proximal)))
  {
    assert KalidokitName(Phalanx(Left, Thumb, Proximal)) == "LeftThumbProximal";
    assert MixamoName(Phalanx(Left, Thumb, Proximal)) == "LeftHandThumb1";
  }

  lemma LeftThumbIntermediateRow()
    ensures LeftHandRows[RowOf(Phalanx(Left, Thumb, Intermediate))] == (KalidokitName(Phalanx(Left, Thumb, Intermediate)), MixamoName(Phalanx(Left, Thumb, Intermediate)))
  {
    assert KalidokitName(Phalanx(Left, Thumb, Intermediate)) == "LeftThumbIntermediate";
    assert MixamoName(Phalanx(Left, Thumb, Intermediate)) == "LeftHandThumb2";
  }

  lemma LeftThumbDistalRow()
    ensures LeftHandRows[RowOf(Phalanx(Left, Thumb, Distal))] == (KalidokitName(Phalanx(Left, Thumb, Distal)), MixamoName(Phalanx(Left, Thumb, Distal)))
  {
    assert KalidokitName(Phalanx(Left, Thumb, Distal)) == "LeftThumbDistal";
    assert MixamoName(Phalanx(Left, Thumb, Distal)) == "LeftHandThumb3";
  }

  lemma LeftIndexProximalRow()
    ensures LeftHandRows[RowOf(Phalanx(Left, Index, Proximal))] == (KalidokitName(Phalanx(Left, Index, Proximal)), MixamoName(Phalanx(Left, Index, Proximal)))
  {
    assert KalidokitName(Phalanx(Left, Index, Proximal)) == "LeftIndexProximal";
    assert MixamoName(Phalanx(Left, Index, Proximal)) == "LeftHandIndex1";
  }

  lemma LeftIndexIntermediateRow()
    ensures LeftHandRows[RowOf(Phalanx(Left, Index, Intermediate))] == (KalidokitName(Phalanx(Left, Index, Intermediate)), MixamoName(Phalanx(Left, Index, Intermediate)))
  {
    assert KalidokitName(Phalanx(Left, Index, Intermediate)) == "LeftIndexIntermediate";
    assert MixamoName(Phalanx(Left, Index, Intermediate)) == "LeftHandIndex2";
  }

  lemma LeftIndexDistalRow()
    ensures LeftHandRows[RowOf(Phalanx(Left, Index, Distal))] == (KalidokitName(Phalanx(Left, Index, Distal)), MixamoName(Phalanx(Left, Index, Distal)))
  {
    assert KalidokitName(Phalanx(Left, Index, Distal)) == "LeftIndexDistal";
    assert MixamoName(Phalanx(Left, Index, Distal)) == "LeftHandIndex3";
  }

  lemma LeftMiddleProximalRow()
    ensures LeftHandRows[RowOf(Phalanx(Left, Middle, Proximal))] == (KalidokitName(Phalanx(Left, Middle, Proximal)), MixamoName(Phalanx(Left, Middle, Proximal)))
  {
    assert KalidokitName(Phalanx(Left, Middle, Proximal)) == "LeftMiddleProximal";
    assert MixamoName(Phalanx(Left, Middle, Proximal)) == "LeftHandMiddle1";
  }

  lemma LeftMiddleIntermediateRow()
    ensures LeftHandRows[RowOf(Phalanx(Left, Middle, Intermediate))] == (KalidokitName(Phalanx(Left, Middle, Intermediate)), MixamoName(Phalanx(Left, Middle, Intermediate)))
  {
    assert KalidokitName(Phalanx(Left, Middle, Intermediate)) == "LeftMiddleIntermediate";
    assert MixamoName(Phalanx(Left, Middle, Intermediate)) == "LeftHandMiddle2";
  }

  lemma LeftMiddleDistalRow()
    ensures LeftHandRows[RowOf(Phalanx(Left, Middle, Distal))] == (KalidokitName(Phalanx(Left, Middle, Distal)), MixamoName(Phalanx(Left, Middle, Distal)))
  {
    assert KalidokitName(Phalanx(Left, Middle, Distal)) == "LeftMiddleDistal";
    assert MixamoName(Phalanx(Left, Middle, Distal)) == "LeftHandMiddle3";
  }

  lemma LeftRingProximalRow()
    ensures LeftHandRows[RowOf(Phalanx(Left, Ring, Proximal))] == (KalidokitName(Phalanx(Left, Ring, Proximal)), MixamoName(Phalanx(Left, Ring, Proximal)))
  {
    assert KalidokitName(Phalanx(Left, Ring, Proximal)) == "LeftRingProximal";
    assert MixamoName(Phalanx(Left, Ring, Proximal)) == "LeftHandRing1";
  }

  lemma LeftRingIntermediateRow()
    ensures LeftHandRows[RowOf(Phalanx(Left, Ring, Intermediate))] == (KalidokitName(Phalanx(Left, Ring, Intermediate)), MixamoName(Phalanx(Left, Ring, Intermediate)))
  {
    assert KalidokitName(Phalanx(Left, Ring, Intermediate)) == "LeftRingIntermediate";
    assert MixamoName(Phalanx(Left, Ring, Intermediate)) == "LeftHandRing2";
  }

  lemma LeftRingDistalRow()
    ensures LeftHandRows[RowOf(Phalanx(Left, Ring, Distal))] == (KalidokitName(Phalanx(Left, Ring, Distal)), MixamoName(Phalanx(Left, Ring, Distal)))
  {
    assert KalidokitName(Phalanx(Left, Ring, Distal)) == "LeftRingDistal";
    assert MixamoName(Phalanx(Left, Ring, Distal)) == "LeftHandRing3";
  }

  lemma LeftLittleProximalRow()
    ensures LeftHandRows[RowOf(Phalanx(Left, Little, Proximal))] == (KalidokitName(Phalanx(Left, Little, Proximal)), MixamoName(Phalanx(Left, Little, Proximal)))
  {
    assert KalidokitName(Phalanx(Left, Little, Proximal)) == "LeftLittleProximal";
    assert MixamoName(Phalanx(Left, Little, Proximal)) == "LeftHandPinky1";
  }

  lemma LeftLittleIntermediateRow()
    ensures LeftHandRows[RowOf(Phalanx(Left, Little, Intermediate))] == (KalidokitName(Phalanx(Left, Little, Intermediate)), MixamoName(Phalanx(Left, Little, Intermediate)))
  {
    assert KalidokitName(Phalanx(Left, Little, Intermediate)) == "LeftLittleIntermediate";
    assert MixamoName(Phalanx(Left, Little, Intermediate)) == "LeftHandPinky2";
  }

  lemma LeftLittleDistalRow()
    ensures LeftHandRows[RowOf(Phalanx(Left, Little, Distal))] == (KalidokitName(Phalanx(Left, Little, Distal)), MixamoName(Phalanx(Left, Little, Distal)))
  {
    assert KalidokitName(Phalanx(Left, Little, Distal)) == "LeftLittleDistal";
    assert MixamoName(Phalanx(Left, Little, Distal)) == "LeftHandPinky3";
  }

  lemma RightWristRow()
    ensures RightHandRows[RowOf(Wrist(Right)) - 16] == (KalidokitName(Wrist(Right)), MixamoName(Wrist(Right)))
  {
    assert KalidokitName(Wrist(Right)) == "RightWrist";
    assert MixamoName(Wrist(Right)) == "RightHand";
  }

  lemma RightThumbProximalRow()
    ensures RightHandRows[RowOf(Phalanx(Right, Thumb, Proximal)) - 16] == (KalidokitName(Phalanx(Right, Thumb, Proximal)), MixamoName(Phalanx(Right, Thumb, Proximal)))
  {
    assert KalidokitName(Phalanx(Right, Thumb, Proximal)) == "RightThumbProximal";
    assert MixamoName(Phalanx(Right, Thumb, Proximal)) == "RightHandThumb1";
  }

  lemma RightThumbIntermediateRow()
    ensures RightHandRows[RowOf(Phalanx(Right, Thumb, Intermediate)) - 16] == (KalidokitName(Phalanx(Right, Thumb, Intermediate)), MixamoName(Phalanx(Right, Thumb, Intermediate)))
  {
    assert KalidokitName(Phalanx(Right, Thumb, Intermediate)) == "RightThumbIntermediate";
    assert MixamoName(Phalanx(Right, Thumb, Intermediate)) == "RightHandThumb2";
  }

  lemma RightThumbDistalRow()
    ensures RightHandRows[RowOf(Phalanx(Right, Thumb, Distal)) - 16] == (KalidokitName(Phalanx(Right, Thumb, Distal)), MixamoName(Phalanx(Right, Thumb, Distal)))
  {
    assert KalidokitName(Phalanx(Right, Thumb, Distal)) == "RightThumbDistal";
    assert MixamoName(Phalanx(Right, Thumb, Distal)) == "RightHandThumb3";
  }

  lemma RightIndexProximalRow()
    ensures RightHandRows[RowOf(Phalanx(Right, Index, Proximal)) - 16] == (KalidokitName(Phalanx(Right, Index, Proximal)), MixamoName(Phalanx(Right, Index, Proximal)))
  {
    assert KalidokitName(Phalanx(Right, Index, Proximal)) == "RightIndexProximal";
    assert MixamoName(Phalanx(Right, Index, Proximal)) == "RightHandIndex1";
  }

  lemma RightIndexIntermediateRow()
    ensures RightHandRows[RowOf(Phalanx(Right, Index, Intermediate)) - 16] == (KalidokitName(Phalanx(Right, Index, Intermediate)), MixamoName(Phalanx(Right, Index, Intermediate)))
  {
    assert KalidokitName(Phalanx(Right, Index, Intermediate)) == "RightIndexIntermediate";
    assert MixamoName(Phalanx(Right, Index, Intermediate)) == "RightHandIndex2";
  }

  lemma RightIndexDistalRow()
    ensures RightHandRows[RowOf(Phalanx(Right, Index, Distal)) - 16] == (KalidokitName(Phalanx(Right, Index, Distal)), MixamoName(Phalanx(Right, Index, Distal)))
  {
    assert KalidokitName(Phalanx(Right, Index, Distal)) == "RightIndexDistal";
    assert MixamoName(Phalanx(Right, Index, Distal)) == "RightHandIndex3";
  }

  lemma RightMiddleProximalRow()
    ensures RightHandRows[RowOf(Phalanx(Right, Middle, Proximal)) - 16] == (KalidokitName(Phalanx(Right, Middle, Proximal)), MixamoName(Phalanx(Right, Middle, Proximal)))
  {
    assert KalidokitName(Phalanx(Right, Middle, Proximal)) == "RightMiddleProximal";
    assert MixamoName(Phalanx(Right, Middle, Proximal)) == "RightHandMiddle1";
  }

  lemma RightMiddleIntermediateRow()
    ensures RightHandRows[RowOf(Phalanx(Right, Middle, Intermediate)) - 16] == (KalidokitName(Phalanx(Right, Middle, Intermediate)), MixamoName(Phalanx(Right, Middle, Intermediate)))
  {
    assert KalidokitName(Phalanx(Right, Middle, Intermediate)) == "RightMiddleIntermediate";
    assert MixamoName(Phalanx(Right, Middle, Intermediate)) == "RightHandMiddle2";
  }

  lemma RightMiddleDistalRow()
    ensures RightHandRows[RowOf(Phalanx(Right, Middle, Distal)) - 16] == (KalidokitName(Phalanx(Right, Middle, Distal)), MixamoName(Phalanx(Right, Middle, Distal)))
  {
    assert KalidokitName(Phalanx(Right, Middle, Distal)) == "RightMiddleDistal";
    assert MixamoName(Phalanx(Right, Middle, Distal)) == "RightHandMiddle3";
  }

  lemma RightRingProximalRow()
    ensures RightHandRows[RowOf(Phalanx(Right, Ring, Proximal)) - 16] == (KalidokitName(Phalanx(Right, Ring, Proximal)), MixamoName(Phalanx(Right, Ring, Proximal)))
  {
    assert KalidokitName(Phalanx(Right, Ring, Proximal)) == "RightRingProximal";
    assert MixamoName(Phalanx(Right, Ring, Proximal)) == "RightHandRing1";
  }

  lemma RightRingIntermediateRow()
    ensures RightHandRows[RowOf(Phalanx(Right, Ring, Intermediate)) - 16] == (KalidokitName(Phalanx(Right, Ring, Intermediate)), MixamoName(Phalanx(Right, Ring, Intermediate)))
  {
    assert KalidokitName(Phalanx(Right, Ring, Intermediate)) == "RightRingIntermediate";
    assert MixamoName(Phalanx(Right, Ring, Intermediate)) == "RightHandRing2";
  }

  lemma RightRingDistalRow()
    ensures RightHandRows[RowOf(Phalanx(Right, Ring, Distal)) - 16] == (KalidokitName(Phalanx(Right, Ring, Distal)), MixamoName(Phalanx(Right, Ring, Distal)))
  {
    assert KalidokitName(Phalanx(Right, Ring, Distal)) == "RightRingDistal";
    assert MixamoName(Phalanx(Right, Ring, Distal)) == "RightHandRing3";
  }

  lemma RightLittleProximalRow()
    ensures RightHandRows[RowOf(Phalanx(Right, Little, Proximal)) - 16] == (KalidokitName(Phalanx(Right, Little, Proximal)), MixamoName(Phalanx(Right, Little, Proximal)))
  {
    assert KalidokitName(Phalanx(Right, Little, Proximal)) == "RightLittleProximal";
    assert MixamoName(Phalanx(Right, Little, Proximal)) == "RightHandPinky1";
  }

  lemma RightLittleIntermediateRow()
    ensures RightHandRows[RowOf(Phalanx(Right, Little, Intermediate)) - 16] == (KalidokitName(Phalanx(Right, Little, Intermediate)), MixamoName(Phalanx(Right, Little, Intermediate)))
  {
    assert KalidokitName(Phalanx(Right, Little, Intermediate)) == "RightLittleIntermediate";
    assert MixamoName(Phalanx(Right, Little, Intermediate)) == "RightHandPinky2";
  }

  lemma RightLittleDistalRow()
    ensures RightHandRows[RowOf(Phalanx(Right, Little, Distal)) - 16] == (KalidokitName(Phalanx(Right, Little, Distal)), MixamoName(Phalanx(Right, Little, Distal)))
  {
    assert KalidokitName(Phalanx(Right, Little, Distal)) == "RightLittleDistal";
    assert MixamoName(Phalanx(Right, Little, Distal)) == "RightHandPinky3";
  }

  lemma LeftRowFollowsNamingRule(j: HandJoint)
    requires j.side == Left
    ensures LeftHandRows[RowOf(j)] == (KalidokitName(j), MixamoName(j))
  {
    match j
    case Wrist(_) => LeftWristRow();
    case Phalanx(_, Thumb, Proximal) => LeftThumbProximalRow();
    case Phalanx(_, Thumb, Intermediate) => LeftThumbIntermediateRow();
    case Phalanx(_, Thumb, Distal) => LeftThumbDistalRow();
    case Phalanx(_, Index, Proximal) => LeftIndexProximalRow();
    case Phalanx(_, Index, Intermediate) => LeftIndexIntermediateRow();
    case Phalanx(_, Index, Distal) => LeftIndexDistalRow();
    case Phalanx(_, Middle, Proximal) => LeftMiddleProximalRow();
    case Phalanx(_, Middle, Intermediate) => LeftMiddleIntermediateRow();
    case Phalanx(_, Middle, Distal) => LeftMiddleDistalRow();
    case Phalanx(_, Ring, Proximal) => LeftRingProximalRow();
    case Phalanx(_, Ring, Intermediate) => LeftRingIntermediateRow();
    case Phalanx(_, Ring, Distal) => LeftRingDistalRow();
    case Phalanx(_, Little, Proximal) => LeftLittleProximalRow();
    case Phalanx(_, Little, Intermediate) => LeftLittleIntermediateRow();
    case Phalanx(_, Little, Distal) => LeftLittleDistalRow();
  }

  lemma RightRowFollowsNamingRule(j: HandJoint)
    requires j.side == Right
    ensures RightHandRows[RowOf(j) - 16] == (KalidokitName(j), MixamoName(j))
  {
    match j
    case Wrist(_) => RightWristRow();
    case Phalanx(_, Thumb, Proximal) => RightThumbProximalRow();
    case Phalanx(_, Thumb, Intermediate) => RightThumbIntermediateRow();
    case Phalanx(_, Thumb, Distal) => RightThumbDistalRow();
    case Phalanx(_, Index, Proximal) => RightIndexProximalRow();
    case Phalanx(_, Index, Intermediate) => RightIndexIntermediateRow();
    case Phalanx(_, Index, Distal) => RightIndexDistalRow();
    case Phalanx(_, Middle, Proximal) => RightMiddleProximalRow();
    case Phalanx(_, Middle, Intermediate) => RightMiddleIntermediateRow();
    case Phalanx(_, Middle, Distal) => RightMiddleDistalRow();
    case Phalanx(_, Ring, Proximal) => RightRingProximalRow();
    case Phalanx(_, Ring, Intermediate) => RightRingIntermediateRow();
    case Phalanx(_, Ring, Distal) => RightRingDistalRow();
    case Phalanx(_, Little, Proximal) => RightLittleProximalRow();
    case Phalanx(_, Little, Intermediate) => RightLittleIntermediateRow();
    case Phalanx(_, Little, Distal) => RightLittleDistalRow();
  }

  lemma RowFollowsNamingRule(j: HandJoint)
    ensures AliasRows[RowOf(j)] == (KalidokitName(j), MixamoName(j))
  {
    if j.side == Left {
      LeftRowFollowsNamingRule(j);
    } else {
      RightRowFollowsNamingRule(j);
    }
  }

  /** Every solver hand joint is in the table, and is sent to the skeleton bone of the same side
      and finger: the wrist to the hand, Proximal/Intermediate/Distal to 1/2/3, Little to Pinky. */
  lemma AliasFollowsNamingRule(j: HandJoint)
    ensures KalidokitName(j) in KalidokitToMixamo
    ensures KalidokitToMixamo[KalidokitName(j)] == MixamoName(j)
  {
    RowFollowsNamingRule(j);
    AliasLookup(RowOf(j));
  }

  /** The hand joint whose row sits at index `i`. */
  function JointOfRow(i: nat): (j: HandJoint)
    requires i < |AliasRows|
    ensures RowOf(j) == i
  {
    var side := if i < 16 then Left else Right;
    var r := i % 16;
    if r == 0 then Wrist(side)
    else
      var f := [Thumb, Index, Middle, Ring, Little][(r - 1) / 3];
      var g := [Proximal, Intermediate, Distal][(r - 1) % 3];
      Phalanx(side, f, g)
  }

  /** Every key of the table is the solver name of a hand joint: the table holds the naming rule
      and nothing else. */
  lemma AliasKeysAreJointNames(k: string)
    requires k in KalidokitToMixamo
    ensures exists j :: KalidokitName(j) == k
  {
    var i :| 0 <= i < |AliasRows| && AliasRows[i].0 == k;
    RowFollowsNamingRule(JointOfRow(i));
  }

  lemma AliasByNamingRule()
    ensures forall j :: KalidokitName(j) in KalidokitToMixamo && KalidokitToMixamo[KalidokitName(j)] == MixamoName(j)
  {
    forall j ensures KalidokitName(j) in KalidokitToMixamo && KalidokitToMixamo[KalidokitName(j)] == MixamoName(j) {
      AliasFollowsNamingRule(j);
    }
  }

  /** `KalidokitToMixamo[name] || name`: a hand joint's solver name becomes its skeleton name, and
      any other name stays as it is. */
  function MappedName(name: string): (r: string)
    ensures forall j :: name == KalidokitName(j) ==> r == MixamoName(j)
    ensures (forall j :: name != KalidokitName(j)) ==> r == name
  {
    AliasByNamingRule();
    if name in KalidokitToMixamo then
      AliasKeysAreJointNames(name);
      KalidokitToMixamo[name]
    else name
  }

  /** The seven keys `rotateBone` tries, in order. */
  function CandidateKeys(name: string): (keys: seq<string>)
    ensures |keys| == 7
  {
    var mapped := MappedName(name);
    [name, mapped, VendorPrefix + name, VendorPrefix + mapped, Lower(name), Lower(mapped), Normalize(name)]
  }
}
