/** The node table the retargeting step builds once per loaded scene (src/components/Scene.tsx,
    the effect at lines 58-78), the seven-key resolution of `rotateBone` and the head-mesh lookup
    of the per-tick update. */
module SceneTable {
  import opened Types
  import opened SceneNames

  /** One object of the loaded scene graph, as the traversal meets it. Only what the retargeting
      step reads is kept: the name, whether it is a bone, whether it is a mesh, and the mesh's
      morph-target dictionary (morph name to weight index) when it has one. */
  datatype SceneObject = SceneObject(
    name: string,
    isBone: bool,
    isMesh: bool,
    morphDictionary: Option<map<string, nat>>)

  /** A script object used as a dictionary: its keys in insertion order (an overwrite keeps the
      key's place) and, for each key, the traversal index of the object filed under it. */
  datatype NodeTable = NodeTable(keys: seq<string>, slots: map<string, nat>)

  predicate WellFormed(t: NodeTable)
  {
    (forall i, j :: 0 <= i < j < |t.keys| ==> t.keys[i] != t.keys[j]) &&
    (forall i :: 0 <= i < |t.keys| ==> t.keys[i] in t.slots) &&
    (forall k :: k in t.slots ==> k in t.keys)
  }

  /** `nodes[k] = obj`. */
  function Insert(t: NodeTable, k: string, v: nat): (r: NodeTable)
    requires WellFormed(t)
    ensures WellFormed(r)
    ensures r.slots == t.slots[k := v]
    ensures k in t.slots ==> r.keys == t.keys
    ensures k !in t.slots ==> r.keys == t.keys + [k]
  {
    if k in t.slots then NodeTable(t.keys, t.slots[k := v])
    else NodeTable(t.keys + [k], t.slots[k := v])
  }

  /** The keys under which the traversal files an object: a bone under its raw and its normalised
      name, a mesh under its raw name. */
  predicate FiledUnder(obj: SceneObject, k: string)
  {
    (obj.isBone && (k == obj.name || k == Normalize(obj.name))) || (obj.isMesh && k == obj.name)
  }

  /** The traversal's visit of the object at index `i`. */
  function File(t: NodeTable, obj: SceneObject, i: nat): (r: NodeTable)
    requires WellFormed(t)
    ensures WellFormed(r)
  {
    var b := if obj.isBone then Insert(Insert(t, obj.name, i), Normalize(obj.name), i) else t;
    if obj.isMesh then Insert(b, obj.name, i) else b
  }

  /** The slot updates of one visit, for any raw and normalised key. */
  function Filed(m: map<string, nat>, bone: bool, mesh: bool, raw: string, norm: string, i: nat): map<string, nat>
  {
    var b := if bone then m[raw := i][norm := i] else m;
    if mesh then b[raw := i] else b
  }

  lemma FiledLookup(m: map<string, nat>, bone: bool, mesh: bool, raw: string, norm: string, i: nat, k: string)
    ensures k in Filed(m, bone, mesh, raw, norm, i) <==> k in m || (bone && (k == raw || k == norm)) || (mesh && k == raw)
    ensures (bone && (k == raw || k == norm)) || (mesh && k == raw) ==> Filed(m, bone, mesh, raw, norm, i)[k] == i
    ensures !((bone && (k == raw || k == norm)) || (mesh && k == raw)) && k in m ==> Filed(m, bone, mesh, raw, norm, i)[k] == m[k]
  {
  }

  /** Visiting an object files it under its keys and leaves every other key as it was. */
  lemma FileLookup(t: NodeTable, obj: SceneObject, i: nat, k: string)
    requires WellFormed(t)
    ensures k in File(t, obj, i).slots <==> k in t.slots || FiledUnder(obj, k)
    ensures FiledUnder(obj, k) ==> File(t, obj, i).slots[k] == i
    ensures !FiledUnder(obj, k) && k in t.slots ==> File(t, obj, i).slots[k] == t.slots[k]
  {
    var norm := Normalize(obj.name);
    assert File(t, obj, i).slots == Filed(t.slots, obj.isBone, obj.isMesh, obj.name, norm, i);
    FiledLookup(t.slots, obj.isBone, obj.isMesh, obj.name, norm, i, k);
  }

  const EmptyTable: NodeTable := NodeTable([], map[])

  /** The table after traversing `scene`, starting from an empty one. */
  function Table(scene: seq<SceneObject>): (t: NodeTable)
    ensures WellFormed(t)
  {
    if scene == [] then EmptyTable
    else
      var n := |scene| - 1;
      File(Table(scene[..n]), scene[n], n)
  }

  /** Every slot holds the index of an object of the scene. */
  lemma {:induction false} TableSlotsInRange(scene: seq<SceneObject>)
    ensures forall k :: k in Table(scene).slots ==> Table(scene).slots[k] < |scene|
  {
    if scene != [] {
      var n := |scene| - 1;
      TableSlotsInRange(scene[..n]);
      forall k | k in Table(scene).slots ensures Table(scene).slots[k] < |scene| {
        FileLookup(Table(scene[..n]), scene[n], n, k);
      }
    }
  }

  /** A key is in the table exactly when some object is filed under it. */
  lemma {:induction false} TableKeys(scene: seq<SceneObject>, k: string)
    ensures k in Table(scene).slots <==> exists i :: 0 <= i < |scene| && FiledUnder(scene[i], k)
  {
    if scene != [] {
      var n := |scene| - 1;
      TableKeys(scene[..n], k);
      FileLookup(Table(scene[..n]), scene[n], n, k);
      assert forall i :: 0 <= i < n ==> scene[..n][i] == scene[i];
    }
  }

  /** A later filing under the same key overwrites an earlier one: the table holds the last
      object filed under each key. */
  lemma {:induction false} TableLastWins(scene: seq<SceneObject>, k: string)
    requires k in Table(scene).slots
    ensures Table(scene).slots[k] < |scene| && FiledUnder(scene[Table(scene).slots[k]], k)
    ensures forall j :: Table(scene).slots[k] < j < |scene| ==> !FiledUnder(scene[j], k)
  {
    var n := |scene| - 1;
    var prefix := scene[..n];
    FileLookup(Table(prefix), scene[n], n, k);
    if !FiledUnder(scene[n], k) {
      TableLastWins(prefix, k);
      assert forall i :: 0 <= i < n ==> prefix[i] == scene[i];
    }
  }

  /** The key chain resolution: the slot of the first key present in the table. */
  function FirstHit(t: NodeTable, keys: seq<string>): (r: Option<nat>)
    ensures r.None? <==> forall i :: 0 <= i < |keys| ==> keys[i] !in t.slots
    ensures r.Some? ==> exists i :: (0 <= i < |keys| && keys[i] in t.slots && t.slots[keys[i]] == r.value &&
      forall j :: 0 <= j < i ==> keys[j] !in t.slots)
  {
    if keys == [] then None
    else if keys[0] in t.slots then Some(t.slots[keys[0]])
    else
      var r := FirstHit(t, keys[1..]);
      assert forall i :: 1 <= i < |keys| ==> keys[i] == keys[1..][i - 1];
      r
  }

  /** The object `rotateBone(name, ...)` writes to, if any. */
  function Resolve(t: NodeTable, name: string): (r: Option<nat>)
    ensures r.None? <==> forall i :: 0 <= i < 7 ==> CandidateKeys(name)[i] !in t.slots
    ensures r.Some? ==> exists i :: (0 <= i < 7 && CandidateKeys(name)[i] in t.slots &&
      t.slots[CandidateKeys(name)[i]] == r.value && forall j :: 0 <= j < i ==> CandidateKeys(name)[j] !in t.slots)
  {
    FirstHit(t, CandidateKeys(name))
  }

  lemma SingleObjectTable(obj: SceneObject)
    ensures forall k :: k in Table([obj]).slots <==> FiledUnder(obj, k)
    ensures forall k :: k in Table([obj]).slots ==> Table([obj]).slots[k] == 0
  {
    assert [obj][..0] == [];
    forall k ensures (k in Table([obj]).slots <==> FiledUnder(obj, k)) && (k in Table([obj]).slots ==> Table([obj]).slots[k] == 0) {
      FileLookup(EmptyTable, obj, 0, k);
    }
  }

  /** In a table whose every slot is the same object, a request resolves to that object as soon
      as one of its candidate keys is present. */
  lemma ResolveToOnlyObject(t: NodeTable, name: string, i: nat)
    requires forall k :: k in t.slots ==> t.slots[k] == 0
    requires i < 7 && CandidateKeys(name)[i] in t.slots
    ensures Resolve(t, name) == Some(0)
  {
  }

  lemma ResolveBareName(joint: string)
    ensures Resolve(Table([SceneObject(joint, true, false, None)]), joint) == Some(0)
  {
    var bone := SceneObject(joint, true, false, None);
    SingleObjectTable(bone);
    assert FiledUnder(bone, CandidateKeys(joint)[0]);
    ResolveToOnlyObject(Table([bone]), joint, 0);
  }

  lemma ResolveVendorName(joint: string)
    ensures Resolve(Table([SceneObject(VendorPrefix + joint, true, false, None)]), joint) == Some(0)
  {
    var bone := SceneObject(VendorPrefix + joint, true, false, None);
    SingleObjectTable(bone);
    var keys := CandidateKeys(joint);
    assert keys[2] == VendorPrefix + joint;
    ResolveToOnlyObject(Table([bone]), joint, 2);
  }

  lemma ResolveVendorColonName(joint: string)
    ensures Resolve(Table([SceneObject(VendorPrefix + ":" + joint, true, false, None)]), joint) == Some(0)
  {
    var bone := SceneObject(VendorPrefix + ":" + joint, true, false, None);
    SingleObjectTable(bone);
    NormalizeVendorColon(joint);
    assert FiledUnder(bone, CandidateKeys(joint)[6]);
    ResolveToOnlyObject(Table([bone]), joint, 6);
  }

  /** A request resolves to the bone of a one-bone skeleton whether the bone is exported under the
      bare joint name, with the vendor prefix, or with the vendor prefix and a colon. */
  lemma ResolveAcrossExportConventions(joint: string, boneName: string)
    requires boneName == joint || boneName == VendorPrefix + joint || boneName == VendorPrefix + ":" + joint
    ensures Resolve(Table([SceneObject(boneName, true, false, None)]), joint) == Some(0)
  {
    if boneName == joint {
      ResolveBareName(joint);
    } else if boneName == VendorPrefix + joint {
      ResolveVendorName(joint);
    } else {
      ResolveVendorColonName(joint);
    }
  }

  /** The first key, in the table's key order, whose object has a morph dictionary and a name
      containing "Head" or "Face" (`Object.values(nodes).find(...)`). */
  function FindFaceMesh(scene: seq<SceneObject>, t: NodeTable, keys: seq<string>): (r: Option<nat>)
    requires forall i :: 0 <= i < |keys| ==> keys[i] in t.slots && t.slots[keys[i]] < |scene|
    ensures r.Some? ==> r.value < |scene| && IsFaceMesh(scene[r.value])
    ensures r.Some? ==> exists i :: (0 <= i < |keys| && t.slots[keys[i]] == r.value &&
      forall j :: 0 <= j < i ==> !IsFaceMesh(scene[t.slots[keys[j]]]))
    ensures r.None? <==> forall i :: 0 <= i < |keys| ==> !IsFaceMesh(scene[t.slots[keys[i]]])
  {
    if keys == [] then None
    else if IsFaceMesh(scene[t.slots[keys[0]]]) then Some(t.slots[keys[0]])
    else
      var r := FindFaceMesh(scene, t, keys[1..]);
      assert forall i :: 1 <= i < |keys| ==> keys[i] == keys[1..][i - 1];
      r
  }

  predicate Contains(s: string, part: string)
  {
    exists i: nat :: i <= |s| && OccursAt(s, part, i)
  }

  predicate IsFaceMesh(obj: SceneObject)
  {
    obj.morphDictionary.Some? && (Contains(obj.name, "Head") || Contains(obj.name, "Face"))
  }

  /** `nodes.Wolf3D_Head || nodes.Head_2 || <the first face mesh in key order>`. */
  function HeadMesh(scene: seq<SceneObject>, t: NodeTable): (r: Option<nat>)
    requires WellFormed(t) && forall k :: k in t.slots ==> t.slots[k] < |scene|
    ensures r.Some? ==> r.value < |scene|
    ensures "Wolf3D_Head" in t.slots ==> r == Some(t.slots["Wolf3D_Head"])
    ensures "Wolf3D_Head" !in t.slots && "Head_2" in t.slots ==> r == Some(t.slots["Head_2"])
    ensures "Wolf3D_Head" !in t.slots && "Head_2" !in t.slots ==> r == FindFaceMesh(scene, t, t.keys)
    ensures "Wolf3D_Head" !in t.slots && "Head_2" !in t.slots ==>
      (r.Some? ==> IsFaceMesh(scene[r.value])) &&
      (r.None? <==> forall k :: k in t.slots ==> !IsFaceMesh(scene[t.slots[k]]))
  {
    if "Wolf3D_Head" in t.slots then Some(t.slots["Wolf3D_Head"])
    else if "Head_2" in t.slots then Some(t.slots["Head_2"])
    else
      var r := FindFaceMesh(scene, t, t.keys);
      assert forall k :: k in t.slots ==> exists i :: 0 <= i < |t.keys| && t.keys[i] == k;
      r
  }
}
