# Avatar retargeting core, in Dafny

This project models the core of a browser application that drives a rigged 3D avatar from a
webcam. A holistic landmark tracker turns each camera frame into body, face and hand landmarks.
A rigging library solves those landmarks into joint rotations and face coefficients. On every
rendered frame the avatar's bones and face morph weights are moved toward that result.

The model covers six parts of the source:

- **SceneNames** (`src/components/Scene.tsx`): the bone-name normalisation (lower-case, then
  remove `mixamorig`, `:` and runs of `_` in one left-to-right pass), the 32-entry alias table
  from the hand solver's joint names to the skeleton's bone names, and the seven keys a bone
  lookup tries, in order.
- **SceneTable** (`src/components/Scene.tsx`): the node table built once per loaded scene. Bones
  are filed under their raw and normalised names, meshes under their raw name, and later filings
  overwrite earlier ones. Also the seven-key resolution and the head-mesh lookup.
- **SceneTick** (`src/components/Scene.tsx`): the per-frame update, as class `AvatarModel`. It
  holds the scene objects' Euler angles and the meshes' morph weights in arrays and overwrites
  them in place, as the frame callback does. Each method is proved equal to a specification
  function (`TickRotations`, `TickWeights`). Lemmas about those functions state the blend
  factors, the head and neck targets, the morph channels, the geometric convergence of repeated
  blending, and the frame conditions.
- **HolisticTracker** (`src/components/HolisticTracker.tsx`): the result handler, as a pure
  function from landmark presence and solver outcomes to the callbacks it makes. Also the camera
  lifecycle as class `Tracker`: the retry counter with its budget of three, the error messages,
  and teardown.
- **App** (`src/App.tsx`): the application's state cells and handlers, as class `Shell`. The
  only computation is `String.prototype.trim`, modelled with the full ECMAScript white-space set.
- **BackgroundPicker**, **AvatarGallery**, **Data**, **AvatarLibrary** and **Types**
  (`src/components/BackgroundPicker.tsx`, `src/components/AvatarGallery.tsx`, `src/data.ts`,
  `src/avatars.ts`, `src/types.ts`):
  - the upload validation and the custom-background list;
  - the category filter and card selection;
  - the built-in tables;
  - the shared record types and the smoothing constant.

Numbers are modelled as mathematical reals. `THREE.MathUtils.lerp(a, b, t)` is
`(1 - t) * a + t * b`.

On these points the model keeps to what the code does:

- The 3D pose input is `poseWorldLandmarks`, else the field `ea`
  (`src/components/HolisticTracker.tsx:65`). No other field of the result is scanned for a
  landmark array.
- Angles and weights are blended without clamping, and non-finite inputs are not held back
  (`src/components/Scene.tsx:99-103`, `src/components/Scene.tsx:118-130`).
- The node table holds raw and normalised bone names only (`src/components/Scene.tsx:65-74`). The
  alias table is applied at lookup time (`src/components/Scene.tsx:89`), not when the table is
  built.
- The alias table has 32 entries, 16 per side: the 15 finger segments plus the wrist
  (`src/components/Scene.tsx:15-51`).
- The face record's `head`, `eye`, `mouth` and `mouth.shape`, and each eye's `l` and `r`, are
  optional in the model. `src/types.ts:11-27` declares them required, but the frame callback
  reads the pose untyped and tests each one for presence (`src/components/Scene.tsx:115-126`).
- `DEFAULT_SMOOTHING` (`src/types.ts:99-106`) is not read by the frame callback, which uses its
  own literal blend factors (0.15, 0.1, 0.25 and 0.5).
- The built-in backgrounds (`src/data.ts:1-32`) have no Arabic name and no image. They carry a
  `url` field that the background record (`src/types.ts:58-65`) does not declare and nothing
  reads.
- Every library avatar in `src/avatars.ts:13-68` is in the male category, so the female and
  character tabs are empty.

## Model

| member | source | states |
|---|---|---|
| Types.DefaultSmoothingInOpenUnitInterval | src/types.ts:99-106 | every default smoothing coefficient lies strictly between 0 and 1 |
| Types.DefaultSmoothingHandsAndFaceFaster | src/types.ts:99-106 | the hands and face coefficients exceed each of head, neck, spine and arms |
| SceneNames.LowerChar | src/components/Scene.tsx:60 | an upper-case ASCII letter becomes its lower-case letter; every other character is kept; the result is never upper case |
| SceneNames.Lower | src/components/Scene.tsx:60 | `toLowerCase` on ASCII: the length is kept and each character is lower-cased on its own |
| SceneNames.StripTokens | src/components/Scene.tsx:60 | removing `mixamorig`, `:` and `_` runs leaves no `:` or `_` and never lengthens the lower-cased string it is given |
| SceneNames.Normalize | src/components/Scene.tsx:60 | with ASCII lower-casing, a normalised name has no `:`, no `_`, no upper-case ASCII letter, and is no longer than the input |
| SceneNames.StripTokensDrawsFrom | src/components/Scene.tsx:60 | every character of the stripped name occurs in the input |
| SceneNames.StripTokensKeepsPlain | src/components/Scene.tsx:60 | a name with no removable token is left unchanged by the removal |
| SceneNames.NormalizeOfPlainName | src/components/Scene.tsx:60 | a name whose lower-case form has no removable token normalises to its lower-case form |
| SceneNames.LowerAppend | src/components/Scene.tsx:60 | lower-casing distributes over concatenation |
| SceneNames.StripKeepsUnmatched | src/components/Scene.tsx:60 | a prefix containing no removable token survives the removal verbatim |
| SceneNames.NormalizeVendorVariants | src/components/Scene.tsx:60 | `J`, `mixamorigJ` and `mixamorig:J` all normalise to the lower-case of `J` |
| SceneNames.NormalizeVendorColon | src/components/Scene.tsx:60 | for every name `J`, `mixamorig:J` normalises exactly as `J` does |
| SceneNames.NormalizeVendorPrefix | src/components/Scene.tsx:60 | the vendor prefix alone normalises to the empty name |
| SceneNames.NormalizeNotIdempotent | src/components/Scene.tsx:60 | the removal is one pass: `mixamixamorigmorig` normalises to `mixamorig`, which normalises again to the empty name |
| SceneNames.RowsToMap | src/components/Scene.tsx:15-51 | the record built from the rows has exactly the rows' keys |
| SceneNames.RowsToMapLookup | src/components/Scene.tsx:15-51 | with distinct keys each row's key maps to that row's value |
| SceneNames.RowsToMapSize | src/components/Scene.tsx:15-51 | with distinct keys the record has one entry per row |
| SceneNames.AliasKeysUnique | src/components/Scene.tsx:15-51 | no two rows of the alias table share a solver name |
| SceneNames.AliasValuesUnique | src/components/Scene.tsx:15-51 | no two rows of the alias table share a skeleton name |
| SceneNames.AliasLookup | src/components/Scene.tsx:15-51 | every row of the alias table is an entry of the record |
| SceneNames.AliasTableSize | src/components/Scene.tsx:15-51 | the alias table has 32 entries |
| SceneNames.AliasTableInjective | src/components/Scene.tsx:15-51 | no two solver joints are sent to the same skeleton bone |
| SceneNames.RowOf | src/components/Scene.tsx:17-50 | each hand joint's row lies inside the table |
| SceneNames.RowFollowsNamingRule | src/components/Scene.tsx:17-50 | each row is the joint's solver name paired with its skeleton name |
| SceneNames.AliasFollowsNamingRule | src/components/Scene.tsx:15-51 | every solver hand joint is in the table and maps to the same side and finger: wrist to hand, Proximal/Intermediate/Distal to 1/2/3, Little to Pinky |
| SceneNames.JointOfRow | src/components/Scene.tsx:17-50 | every row of the table belongs to a hand joint: the joint whose row it is |
| SceneNames.AliasKeysAreJointNames | src/components/Scene.tsx:15-51 | every key of the alias table is the solver name of some hand joint |
| SceneNames.AliasByNamingRule | src/components/Scene.tsx:15-51 | for every hand joint, the table sends its solver name to its skeleton name |
| SceneNames.MappedName | src/components/Scene.tsx:89 | a hand joint's solver name becomes that joint's skeleton name by the naming rule; every other name is returned unchanged |
| SceneNames.CandidateKeys | src/components/Scene.tsx:89-97 | the seven keys `rotateBone` tries, in its order; their first-hit rule is stated by `SceneTable.Resolve` |
| SceneTable.Insert | src/components/Scene.tsx:67-72 | an assignment keeps the table well formed, sets the key's slot, and appends a new key at the end of the key order while an overwrite keeps its place |
| SceneTable.File | src/components/Scene.tsx:65-74 | one visit of the traversal keeps the table well formed; what it files is stated by `FileLookup` |
| SceneTable.Table | src/components/Scene.tsx:58-78 | the table built by the traversal is well formed; its keys and slots are stated by `TableKeys` and `TableLastWins` |
| SceneTable.FileLookup | src/components/Scene.tsx:65-74 | visiting an object files it under its raw name (bone or mesh) and its normalised name (bone), and leaves every other key as it was |
| SceneTable.TableSlotsInRange | src/components/Scene.tsx:65-74 | every slot holds the index of an object of the scene |
| SceneTable.TableKeys | src/components/Scene.tsx:59-74 | a key is in the table exactly when some object is filed under it |
| SceneTable.TableLastWins | src/components/Scene.tsx:65-74 | the table holds the last object filed under each key |
| SceneTable.Resolve | src/components/Scene.tsx:89-97 | a request resolves to the slot of the first present key among name, mapped name, `mixamorig`+name, `mixamorig`+mapped name, lower-cased name, lower-cased mapped name and normalised name, and to nothing exactly when none is present |
| SceneTable.FirstHit | src/components/Scene.tsx:91-97 | the key chain yields the slot of the first present key, and nothing exactly when no key is present |
| SceneTable.SingleObjectTable | src/components/Scene.tsx:65-74 | a one-object scene files exactly that object under exactly its keys |
| SceneTable.ResolveToOnlyObject | src/components/Scene.tsx:91-97 | in a table of one object, a request resolves to it once any of its seven keys is present |
| SceneTable.ResolveBareName | src/components/Scene.tsx:91 | a request resolves to a bone exported under the bare joint name |
| SceneTable.ResolveVendorName | src/components/Scene.tsx:93 | a request resolves to a bone exported as `mixamorigJ` |
| SceneTable.ResolveVendorColonName | src/components/Scene.tsx:97 | for every joint name, a request resolves to a bone exported as `mixamorig:J` through its normalised name |
| SceneTable.ResolveAcrossExportConventions | src/components/Scene.tsx:89-97 | every request `J` resolves in a one-bone skeleton whose bone is named `J`, `mixamorigJ` or `mixamorig:J` |
| SceneTable.FindFaceMesh | src/components/Scene.tsx:113 | the first object in key order that has a morph dictionary and a name containing `Head` or `Face`, and none exactly when no object qualifies |
| SceneTable.HeadMesh | src/components/Scene.tsx:113 | `Wolf3D_Head` wins, then `Head_2`; without both, the result is exactly the first face mesh in key order, and none when no mesh qualifies |
| SceneTick.Lerp | src/components/Scene.tsx:100-102 | `THREE.MathUtils.lerp`; its bounds and its offset law are stated by `LerpBetween` and `LerpOffset` |
| SceneTick.LerpBetween | src/components/Scene.tsx:100-102 | for a blend factor in [0, 1] the new angle lies between the old angle and the target |
| SceneTick.LerpOffset | src/components/Scene.tsx:100-102 | one blend scales the offset from the target by 1 - t |
| SceneTick.ApproachStep | src/components/Scene.tsx:100-102 | one more tick toward a fixed target scales the offset by 1 - t |
| SceneTick.ApproachOffset | src/components/Scene.tsx:100-102 | after n blends toward a fixed target the offset is (1 - t)^n times the first one |
| SceneTick.ApproachDistance | src/components/Scene.tsx:100-102 | for t in [0, 1] the distance to a fixed target shrinks by the factor 1 - t per tick |
| SceneTick.EntryWrites | src/components/Scene.tsx:149-151 | a hand record gives one write per key, in key order, toward that key's rotation with blend 0.25 |
| SceneTick.HeadWrites | src/components/Scene.tsx:107-110 | the head and neck writes; stated by `HeadAndNeckTargets` |
| SceneTick.BodyWrites | src/components/Scene.tsx:135-140 | spine, upper spine, chest and hips, each when present; stated by `PoseJointWrites` |
| SceneTick.RightArmWrites | src/components/Scene.tsx:144-145 | right arm and forearm, each when present; stated by `PoseJointWrites` |
| SceneTick.LeftArmWrites | src/components/Scene.tsx:155-156 | left arm and forearm, each when present; stated by `PoseJointWrites` |
| SceneTick.HandWrites | src/components/Scene.tsx:148-152 | a hand record's writes; stated by `HandEntryWrites` |
| SceneTick.RotationWrites | src/components/Scene.tsx:106-163 | every rotation write of a tick in the callback's order: head and neck, body, right arm, right hand, left arm, left hand; stated by `HeadAndNeckTargets` and `TickWritesByRegion` |
| SceneTick.HeadAndNeckTargets | src/components/Scene.tsx:107-110 | head and neck are written first, and only with a face head rotation: head toward (-x, y, z) with blend 0.15, neck toward exactly half the head target with blend 0.1 |
| SceneTick.InJointWrite | src/components/Scene.tsx:136-139 | a guarded joint call writes exactly when the joint is present |
| SceneTick.PoseWriteHasJoint | src/components/Scene.tsx:135-156 | every body or arm write names a present pose joint and aims at its rotation with blend 0.1 |
| SceneTick.PoseJointIsWritten | src/components/Scene.tsx:135-156 | every present body or arm joint is written with blend 0.1 |
| SceneTick.PoseJointWrites | src/components/Scene.tsx:135-156 | a body or arm joint is written exactly when the pose has it, toward its rotation with blend 0.1; without a pose none is |
| SceneTick.HandEntryWrites | src/components/Scene.tsx:148-152 | a hand's writes are its entries in key order, each with blend 0.25 |
| SceneTick.ApplyWrites | src/components/Scene.tsx:87-104 | a run of `rotateBone` calls keeps the number of objects; stated by `ApplySingleWrite`, `ApplyWritesAppend` and `UnresolvedKeepsRotation` |
| SceneTick.ApplyWrite | src/components/Scene.tsx:87-104 | `rotateBone` moves each axis of the resolved object toward the target by the blend factor, changes no other object, and changes nothing when no key resolves |
| SceneTick.ApplyWritesAppend | src/components/Scene.tsx:86-163 | applying two runs of writes is applying the first, then the second |
| SceneTick.ApplySingleWrite | src/components/Scene.tsx:87-104 | a run of one write is that write |
| SceneTick.UnresolvedKeepsRotation | src/components/Scene.tsx:91-103 | an object that no write resolves to keeps its angles |
| SceneTick.LerpWithin | src/components/Scene.tsx:100-102 | blending two values bounded by b gives a value bounded by b |
| SceneTick.ApplyWritesKeepsBound | src/components/Scene.tsx:99-103 | with blend factors in [0, 1], angles within a bound stay within it when every target is |
| SceneTick.EyeWrites | src/components/Scene.tsx:117-122 | the blink writes; stated by `EyeChannels` |
| SceneTick.MouthOpenIndex | src/components/Scene.tsx:126 | `mouthOpen ?? jawOpen`; stated by `MouthChannels` |
| SceneTick.MouthWrites | src/components/Scene.tsx:125-131 | the mouth writes; stated by `MouthChannels` |
| SceneTick.MorphWrites | src/components/Scene.tsx:117-131 | the morph writes of one face solve; stated by `MorphChannels` |
| SceneTick.EyeChannels | src/components/Scene.tsx:117-122 | a blink write exists exactly for `eyeBlinkLeft` toward 1 - eye.r and `eyeBlinkRight` toward 1 - eye.l, each when the dictionary has the morph and the solve has the eye value |
| SceneTick.MouthChannels | src/components/Scene.tsx:125-131 | with a mouth shape, a mouth write exists exactly for `mouthOpen` toward A, or `jawOpen` toward A when there is no `mouthOpen`, and `mouthSmile` toward half of E, each when the dictionary has it; without a shape there is none |
| SceneTick.MorphChannels | src/components/Scene.tsx:117-131 | the morph writes of one face solve are exactly the blink and mouth channels |
| SceneTick.ApplyMorphs | src/components/Scene.tsx:118-130 | a run of morph assignments keeps the number of weights; stated by `ApplyMorphsAppend` and `ApplyMorphsKeepsUnitInterval` |
| SceneTick.ApplyMorphsAppend | src/components/Scene.tsx:117-131 | applying two runs of morph assignments is applying the first, then the second |
| SceneTick.MorphWritesFit | src/components/Scene.tsx:118-129 | every morph index the face writes comes from the mesh's dictionary |
| SceneTick.MorphTargetsInUnitInterval | src/components/Scene.tsx:120-130 | with eye openness, A and E in [0, 1], every morph target is in [0, 1] |
| SceneTick.ApplyMorphsKeepsUnitInterval | src/components/Scene.tsx:120-130 | weights in [0, 1] stay in [0, 1] under targets in [0, 1] with blend 0.5 |
| SceneTick.TickRotations | src/components/Scene.tsx:80-163 | a tick without a pose or before the table is built leaves every angle unchanged |
| SceneTick.FaceWeights | src/components/Scene.tsx:113-131 | only the head mesh's weights can change, only when there is a face, and every list keeps its length |
| SceneTick.FaceWeightsOnHead | src/components/Scene.tsx:113-131 | with a head mesh that has a dictionary, a face moves exactly that mesh's weights, by its morph writes in order |
| SceneTick.TickWeights | src/components/Scene.tsx:81-131 | without a pose, a table or a face no weight changes |
| SceneTick.TickKeepsUntargeted | src/components/Scene.tsx:87-163 | an object that no write of the tick resolves to keeps its angles |
| SceneTick.TickWritesByRegion | src/components/Scene.tsx:106-163 | every write of a tick comes from the face's head, the pose's body and arm joints or a hand, and an absent region contributes none |
| SceneTick.AbsentRegionsWriteNothing | src/components/Scene.tsx:107-163 | a result with all four regions null changes no angle and no weight |
| SceneTick.AvatarModel.constructor | src/components/Scene.tsx:53-55 | a freshly loaded scene has its angles and weights and no table yet |
| SceneTick.AvatarModel.BuildNodes | src/components/Scene.tsx:58-78 | the traversal loop builds, from an empty table, exactly the specified table |
| SceneTick.AvatarModel.RotateBone | src/components/Scene.tsx:87-104 | the in-place angles become the result of applying one write |
| SceneTick.AvatarModel.RotateHand | src/components/Scene.tsx:148-152 | the loop over a hand's keys leaves the angles equal to applying the hand's writes in order |
| SceneTick.AvatarModel.RotateJoint | src/components/Scene.tsx:136-139 | a guarded joint call applies its write when the joint is present, and nothing otherwise |
| SceneTick.AvatarModel.SetWeight | src/components/Scene.tsx:127 | one weight of one mesh moves toward its target with blend 0.5; nothing else changes |
| SceneTick.AvatarModel.SetNamedMorph | src/components/Scene.tsx:129-130 | a named channel moves when the dictionary has it, and nothing changes otherwise |
| SceneTick.AvatarModel.Blink | src/components/Scene.tsx:117-122 | `eyeBlinkLeft` moves toward 1 - eye.r, then `eyeBlinkRight` toward 1 - eye.l, each only when its index and eye value exist |
| SceneTick.AvatarModel.MoveMouth | src/components/Scene.tsx:125-131 | with a mouth shape, `mouthOpen` (else `jawOpen`) moves toward A, then `mouthSmile` toward half of E |
| SceneTick.AvatarModel.UpdateMorphs | src/components/Scene.tsx:113-131 | the morph block leaves the weights equal to the face-weights specification |
| SceneTick.AvatarModel.RotateHead | src/components/Scene.tsx:107-110 | the head block applies exactly the head and neck writes |
| SceneTick.AvatarModel.RotateBones | src/components/Scene.tsx:108-109 | two bone calls apply their two writes in order |
| SceneTick.AvatarModel.RotateJoints | src/components/Scene.tsx:144-145 | two guarded joint calls apply their writes in order |
| SceneTick.AvatarModel.RotateBody | src/components/Scene.tsx:135-140 | the body block applies spine, upper spine, chest, then hips, each when present |
| SceneTick.AvatarModel.Tick | src/components/Scene.tsx:80-165 | one frame leaves the angles equal to the tick-rotations specification and the weights equal to the tick-weights specification, and keeps the table |
| HolisticTracker.Caught | src/components/HolisticTracker.tsx:67-76 | a solve that throws leaves its region null, and one that returns sets the region to what it returned |
| HolisticTracker.StatusOf | src/components/HolisticTracker.tsx:50-56 | the three presence flags; stated by `StatusComesFirst` |
| HolisticTracker.Pose3D | src/components/HolisticTracker.tsx:65 | the 3D pose input; stated by `Pose3DSource` |
| HolisticTracker.Assemble | src/components/HolisticTracker.tsx:65-111 | the four-region record; stated by `RegionPresence` and `SolveIsolation` |
| HolisticTracker.OnResults | src/components/HolisticTracker.tsx:46-112 | results after unmount make no callback; a mounted handler makes at most two |
| HolisticTracker.StatusComesFirst | src/components/HolisticTracker.tsx:50-56 | with a status listener the status goes out first, with face, pose and hands flags equal to the presence of the landmark sets |
| HolisticTracker.NoListenerNoStatus | src/components/HolisticTracker.tsx:50 | without a status listener only the pose listener is called |
| HolisticTracker.NoPoseEmitsNull | src/components/HolisticTracker.tsx:59-62 | without body landmarks the pose listener gets null and the solvers are not consulted |
| HolisticTracker.PoseEmitsRecord | src/components/HolisticTracker.tsx:106-111 | with body landmarks the pose listener gets the four-region record |
| HolisticTracker.Pose3DSource | src/components/HolisticTracker.tsx:65 | the 3D input is the world landmarks when present, otherwise `ea`, and depends on no other field |
| HolisticTracker.RegionPresence | src/components/HolisticTracker.tsx:67-104 | a region is filled only when its landmarks are present and its solve returned, and a solve that returns on present landmarks puts exactly what it returned in its region |
| HolisticTracker.SolveIsolation | src/components/HolisticTracker.tsx:67-104 | each region depends on its own solve only, whatever the others do, throwing included |
| HolisticTracker.DigitChar | src/components/HolisticTracker.tsx:140 | a digit below ten prints as one decimal digit character |
| HolisticTracker.NatToString | src/components/HolisticTracker.tsx:140 | a count prints as a non-empty string of decimal digits, one digit below ten |
| HolisticTracker.RetryMessage | src/components/HolisticTracker.tsx:139-140 | the retry message; stated by `RetryMessageShowsAttempt` |
| HolisticTracker.RetryMessageShowsAttempt | src/components/HolisticTracker.tsx:139-140 | within the budget the message names attempt retryCount + 1 of 3 and differs from the terminal message |
| HolisticTracker.CameraFailure | src/components/HolisticTracker.tsx:137-146 | what a failed camera start shows and schedules; stated by `CameraFailureDecision` |
| HolisticTracker.CameraFailureDecision | src/components/HolisticTracker.tsx:137-146 | a retry is scheduled exactly while retryCount < 3, and the terminal message is shown exactly when the budget is spent |
| HolisticTracker.RetryBudgetExhausted | src/components/HolisticTracker.tsx:139-146 | within the budget, a failure schedules nothing only at the third retry, where it shows the terminal message |
| HolisticTracker.WebcamErrorMessage | src/components/HolisticTracker.tsx:197-201 | the webcam error message; stated by `WebcamErrorClasses` |
| HolisticTracker.WebcamErrorClasses | src/components/HolisticTracker.tsx:197-201 | `NotAllowedError` gives the permission message, `NotReadableError` the camera-busy message, anything else the generic one, each exactly |
| HolisticTracker.Tracker.constructor | src/components/HolisticTracker.tsx:13-18 | the first render: not ready, no error, retry count 0, no references |
| HolisticTracker.Tracker.Mount | src/components/HolisticTracker.tsx:21-31 | the effect body marks the run mounted and holds an open landmarker, or shows the initialisation message when construction throws |
| HolisticTracker.Tracker.CameraStart | src/components/HolisticTracker.tsx:121-147 | a successful start holds the camera, sets ready, clears the error and resets the count; a failed one shows the retry decision's message and schedules a retry only within the budget |
| HolisticTracker.Tracker.RetryTimerFires | src/components/HolisticTracker.tsx:141-143 | the backoff timer increments the count by one and keeps it within the budget |
| HolisticTracker.Tracker.Teardown | src/components/HolisticTracker.tsx:162-181 | cleanup unmounts, cancels the retry, and drops both references even when stop or close throws |
| HolisticTracker.Tracker.UserMediaError | src/components/HolisticTracker.tsx:195-203 | the webcam error shows the message for its name |
| HolisticTracker.Tracker.Deliver | src/components/HolisticTracker.tsx:46-47 | a delivered result makes the handler's callbacks, and none after unmount |
| App.IsJsWhitespace | src/App.tsx:39 | the characters `trim` removes: the WhiteSpace and LineTerminator code points of section 22.1.3.32 of ECMA-262 |
| App.TrimStart | src/App.tsx:39 | the result is a suffix that does not start with white space, and all that is dropped is white space |
| App.TrimEnd | src/App.tsx:39 | the result is a prefix that does not end with white space, and all that is dropped is white space |
| App.Trim | src/App.tsx:39 | `String.prototype.trim`; stated by `TrimIsInfix`, `TrimHasNoOuterWhitespace` and `TrimEmptyIffAllWhitespace` |
| App.TrimIsInfix | src/App.tsx:39-40 | `trim` returns the infix left after dropping white space at both ends |
| App.TrimHasNoOuterWhitespace | src/App.tsx:39-40 | the trimmed string neither starts nor ends with white space |
| App.TrimEmptyIffAllWhitespace | src/App.tsx:39 | the trimmed string is empty exactly when the input is all white space |
| App.TrimKeepsTrimmed | src/App.tsx:39-40 | a string without white space at either end is its own trim |
| App.TrimIdempotent | src/App.tsx:39-40 | trimming twice is trimming once |
| App.DefaultModelIsFirstAvatar | src/App.tsx:22-24 | the default model is the first library avatar's model |
| App.Shell.constructor | src/App.tsx:14-26 | the first background, no pose, all tracking flags false, camera mode, the default model, form hidden and pre-filled with the model |
| App.Shell.HandlePoseUpdate | src/App.tsx:29-31 | the new pose replaces the stored one wholesale; nothing else changes |
| App.Shell.HandleTrackingUpdate | src/App.tsx:33-35 | the new status replaces the stored one wholesale; nothing else changes |
| App.Shell.Receive | src/App.tsx:62-66 | a status callback reaches the tracking handler and a pose callback the pose handler |
| App.Shell.HandleUrlSubmit | src/App.tsx:37-43 | input that trims to nothing changes nothing; otherwise the model becomes the trimmed input and the form closes |
| App.Shell.HandleSelectAvatar | src/App.tsx:45-48 | the avatar's url becomes both the model and the form's content |
| App.Shell.HandleBackgroundChange | src/App.tsx:50-52 | the chosen background becomes current |
| App.Shell.ToggleUrlInput | src/App.tsx:123 | the link button flips the form's visibility |
| App.Shell.CloseUrlInput | src/App.tsx:142 | the close button hides the form |
| App.Shell.SetMode | src/App.tsx:94-101 | a mode button sets the mode |
| App.Shell.EditInputUrl | src/App.tsx:135 | typing replaces the form's content |
| Data.BuiltInIdsDistinct | src/data.ts:1-32 | five built-in backgrounds with pairwise different ids |
| AvatarLibrary.AllMale | src/avatars.ts:13-68 | every library avatar is in the male category |
| AvatarLibrary.HostedFileInjective | src/avatars.ts:13-68 | hosted files with one extension and same-length ids coincide only for the same id |
| AvatarLibrary.AvatarUrlsDistinct | src/avatars.ts:13-68 | the six library models have pairwise different urls |
| BackgroundPicker.CheckUpload | src/components/BackgroundPicker.tsx:20-33 | the disposal of a chosen file; stated by `UploadAcceptedIff` |
| BackgroundPicker.UploadAcceptedIff | src/components/BackgroundPicker.tsx:20-33 | a file is accepted exactly when it is an image of at most 10 MiB; the type is checked before the size |
| BackgroundPicker.SizeLimitInclusive | src/components/BackgroundPicker.tsx:30 | an image of exactly 10·1024·1024 bytes is accepted and one byte more is rejected |
| BackgroundPicker.AlertFor | src/components/BackgroundPicker.tsx:24-33 | an alert is shown exactly for a non-image and for an oversized image |
| BackgroundPicker.AllBackgrounds | src/components/BackgroundPicker.tsx:53 | the tile list; stated by `AllBackgroundsOrder` |
| BackgroundPicker.AllBackgroundsOrder | src/components/BackgroundPicker.tsx:53 | the tiles are the built-ins in order, then the customs in order |
| BackgroundPicker.TileSelected | src/components/BackgroundPicker.tsx:92-100 | the selected mark of a tile; stated by `OneBuiltInTileSelected` |
| BackgroundPicker.OneBuiltInTileSelected | src/components/BackgroundPicker.tsx:92-100 | with a built-in as current background exactly its own built-in tile is marked selected |
| BackgroundPicker.Picker.constructor | src/components/BackgroundPicker.tsx:15-16 | no custom backgrounds and the panel closed |
| BackgroundPicker.Picker.HandleFileUpload | src/components/BackgroundPicker.tsx:18-47 | an accepted file appends exactly one background to the end of the custom list and selects it; anything else leaves the list alone, selects nothing and shows the alert for its rejection |
| BackgroundPicker.Picker.Toggle | src/components/BackgroundPicker.tsx:60 | the toggle flips the panel and keeps the list |
| BackgroundPicker.Picker.Close | src/components/BackgroundPicker.tsx:72 | the close button closes the panel and keeps the list |
| AvatarGallery.Filter | src/components/AvatarGallery.tsx:16 | every kept avatar has the category and comes from the input, and no avatar with the category is dropped |
| AvatarGallery.FilterAppend | src/components/AvatarGallery.tsx:16 | the filter distributes over concatenation, so it keeps the input's order |
| AvatarGallery.FilterSingle | src/components/AvatarGallery.tsx:16 | one avatar is kept exactly when its category matches |
| AvatarGallery.FilterKeepsAll | src/components/AvatarGallery.tsx:16 | a filter that matches everything returns its input unchanged |
| AvatarGallery.FilterKeepsNone | src/components/AvatarGallery.tsx:16 | a filter that matches nothing returns nothing |
| AvatarGallery.FilteredAvatars | src/components/AvatarGallery.tsx:14-16 | the avatars a tab shows; stated by `MaleTabShowsLibrary` and `OtherTabsEmpty` |
| AvatarGallery.MaleTabShowsLibrary | src/components/AvatarGallery.tsx:14-16 | the male tab shows the whole library in order |
| AvatarGallery.OtherTabsEmpty | src/components/AvatarGallery.tsx:14-16 | the female and character tabs show nothing |
| AvatarGallery.CardSelected | src/components/AvatarGallery.tsx:84-109 | the selected mark of a card; stated by `OneCardSelected` |
| AvatarGallery.OneCardSelected | src/components/AvatarGallery.tsx:84-109 | with a library avatar's url as current model exactly that avatar's card is selected |
| AvatarGallery.Gallery.constructor | src/components/AvatarGallery.tsx:10-12 | closed, on the all tab, guide hidden |
| AvatarGallery.Gallery.HandleSelectAvatar | src/components/AvatarGallery.tsx:18-21 | selecting reports exactly the avatar's url and closes the gallery |
| AvatarGallery.Gallery.Open | src/components/AvatarGallery.tsx:27 | the toggle button opens the gallery |
| AvatarGallery.Gallery.Close | src/components/AvatarGallery.tsx:46 | the close button closes the gallery |
| AvatarGallery.Gallery.SelectCategory | src/components/AvatarGallery.tsx:54-77 | a tab button selects its tab |
| AvatarGallery.Gallery.ToggleGuide | src/components/AvatarGallery.tsx:119 | the guide button flips the guide's visibility |

## Left out

- Rendering is not modelled: the canvas, lights, camera controls, the fallback box avatar, the
  debug-bone overlay and its effect (`src/components/Scene.tsx:167-214`). It is a foreign engine
  and UI.
- Loading the model with `useGLTF` is not modelled. The scene is given as a list of named
  objects with their bone and mesh flags and morph dictionaries.
- The landmark tracker, its CDN file location, the camera utility, the webcam and the rigging
  library's internals are not modelled. The three solves are uninterpreted functions that return
  a rig, no rig, or throw.
- The solver's `video` and option arguments are not modelled, since the solves are
  uninterpreted anyway.
- Timers are not modelled: the 100 ms readiness poll, the 20 s cutoff and the 2 s backoff.
  - The backoff is a pending flag that `Tracker.RetryTimerFires` clears.
  - Waiting for the webcam to become ready is the caller's choice of when to call
    `Tracker.CameraStart`.
- The readiness poll is not stopped by the cleanup (`src/components/HolisticTracker.tsx:117-149`
  against `162-181`): the interval handle is local to the initialisation. A run torn down before
  the webcam became ready can still start a camera, or fail and schedule a retry that no cleanup
  cancels, with that run's stale count; two such runs could push the count past three. The model
  has one poll per run, and `Tracker.Teardown` and `RetryBudgetExhausted` speak of that run only.
- The effect re-runs on a change of `retryCount` or of either listener, as a cleanup followed
  by a new run. The model provides `Tracker.Teardown` and `Tracker.Mount` and leaves their
  sequencing to the caller.
- SceneNames.Lower: lower-cases ASCII letters only. Other letters that `toLowerCase` maps are
  kept as they are. `toLowerCase` can also lengthen a string (U+0130 becomes two code units), so
  the length bounds stated for `Lower` and `Normalize` hold for this ASCII model only.
- Key ordering is simplified. Script objects enumerate integer-like keys first, in ascending
  order. The model keeps plain insertion order for every key. This only matters for the
  head-mesh fallback and the hand-record order, and only for names that are decimal numbers.
- Keys inherited from `Object.prototype`, such as `constructor` or `__proto__`, are not
  modelled in either the alias lookup or the node table.
- SceneTick.AvatarModel.Valid: every morph index in a mesh's dictionary is taken to be an
  index of that mesh's weight list. The 3D library builds both from the same geometry.
  Out-of-range indices, which would grow a script array, are not modelled.
- A mesh's weight list is taken to exist exactly when it has a morph dictionary.
- SceneTick.AvatarModel.Tick: requires that the node table, once built, belongs to the current scene.
  The source has a window after a model change in which the old table is still used, until the
  effect runs; that window is not modelled.
- Console logging is not modelled.
- The loading overlay, the error overlay and its reload button are not modelled: they are
  rendering, and `window.location.reload` leaves the model.
- `createCustomBackground` is not part of this model, since its definition is not in
  `src/data.ts`. Its result, `created`, is a parameter of `Picker.HandleFileUpload`.
- `URL.createObjectURL` is not modelled. Neither is the file-input reset after an accepted
  upload, or the upload button's click forwarding: they are DOM I/O.
- The avatar-creation guide and the avatar sources list are not modelled: they are static text.
- The recorder, the face tracker, the image avatar and the welcome message are not part of this
  model, and neither are the module declarations in `src/types.d.ts`.
- The tracking status indicators are not modelled: they only render the flags.
- Floating-point rounding is not modelled: all arithmetic is on mathematical reals.
