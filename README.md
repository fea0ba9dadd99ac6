# three-ik-practice, modelled in Dafny

three-ik-practice is a set of small three.js demos of the `three-ik` inverse-kinematics library. The library itself, with its solver, is not part of the repository. The repository holds the sequential logic around it, and this project models that logic:

- **Skeleton and chain construction.**
  - `Simple` and `SimpleMesh` build one straight chain of seven joints. The joints share one constraints array, and only the last joint follows a target.
  - `SampleBone` builds a straight run of five bones, centred on the origin.
  - `MultiEffector.setupIK` builds a branching skeleton. It has a root chain of 16 joints and eight arms of 8 joints.
    - Each arm reuses a root joint as its first joint: joint 7 for arms 1 to 4 and joint 15 for arms 5 to 8.
    - Each arm ends at a target of its own and is `connect`ed to the root chain.
- **`MultiEffector.onChange`.** This is a small state machine. It remembers the constraint type and angle it last applied.
  - A type change puts a new `IKBallConstraint` (or null) in slot 0 of every root joint's constraints array. It then writes the angle through every connected arm joint.
  - An angle change throws unless the type is `'ball'`; otherwise it writes the angle everywhere.
  - The base `IKApp.onChange` then copies the display settings into every helper.
- **`IKApp`.** It holds the configuration defaults and the construction order of the `gizmos`, `iks` and `helpers` lists. It also keeps the gizmo bookkeeping of `createTarget` and the order of one animation frame.

## Representation

The three.js and three-ik objects live in arenas, the `seq` fields of the class `SceneGraph.World`. The demos refer to objects by handle, which is an index into its arena.

- **Bones.** A bone is its y offset and its parent handle.
- **Joints.** A joint is its bone and the handle of its `constraints` array. This captures that several joints can hold one array (Simple) or one constraint (each MultiEffector chain).
- **Constraints arrays.** An array is a sequence of constraint handles or null.
- **Constraints.** An `IKBallConstraint` is its angle.
- **Chains.** A chain is its joints, its effector and target, and the entries of its connected-chain `Map`.
- **Library operations.** The library's operations get the narrowest behaviour the demos rely on:
  - `new Bone`, `bone.add`, `new IKJoint`, `chain.add(joint, {target})`, `connect`, `ik.add`, `new IKHelper` and `pivot.add` are methods of `World`.
  - `chain.add(joint, {target})` (the function `SceneGraph.Added`) appends the joint and leaves the Map alone. With a non-null target the joint becomes the effector and the target is recorded. With a null target both stay as they were.
  - `connect` files the arm under the index, in the root chain, of the arm's first joint. It creates the entry when there is none.

`MultiEffector.onChange` is stated twice:

- `ConstraintWrites.OnChangeSpec` is a function. It turns the writes onChange performs into a list of operations and interprets that list. The interpreter stops at the first write that would throw, and what was written before the throw stays written.
- `MultiEffector.OnChange` is the imperative method over the world's arenas. It is proved equal to that function, loop by loop.

`Startup.NewMultiEffector` puts the pieces together in the order the IKApp constructor runs them:

1. default configuration;
2. setupIK;
3. one helper per IK;
4. the first onChange;
5. one animation frame.

It proves that the first onChange of a MultiEffector throws nothing.

## Model

| member | source | states |
|---|---|---|
| SceneGraph.World.ChainAdd | src/MultiEffector.ts:56-60 | `chain.add(joint, {target})` appends the joint to that chain only; a non-null target makes the joint the effector and records the target, a null one keeps both |
| SceneGraph.World.Connect | src/MultiEffector.ts:63-65 | `connect(arm)` changes only the root chain's Map: the arm is registered under the index in the root chain of the arm's first joint |
| SceneGraph.World.NewJoint | src/MultiEffector.ts:54-59 | `new IKJoint(bone, {constraints})` appends a joint that holds the array itself, not a copy |
| SceneGraph.World.SetSlot | src/MultiEffector.ts:94 | `constraints[0] = v` changes slot 0 of that one array and nothing else |
| SceneGraph.World.SetAngle | src/MultiEffector.ts:97 | `constraint.angle = a` changes that one constraint, seen by every array holding it |
| SceneGraph.World.IKAdd | src/MultiEffector.ts:68 | `ik.add(chain)` appends the chain to that IK only |
| SceneGraph.World.NewHelper | src/IKApp.ts:94 | `new IKHelper(ik)` appends a helper for that IK that shows nothing yet |
| SceneGraph.World.AddBone | src/Simple.ts:53-55 | `parent.add(child)` sets only the child's parent and keeps its offset |
| SceneGraph.IndexOf | src/MultiEffector.ts:63-65 | the index found holds the joint, and no earlier index does; the length is returned when the joint is absent |
| SceneGraph.SetFirst | src/MultiEffector.ts:94 | `array[0] = v` puts `v` in slot 0 and keeps every other slot |
| SceneGraph.RegisterSpec | src/MultiEffector.ts:95-96 | on a Map with distinct keys, a connect keeps the keys distinct and in insertion order; the entry count grows by one exactly when the index is new; the new entry comes last and holds just the arm |
| Skeleton.AppendStraightJoints | src/Simple.ts:50-60 | the loop makes `n` fresh bones, bone 0 at offset 0 with no parent and bone i at 0.5 under bone i - 1; the `n` fresh joints all hold the one array; they are appended to the chain in loop order, and only the last one gets the target |
| Skeleton.AppendOwnJoints | src/MultiEffector.ts:33-61 | setupIK's inner loop from the first fresh joint: fresh bones each under the one before it, the first under the given base; every joint gets its own fresh one-element array holding the chain's one constraint; the joints are appended in order, and only the last one carries the target |
| Skeleton.LinearBonesKeepOrder | src/Simple.ts:50-56 | appending a straight run keeps every parent created before its child, so the bones stay a forest |
| Skeleton.LinearRootY | src/Simple.ts:52 | bone k of a straight run sits at first + k·step in the frame of the run's first bone |
| Skeleton.ChildCountExactly | src/MultiEffector.ts:50-52 | when exactly the listed bones are children of `p`, `p` has as many children as the list holds |
| Skeleton.AddedInOrderStep | src/Simple.ts:58-59 | adding joint i of `n`, with the target only when i = n - 1, extends the chain built by the first i additions |
| Simple.CreateBonesAndChain | src/Simple.ts:45-62 | a new chain of exactly 7 joints on 7 fresh bones (offsets 0, 0.5, …, each under the one before, bone 0 without a parent); one new array holding one new IKBallConstraint(90), shared by all 7 joints; only the last joint has the moving target |
| Simple.InitIK | src/Simple.ts:25-43 | the moving target sits at z = 2 under a new pivot; a new IK holds exactly the one chain createBonesAndChain made; one helper is made for that IK; the IK and the pivot are returned |
| Simple.SingleEffector | src/Simple.ts:58-59 | that chain has 7 joints in creation order, and its one effector is the last joint, with the moving target |
| SimpleMesh.SimpleMesh.InitIK | src/SimpleMesh.ts:26-43 | `this.ik` is the new IK and holds exactly the one chain createBones filled; `this.pivot` is the new pivot, with the moving target at z = 2 as its child; one helper is made |
| SimpleMesh.SimpleMesh.CreateBones | src/SimpleMesh.ts:45-60 | 7 joints are appended to the given chain on fresh bones, each bone under the one before; they share one array with one IKBallConstraint(90); only the last has the moving target |
| SimpleMesh.SimpleMesh.constructor | src/SimpleMesh.ts:13-24 | construction runs initIK: one IK with one chain, one pivot holding the target at z = 2 |
| SampleBone.DefaultSizing | src/SampleBone.ts:8-17 | the sizing is consistent: segmentHeight 8, segmentCount 4, height 32, halfHeight 16 |
| SampleBone.CreateBones | src/SampleBone.ts:104-119 | segmentCount + 1 fresh bones, returned in creation order; the first is at -halfHeight (line 109 assigns the negation) with no parent; each later one is at segmentHeight under the bone before it |
| SampleBone.CreatedBonesHeights | src/SampleBone.ts:109-116 | bone k of createBones sits at -halfHeight + k·segmentHeight in the first bone's frame |
| SampleBone.CreatedBonesSpan | src/SampleBone.ts:8-11 | with consistent sizing, the first bone is at -halfHeight and the last at +halfHeight |
| SampleBone.DefaultBonesSpan | src/SampleBone.ts:8-17 | with the module's sizing: five bones, from y = -16 to y = +16 |
| IKApp.DefaultConfig | src/IKApp.ts:38-45 | the initial configuration is axes, bones and wireframe shown, colour '#ff0077', type 'ball' and angle 360; the GUI could pick that angle |
| IKApp.HelpersFor | src/IKApp.ts:93-97 | one helper per IK, in IK order, each showing nothing yet |
| IKApp.ShowAll | src/IKApp.ts:143-150 | exactly the listed helpers get the display settings, and every other helper is unchanged |
| IKApp.App.constructor | src/IKApp.ts:38-45 | before setupIK: default configuration; `gizmos`, `iks` and `helpers` empty; no type or angle remembered |
| IKApp.App.CreateHelpers | src/IKApp.ts:93-97 | after setupIK, one new IKHelper per IK, in `iks` order, appended to `helpers` |
| IKApp.App.CreateTarget | src/IKApp.ts:106-121 | one new target at the given position, and one gizmo of size 0.5 attached to it, appended to `gizmos`; the target is returned |
| IKApp.App.OnChange | src/IKApp.ts:143-150 | every helper in `helpers` shows the configuration's showAxes, showBones, wireframe and color; other helpers and the configuration are unchanged |
| IKApp.App.Animate | src/IKApp.ts:123-135 | one frame solves every IK in `iks` order, then updates every gizmo in `gizmos` order, then renders once |
| Branching.SubBaseIndex | src/MultiEffector.ts:37-41 | the root joint an arm starts on is within 0..15: joint 7 for arms 1 to 4 and joint 15 for arms 5 to 8 |
| Branching.ArmTarget | src/MultiEffector.ts:18-24 | arm i's target is at quarter turn (i - 1) % 4, at height 4 for i ≤ 4 and 8 for i > 4 |
| Branching.EntriesAfterSetup | src/MultiEffector.ts:14 | after the loop, the root chain's Map has two entries: index 7 holding arms 1 to 4 and index 15 holding arms 5 to 8, each in connection order |
| Branching.ArmBonesAt | src/MultiEffector.ts:37-52 | bone j of arm i: the first hangs under root bone SubBaseIndex(i) and each later one under the bone before it, all at offset Distance |
| Branching.ArmListsAtArm | src/MultiEffector.ts:17-54 | every fresh joint of arm i holds a one-element array of constraint i |
| Branching.SetupBoneChildren | src/MultiEffector.ts:33-52 | the bones setupIK leaves are a forest; root bone 7 has five children (root bone 8 and the first fresh bones of arms 1 to 4); root bone 15 has four (those of arms 5 to 8) |
| Branching.RootBoneChildren | src/MultiEffector.ts:44-52 | in the root chain, each bone except the last has the next bone as its one child |
| Branching.ArmBoneChildren | src/MultiEffector.ts:37-52 | among the arms' bones, the children of a root bone are exactly the first fresh bones of the arms starting on it |
| MultiEffector.BuildRoot | src/MultiEffector.ts:14-61 | pass i = 0: one new chain and one new constraint at the configured angle; 16 joints on fresh bones, offsets 0 then 0.5, each bone under the one before; each joint holds its own one-element array of that constraint; no joint has a target |
| MultiEffector.BuildArm | src/MultiEffector.ts:16-65 | pass i ≥ 1: one new chain, constraint and target (at ArmTarget(i)) plus one gizmo; first the root joint SubBaseIndex(i) itself, then 7 joints on fresh bones, the first under that joint's bone; each holds its own array of the new constraint; the last follows the target; the arm is connected to the root chain |
| MultiEffector.ConnectArm | src/MultiEffector.ts:63-65 | the arm is registered in the root chain's Map under SubBaseIndex(i), and no other chain changes |
| MultiEffector.BuiltNext | src/MultiEffector.ts:14-66 | pass n + 1 turns the arenas after passes 0 to n into the arenas after passes 0 to n + 1 |
| MultiEffector.SetupArms | src/MultiEffector.ts:14-66 | passes 1 to 8 of the outer loop turn the arenas after the root pass into the arenas after all eight arms |
| MultiEffector.SetupIK | src/MultiEffector.ts:10-75 | the complete arenas setupIK leaves: the bones, arrays, constraints, joints, chains (root chain with its Map, then arms 1 to 8), targets and gizmos of the root pass and the eight arm passes, in creation order; the new IK holds just the root chain, is appended to `iks`, and one pivot is made |
| MultiEffector.WriteSlots | src/MultiEffector.ts:94 | `joints.forEach(j => j.constraints[0] = constraint)` on the arenas is the interpreter run of its slot writes |
| MultiEffector.WriteAngles | src/MultiEffector.ts:109 | `joints.forEach(j => j.constraints[0].angle = a)` is the run of its angle writes, including its stop at the first null slot |
| MultiEffector.WriteChains | src/MultiEffector.ts:111-113 | the loop over one entry's chains is the run of the angle writes over their joints, chain after chain |
| MultiEffector.WriteEntries | src/MultiEffector.ts:110-114 | the loop over the Map entries and their chains is the run of the angle writes over their joints, in Map order |
| MultiEffector.IkWrites | src/MultiEffector.ts:94-99 | one IK's writes: `ik.chains[0]` (throwing when the IK has no chain), the root joints, then the connected chains |
| MultiEffector.AllIkWrites | src/MultiEffector.ts:93-100 | the writes for every IK in `iks` order, up to the first throw |
| MultiEffector.PushType | src/MultiEffector.ts:80-101 | the type branch on the arenas is `Typed`: nothing when the type is unchanged, else a new constraint for 'ball' (null for 'none') and the writes |
| MultiEffector.PushAngle | src/MultiEffector.ts:103-117 | the angle branch on the arenas: nothing when the angle is unchanged; a throw before any write unless the type is 'ball'; otherwise the angle writes |
| MultiEffector.OnChange | src/MultiEffector.ts:77-119 | `onChange` on the app and its arenas is `OnChangeSpec`: the arrays, the constraints, the remembered type and angle, whether it threw; on success the base onChange updates the helpers; on a throw the helpers are untouched |
| ConstraintWrites.OnChangeSpec | src/MultiEffector.ts:77-117 | the type is always recorded; one constraint is created exactly when the type changes to 'ball'; the angle is recorded exactly when nothing threw; with type and angle both unchanged nothing changes; an angle change with a type other than 'ball' throws before any write |
| ConstraintWrites.SecondCallNoop | src/MultiEffector.ts:80-117 | a second onChange with the configuration the first applied (and did not throw on) changes nothing |
| ConstraintWrites.TypeToBall | src/MultiEffector.ts:80-101 | a type change to 'ball' on a one-IK app whose connected joints each reach a constraint: nothing throws; one new constraint at the configured angle fills slot 0 of every root joint; every connected joint reaches a constraint with that angle; no other array changes; a constraint no connected joint reached keeps its angle; type and angle are recorded |
| ConstraintWrites.NoneKeepsArms | src/MultiEffector.ts:80-101 | after the failed switch to 'none', every connected joint is still either a root joint or reaches a constraint through an array no root joint holds |
| ConstraintWrites.NoneThenBall | src/MultiEffector.ts:80-101 | after the failed switch to 'none', switching back to 'ball' throws nothing, fills every root joint's slot 0 with the new constraint and gives every connected joint a constraint at the angle |
| ConstraintWrites.TypeToNoneThrows | src/MultiEffector.ts:84-97 | a type change to 'none' when a connected chain starts on a root joint: every root joint's slot 0 becomes null and no other array changes, then the first arm write (line 97) throws; no angle was written; the type is recorded, the angle is not |
| ConstraintWrites.AngleChange | src/MultiEffector.ts:103-117 | an angle change with type 'ball' on an app whose joints all reach a constraint: nothing throws and no array changes; every constraint a root or connected joint reaches gets the angle, and every other constraint keeps its angle; the angle is recorded |
| ConstraintWrites.SlotRun | src/MultiEffector.ts:94 | slot writes never throw and touch no constraint; exactly the arrays of the joints written get the value in slot 0 |
| ConstraintWrites.AngleRun | src/MultiEffector.ts:97 | angle writes change no array; they throw exactly when one joint's slot 0 is null, at once when the first one is; otherwise every constraint reached gets the angle, and a constraint no slot reaches keeps its angle |
| ConstraintWrites.NoneThenThrow | src/MultiEffector.ts:94-97 | nulling every root joint's slot and then writing angles from a root joint throws before any angle is written; exactly the nulled arrays change |
| ConstraintWrites.RunStops | src/MultiEffector.ts:93-100 | once a write has thrown, the writes after it do nothing |
| ConstraintWrites.SlotWritesAt | src/MultiEffector.ts:94 | write k of the slot writes is on the array of joint k |
| ConstraintWrites.AngleWritesAt | src/MultiEffector.ts:97 | write k of the angle writes goes through the array of joint k |
| Startup.SetupScene | src/MultiEffector.ts:10-75 | the scene setupIK builds from nothing is well formed, and every connected joint is either a root joint or holds its own constraint in an array no root joint holds |
| Startup.StartIK | src/IKApp.ts:88-91 | the constructor up to setupIK on a new world: default configuration, nothing remembered, one IK on the root chain, one pivot, no helper yet |
| Startup.SetupApp | src/IKApp.ts:88-97 | the constructor before its first onChange: default configuration; one IK on the root chain; one helper for it; root joint j holds array j |
| Startup.FirstChange | src/IKApp.ts:100 | the first onChange of that app throws nothing; it records 'ball' and the angle; root joints' slot 0 holds the one new constraint; every connected joint reaches a constraint at the angle; the helper shows the settings |
| Startup.FirstFrame | src/IKApp.ts:123-135 | for the one IK and the eight target gizmos, a frame is: solve IK 0, update gizmos 0 to 7 in order, render |
| Startup.NewMultiEffector | src/IKApp.ts:32-102 | `new MultiEffector()` ends with 'ball' and 360 recorded, no throw, every root and connected joint reaching a constraint at 360, and a first frame that solves the one IK, updates the eight target gizmos and renders |

## Left out

- Rendering and scene plumbing are not modelled: renderer, scene, camera, lights, plane, grid, OrbitControls and TransformControls dragging, the resize handler, and `scene.add`.
- `ik.solve()` and `getRootBone()` belong to the external library. `solve()` is only an event in a frame. The root bone is not added to the pivot or the scene.
- The `requestAnimationFrame` recursion: `IKApp.App.Animate` models one frame of `animate`. The render loops of Simple and SimpleMesh, which rotate the pivot, are not modelled.
- All floating-point math is left out:
  - The target coordinates of setupIK are cos and sin of a quarter turn. A target position is kept as the quarter-turn index and the height (`QuarterTurn`).
  - The pivot rotations (`-Math.PI / 2` in setupIK, the per-frame increments) are not modelled.
  - JavaScript numbers are Dafny `real`s.
- From SampleBone, only the sizing and `createBones` are modelled. The cylinder geometry, skin indices and weights, `createMesh`, the SkeletonHelper, the GUI and the bone wiggling are not.
- `console.log` in onChange is not modelled.
- The GUI's controllers are not modelled. Their allowed values are stated as `IKApp.GuiAllows` (an angle from 0 to 360 in steps of 1). The type is the datatype `ConstraintType`, restricted to the GUI's 'none' and 'ball'. "Nothing remembered yet" (`undefined`) is `None`.
- The connected-chain Map is kept as a sequence of entries. The declaration file types its values as numbers (src/types/THREE.IK.d.ts:26). The model follows the code, which iterates them as lists of chains (src/MultiEffector.ts:95-96).
- ConstraintWrites.Step: a write through a dangling handle would be a no-op in the model. No such handle arises: every write goes through a joint the scene holds.
- ConstraintWrites.TypeToBall: stated for an app with one IK, as every demo has. `OnChangeSpec` and `MultiEffector.OnChange` cover any number of IKs.
- ConstraintWrites.TypeToNoneThrows: stated for an app with one IK, as for TypeToBall.
- ConstraintWrites.AngleChange: stated for an app with one IK, as for TypeToBall.
- ConstraintWrites.NoneKeepsArms: stated for an app with one IK, as for TypeToBall.
- ConstraintWrites.NoneThenBall: stated for an app with one IK, as for TypeToBall.
- Startup.NewMultiEffector: states only the joints, chains, constraints arrays, constraints and gizmos the startup leaves, not the bones and targets. `MultiEffector.SetupIK` states every arena exactly.
- IKApp.App.CreateTarget: a gizmo is recorded as its target and size. The TransformControls object and its camera and DOM bindings are not modelled.
