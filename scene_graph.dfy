/**
 * The objects the demos create through three.js and three-ik, kept in arenas
 * indexed by integer handles. Only the bookkeeping the demos rely on is
 * modelled: a bone's offset and parent, a joint's bone and constraint array,
 * the constraint objects' angles, a chain's joints, effector, target and
 * connected sub-chains, an IK's chains, targets, pivots and helpers.
 */
module SceneGraph {

  datatype Option<T> = None | Some(value: T)

  /** A THREE.Bone: its local y offset and the bone it was added to, if any. */
  datatype Bone = Bone(y: real, parent: Option<nat>)

  /** An IKJoint: the bone it wraps and the handle of its `constraints` array. */
  datatype Joint = Joint(bone: nat, constraints: nat)

  /** One entry of IKChain.chains: the base-joint index and the chains connected there. */
  datatype SubChains = SubChains(index: nat, chains: seq<nat>)

  /** An IKChain. The base is the first joint; `subChains` keeps insertion order, as a JS Map does. */
  datatype Chain = Chain(joints: seq<nat>, effector: Option<nat>, target: Option<nat>, subChains: seq<SubChains>)

  /**
   * A position. `QuarterTurn(q, y)` stands for the point (cos(q pi/2), y, sin(q pi/2));
   * the trigonometry itself is not modelled.
   */
  datatype Position = Vec(x: real, y: real, z: real) | QuarterTurn(quarter: int, height: real)

  /** A target object (THREE.Object3D or Mesh) and the pivot it was added to, if any. */
  datatype Target = Target(position: Position, parent: Option<nat>)

  /** The display settings written into an IKHelper. */
  datatype Display = Display(showAxes: bool, showBones: bool, wireframe: bool, color: string)

  /** An IKHelper: the IK it draws and the settings written into it (None: the library's defaults). */
  datatype Helper = Helper(ik: nat, display: Option<Display>)

  const EmptyChain := Chain([], None, None, [])

  predicate BonesOk(bones: seq<Bone>)
  {
    forall b :: 0 <= b < |bones| && bones[b].parent.Some? ==> bones[b].parent.value < |bones|
  }

  predicate JointsOk(joints: seq<Joint>, boneCount: nat, listCount: nat)
  {
    forall j :: 0 <= j < |joints| ==> joints[j].bone < boneCount && joints[j].constraints < listCount
  }

  predicate ListsOk(lists: seq<seq<Option<nat>>>, constraintCount: nat)
  {
    forall l, k :: 0 <= l < |lists| && 0 <= k < |lists[l]| && lists[l][k].Some? ==> lists[l][k].value < constraintCount
  }

  predicate ChainOk(c: Chain, jointCount: nat, chainCount: nat, targetCount: nat)
  {
    && (forall k :: 0 <= k < |c.joints| ==> c.joints[k] < jointCount)
    && (c.effector.Some? ==> c.effector.value < jointCount)
    && (c.target.Some? ==> c.target.value < targetCount)
    && DistinctKeys(c.subChains)
    && (forall e, k :: 0 <= e < |c.subChains| && 0 <= k < |c.subChains[e].chains| ==> c.subChains[e].chains[k] < chainCount)
  }

  predicate ChainsOk(chains: seq<Chain>, jointCount: nat, targetCount: nat)
  {
    forall c :: 0 <= c < |chains| ==> ChainOk(chains[c], jointCount, |chains|, targetCount)
  }

  predicate IksOk(iks: seq<seq<nat>>, chainCount: nat)
  {
    forall ik, k :: 0 <= ik < |iks| && 0 <= k < |iks[ik]| ==> iks[ik][k] < chainCount
  }

  predicate TargetsOk(targets: seq<Target>, pivotCount: nat)
  {
    forall t :: 0 <= t < |targets| && targets[t].parent.Some? ==> targets[t].parent.value < pivotCount
  }

  predicate HelpersOk(helpers: seq<Helper>, ikCount: nat)
  {
    forall h :: 0 <= h < |helpers| ==> helpers[h].ik < ikCount
  }

  /** The array after `array[0] = v` (an empty array grows to length one). */
  function SetFirst(l: seq<Option<nat>>, v: Option<nat>): (r: seq<Option<nat>>)
    ensures |r| == (if |l| == 0 then 1 else |l|) && r[0] == v
    ensures forall k :: 1 <= k < |l| ==> r[k] == l[k]
  {
    if |l| == 0 then [v] else l[0 := v]
  }

  /** `array[0]` as a constraint handle: None when that slot is null or missing. */
  function First(l: seq<Option<nat>>): Option<nat>
  {
    if |l| == 0 then None else l[0]
  }

  /** The chain after `add(j, { target })`. */
  function Added(c: Chain, j: nat, target: Option<nat>): (r: Chain)
    ensures r.joints == c.joints + [j] && r.subChains == c.subChains
    ensures r.effector == (if target.Some? then Some(j) else c.effector)
    ensures r.target == (if target.Some? then target else c.target)
  {
    if target.Some? then c.(joints := c.joints + [j], effector := Some(j), target := target)
    else c.(joints := c.joints + [j])
  }

  /** The entries of a Map have distinct keys. */
  predicate DistinctKeys(entries: seq<SubChains>)
  {
    forall e, f :: 0 <= e < f < |entries| ==> entries[e].index != entries[f].index
  }

  /** The first index of `x` in `s` (Array.prototype.indexOf), or |s| when absent. */
  function IndexOf(s: seq<nat>, x: nat): (r: nat)
    ensures r <= |s|
    ensures r < |s| ==> s[r] == x
    ensures forall k :: 0 <= k < r ==> s[k] != x
  {
    if s == [] then 0 else if s[0] == x then 0 else 1 + IndexOf(s[1..], x)
  }

  /** IKChain.connect's bookkeeping: append `chain` to the entry for `index`, creating the entry if needed. */
  function Register(entries: seq<SubChains>, index: nat, chain: nat): (r: seq<SubChains>)
    ensures |r| == |entries| || |r| == |entries| + 1
  {
    if entries == [] then [SubChains(index, [chain])]
    else if entries[0].index == index then [entries[0].(chains := entries[0].chains + [chain])] + entries[1..]
    else [entries[0]] + Register(entries[1..], index, chain)
  }

  /**
   * On a Map (distinct keys), Register keeps the keys distinct and in order,
   * extends the entry for `index` when there is one and otherwise appends a
   * new entry holding just `chain`.
   */
  lemma {:induction false} RegisterSpec(entries: seq<SubChains>, index: nat, chain: nat)
    requires DistinctKeys(entries)
    ensures var r := Register(entries, index, chain);
      && DistinctKeys(r)
      && (forall e :: 0 <= e < |entries| ==> r[e].index == entries[e].index)
      && ((exists e :: 0 <= e < |entries| && entries[e].index == index) <==> |r| == |entries|)
      && (|r| == |entries| + 1 ==> r[|entries|] == SubChains(index, [chain]))
      && (forall e :: 0 <= e < |entries| ==>
           r[e].chains == if entries[e].index == index then entries[e].chains + [chain] else entries[e].chains)
  {
    RegisterKeys(entries, index, chain);
    RegisterDistinct(entries, index, chain);
    RegisterChains(entries, index, chain);
  }

  lemma {:induction false} RegisterKeys(entries: seq<SubChains>, index: nat, chain: nat)
    ensures var r := Register(entries, index, chain);
      && (forall e :: 0 <= e < |entries| ==> r[e].index == entries[e].index)
      && ((exists e :: 0 <= e < |entries| && entries[e].index == index) <==> |r| == |entries|)
      && (|r| == |entries| + 1 ==> r[|entries|] == SubChains(index, [chain]))
  {
    if entries != [] && entries[0].index != index {
      var tail := entries[1..];
      RegisterKeys(tail, index, chain);
      RegisterKeysCons(entries, index, chain);
      KeyInTail(entries, index);
    }
  }

  /** Past a first entry with another key, Register works on the tail and keeps that entry. */
  lemma {:induction false} RegisterKeysCons(entries: seq<SubChains>, index: nat, chain: nat)
    requires entries != [] && entries[0].index != index
    ensures var r, t := Register(entries, index, chain), Register(entries[1..], index, chain);
      && |r| == |t| + 1 && r[0] == entries[0]
      && (forall e :: 1 <= e < |r| ==> r[e] == t[e - 1])
      && (forall e :: 1 <= e < |entries| ==> entries[e] == entries[1..][e - 1])
  {
    var t := Register(entries[1..], index, chain);
    assert Register(entries, index, chain) == [entries[0]] + t;
  }

  /** Past a first entry with another key, the key occurs exactly when it occurs in the tail. */
  lemma {:induction false} KeyInTail(entries: seq<SubChains>, index: nat)
    requires entries != [] && entries[0].index != index
    ensures (exists e :: 0 <= e < |entries| && entries[e].index == index) <==>
            (exists e :: 0 <= e < |entries[1..]| && entries[1..][e].index == index)
  {
    var tail := entries[1..];
    if exists e :: 0 <= e < |entries| && entries[e].index == index {
      var e :| 0 <= e < |entries| && entries[e].index == index;
      assert tail[e - 1].index == index;
    }
    if exists e :: 0 <= e < |tail| && tail[e].index == index {
      var e :| 0 <= e < |tail| && tail[e].index == index;
      assert entries[e + 1].index == index;
    }
  }

  lemma {:induction false} RegisterDistinct(entries: seq<SubChains>, index: nat, chain: nat)
    requires DistinctKeys(entries)
    ensures DistinctKeys(Register(entries, index, chain))
  {
    RegisterKeys(entries, index, chain);
    var r := Register(entries, index, chain);
    forall e, f | 0 <= e < f < |r| ensures r[e].index != r[f].index {
      if f == |entries| {
        assert r[f].index == index;
        assert entries[e].index != index;
      }
    }
  }

  lemma {:induction false} RegisterChains(entries: seq<SubChains>, index: nat, chain: nat)
    requires DistinctKeys(entries)
    ensures var r := Register(entries, index, chain);
      forall e :: 0 <= e < |entries| ==>
        r[e].chains == if entries[e].index == index then entries[e].chains + [chain] else entries[e].chains
  {
    if entries != [] {
      var tail := entries[1..];
      var r := Register(entries, index, chain);
      if entries[0].index == index {
        forall e | 0 < e < |entries| ensures entries[e].index != index {
          assert entries[0].index != entries[e].index;
        }
      } else {
        assert DistinctKeys(tail) by {
          forall e, f | 0 <= e < f < |tail| ensures tail[e].index != tail[f].index {
            assert tail[e] == entries[e + 1] && tail[f] == entries[f + 1];
          }
        }
        RegisterChains(tail, index, chain);
        forall e | 0 < e < |entries|
          ensures r[e].chains == if entries[e].index == index then entries[e].chains + [chain] else entries[e].chains
        {
          assert r[e] == Register(tail, index, chain)[e - 1] && entries[e] == tail[e - 1];
        }
      }
    }
  }

  class World {
    var bones: seq<Bone>
    var joints: seq<Joint>
    /** The `constraints` arrays passed to IKJoint; an entry is a constraint handle or null. */
    var lists: seq<seq<Option<nat>>>
    /** The IKBallConstraint objects, by their angle. */
    var angles: seq<real>
    var chains: seq<Chain>
    /** Each IK by the chains added to it. */
    var iks: seq<seq<nat>>
    var targets: seq<Target>
    var pivots: nat
    var helpers: seq<Helper>

    constructor ()
      ensures bones == [] && joints == [] && lists == [] && angles == [] && chains == []
      ensures iks == [] && targets == [] && pivots == 0 && helpers == []
    {
      bones, joints, lists, angles, chains := [], [], [], [], [];
      iks, targets, pivots, helpers := [], [], 0, [];
    }

    /** `new THREE.Bone()` followed by setting `position.y`. */
    method NewBone(y: real) returns (b: nat)
      modifies this`bones
      ensures b == |old(bones)| && bones == old(bones) + [Bone(y, None)]
    {
      b := |bones|;
      bones := bones + [Bone(y, None)];
    }

    /** `parent.add(child)` on bones: the child's parent becomes `parent`. */
    method AddBone(parent: nat, child: nat)
      requires child < |bones|
      modifies this`bones
      ensures bones == old(bones)[child := Bone(old(bones)[child].y, Some(parent))]
    {
      bones := bones[child := bones[child].(parent := Some(parent))];
    }

    /** `new IKBallConstraint(angle)`. */
    method NewConstraint(angle: real) returns (c: nat)
      modifies this`angles
      ensures c == |old(angles)| && angles == old(angles) + [angle]
    {
      c := |angles|;
      angles := angles + [angle];
    }

    /** A fresh array literal of constraints, such as `[constraint]`. */
    method NewList(items: seq<Option<nat>>) returns (l: nat)
      modifies this`lists
      ensures l == |old(lists)| && lists == old(lists) + [items]
    {
      l := |lists|;
      lists := lists + [items];
    }

    /** `array[0] = v` on constraints array `l`. */
    method SetSlot(l: nat, v: Option<nat>)
      requires l < |lists|
      modifies this`lists
      ensures lists == old(lists)[l := SetFirst(old(lists)[l], v)]
    {
      lists := lists[l := SetFirst(lists[l], v)];
    }

    /** `constraint.angle = a` on IKBallConstraint `c`. */
    method SetAngle(c: nat, a: real)
      requires c < |angles|
      modifies this`angles
      ensures angles == old(angles)[c := a]
    {
      angles := angles[c := a];
    }

    /** `new IKJoint(bone, { constraints })`: the joint keeps the array itself, not a copy. */
    method NewJoint(bone: nat, constraints: nat) returns (j: nat)
      modifies this`joints
      ensures j == |old(joints)| && joints == old(joints) + [Joint(bone, constraints)]
    {
      j := |joints|;
      joints := joints + [Joint(bone, constraints)];
    }

    /** `new IKChain()`. */
    method NewChain() returns (c: nat)
      modifies this`chains
      ensures c == |old(chains)| && chains == old(chains) + [EmptyChain]
    {
      c := |chains|;
      chains := chains + [EmptyChain];
    }

    /** `chain.add(joint, { target })`: appends the joint; a non-null target makes it the effector. */
    method ChainAdd(c: nat, j: nat, target: Option<nat>)
      requires c < |chains|
      modifies this`chains
      ensures chains == old(chains)[c := Added(old(chains)[c], j, target)]
    {
      var ch := chains[c];
      if target.Some? {
        ch := ch.(joints := ch.joints + [j], effector := Some(j), target := target);
      } else {
        ch := ch.(joints := ch.joints + [j]);
      }
      chains := chains[c := ch];
    }

    /** `root.connect(arm)`: registers `arm` under the index of its base joint in `root`. */
    method Connect(root: nat, arm: nat)
      requires root < |chains| && arm < |chains|
      requires |chains[arm].joints| > 0 && chains[arm].joints[0] in chains[root].joints
      modifies this`chains
      ensures chains == old(chains)[root := old(chains)[root].(subChains :=
        Register(old(chains)[root].subChains, IndexOf(old(chains)[root].joints, old(chains)[arm].joints[0]), arm))]
    {
      var ch := chains[root];
      var index := IndexOf(ch.joints, chains[arm].joints[0]);
      chains := chains[root := ch.(subChains := Register(ch.subChains, index, arm))];
    }

    /** `new IK()`. */
    method NewIK() returns (ik: nat)
      modifies this`iks
      ensures ik == |old(iks)| && iks == old(iks) + [[]]
    {
      ik := |iks|;
      iks := iks + [[]];
    }

    /** `ik.add(chain)`. */
    method IKAdd(ik: nat, c: nat)
      requires ik < |iks|
      modifies this`iks
      ensures iks == old(iks)[ik := old(iks)[ik] + [c]]
    {
      iks := iks[ik := iks[ik] + [c]];
    }

    /** A new target object at `position`, not yet added to anything. */
    method NewTarget(position: Position) returns (t: nat)
      modifies this`targets
      ensures t == |old(targets)| && targets == old(targets) + [Target(position, None)]
    {
      t := |targets|;
      targets := targets + [Target(position, None)];
    }

    /** Overwrites a target's position (`position.copy`, `position.z = ...`). */
    method SetPosition(t: nat, position: Position)
      requires t < |targets|
      modifies this`targets
      ensures targets == old(targets)[t := Target(position, old(targets)[t].parent)]
    {
      targets := targets[t := targets[t].(position := position)];
    }

    /** `new THREE.Object3D()` used as a pivot. */
    method NewPivot() returns (p: nat)
      modifies this`pivots
      ensures p == old(pivots) && pivots == old(pivots) + 1
    {
      p := pivots;
      pivots := pivots + 1;
    }

    /** `pivot.add(target)`. */
    method AddTarget(p: nat, t: nat)
      requires t < |targets|
      modifies this`targets
      ensures targets == old(targets)[t := Target(old(targets)[t].position, Some(p))]
    {
      targets := targets[t := targets[t].(parent := Some(p))];
    }

    /** `new IKHelper(ik)`. */
    method NewHelper(ik: nat) returns (h: nat)
      modifies this`helpers
      ensures h == |old(helpers)| && helpers == old(helpers) + [Helper(ik, None)]
    {
      h := |helpers|;
      helpers := helpers + [Helper(ik, None)];
    }

    /** Writes showAxes, showBones, wireframe and color into a helper. */
    method SetDisplay(h: nat, d: Display)
      requires h < |helpers|
      modifies this`helpers
      ensures helpers == old(helpers)[h := Helper(old(helpers)[h].ik, Some(d))]
    {
      helpers := helpers[h := helpers[h].(display := Some(d))];
    }
  }
}
