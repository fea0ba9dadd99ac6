/**
 * The Simple demo: one IK with one straight chain of MaxJoints joints whose
 * last joint follows a target parented under a rotating pivot.
 */
module Simple {
  import opened SceneGraph
  import opened Skeleton

  const MaxJoints: nat := 7

  /**
   * createBonesAndChain: a new chain of MaxJoints joints on fresh bones, bone
   * i a child of bone i - 1, all joints holding one shared array with one
   * IKBallConstraint(90), and only the last joint carrying `movingTarget`.
   */
  method CreateBonesAndChain(w: World, movingTarget: nat) returns (chain: nat)
    requires movingTarget < |w.targets|
    modifies w`bones, w`joints, w`lists, w`angles, w`chains
    ensures w.bones == old(w.bones) + LinearBones(|old(w.bones)|, MaxJoints, None, 0.0, 0.5)
    ensures w.angles == old(w.angles) + [90.0]
    ensures w.lists == old(w.lists) + [[Some(|old(w.angles)|)]]
    ensures w.joints == old(w.joints) + SharedJoints(|old(w.bones)|, MaxJoints, |old(w.lists)|)
    ensures chain == |old(w.chains)|
    ensures w.chains == old(w.chains) + [AddedInOrder(EmptyChain, |old(w.joints)|, MaxJoints, MaxJoints, Some(movingTarget))]
  {
    chain := w.NewChain();
    var ball := w.NewConstraint(90.0);
    var constraints := w.NewList([Some(ball)]);
    AppendStraightJoints(w, chain, MaxJoints, constraints, movingTarget);
  }

  /**
   * initIK: the moving target at z = 2 under a new pivot, a new IK holding
   * exactly the chain createBonesAndChain built, and a helper for that IK.
   * Returns the IK and the pivot.
   */
  method InitIK(w: World) returns (ik: nat, pivot: nat)
    modifies w
    ensures pivot == old(w.pivots) && w.pivots == old(w.pivots) + 1
    ensures w.targets == old(w.targets) + [Target(Vec(0.0, 0.0, 2.0), Some(pivot))]
    ensures ik == |old(w.iks)| && w.iks == old(w.iks) + [[|old(w.chains)|]]
    ensures w.helpers == old(w.helpers) + [Helper(ik, None)]
    ensures w.bones == old(w.bones) + LinearBones(|old(w.bones)|, MaxJoints, None, 0.0, 0.5)
    ensures w.joints == old(w.joints) + SharedJoints(|old(w.bones)|, MaxJoints, |old(w.lists)|)
    ensures w.lists == old(w.lists) + [[Some(|old(w.angles)|)]]
    ensures w.angles == old(w.angles) + [90.0]
    ensures w.chains == old(w.chains) + [AddedInOrder(EmptyChain, |old(w.joints)|, MaxJoints, MaxJoints, Some(|old(w.targets)|))]
  {
    var movingTarget := w.NewTarget(Vec(0.0, 0.0, 0.0));
    w.SetPosition(movingTarget, Vec(0.0, 0.0, 2.0));
    pivot := w.NewPivot();
    w.AddTarget(pivot, movingTarget);
    ik := w.NewIK();
    var chain := CreateBonesAndChain(w, movingTarget);
    assert w.iks == old(w.iks) + [[]];
    w.IKAdd(ik, chain);
    assert w.iks[ik] == [chain];
    assert w.iks == old(w.iks) + [[chain]];
    var helper := w.NewHelper(ik);
  }

  /** The chain createBonesAndChain builds has one effector, its last joint, and every other joint lacks a target. */
  lemma {:induction false} SingleEffector(j0: nat, t: nat)
    ensures var c := AddedInOrder(EmptyChain, j0, MaxJoints, MaxJoints, Some(t));
      && |c.joints| == MaxJoints
      && c.effector == Some(c.joints[MaxJoints - 1]) && c.target == Some(t)
      && (forall k :: 0 <= k < MaxJoints ==> c.joints[k] == j0 + k)
  {
    var c := AddedInOrder(EmptyChain, j0, MaxJoints, MaxJoints, Some(t));
    assert c.joints == Handles(j0, MaxJoints);
  }
}
