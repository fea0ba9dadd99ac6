/**
 * The SimpleMesh demo: the Simple chain built into a chain the caller owns,
 * with the IK and the pivot kept in fields of the demo object.
 */
module SimpleMesh {
  import opened SceneGraph
  import opened Skeleton

  const MaxJoints: nat := 7

  class SimpleMesh {
    const world: World
    var ik: nat
    var pivot: nat

    /** The constructor: the scene plumbing is not modelled, then initIK runs. */
    constructor (w: World)
      modifies w
      ensures world == w && ik == |old(w.iks)| && pivot == old(w.pivots)
      ensures w.iks == old(w.iks) + [[|old(w.chains)|]]
      ensures w.chains == old(w.chains) + [AddedInOrder(EmptyChain, |old(w.joints)|, MaxJoints, MaxJoints, Some(|old(w.targets)|))]
      ensures w.targets == old(w.targets) + [Target(Vec(0.0, 0.0, 2.0), Some(pivot))]
      ensures w.pivots == old(w.pivots) + 1
      ensures w.helpers == old(w.helpers) + [Helper(ik, None)]
      ensures w.bones == old(w.bones) + LinearBones(|old(w.bones)|, MaxJoints, None, 0.0, 0.5)
      ensures w.joints == old(w.joints) + SharedJoints(|old(w.bones)|, MaxJoints, |old(w.lists)|)
      ensures w.lists == old(w.lists) + [[Some(|old(w.angles)|)]]
      ensures w.angles == old(w.angles) + [90.0]
    {
      world := w;
      new;
      InitIK();
    }

    /**
     * initIK: a new IK stored in `ik`, a moving target at z = 2 added to a new
     * pivot stored in `pivot`, a new chain filled by createBones and added to
     * the IK as its only chain, and a helper for the IK.
     */
    method InitIK()
      modifies this, world
      ensures ik == |old(world.iks)| && world.iks == old(world.iks) + [[|old(world.chains)|]]
      ensures pivot == old(world.pivots) && world.pivots == old(world.pivots) + 1
      ensures world.targets == old(world.targets) + [Target(Vec(0.0, 0.0, 2.0), Some(pivot))]
      ensures world.helpers == old(world.helpers) + [Helper(ik, None)]
      ensures world.bones == old(world.bones) + LinearBones(|old(world.bones)|, MaxJoints, None, 0.0, 0.5)
      ensures world.joints == old(world.joints) + SharedJoints(|old(world.bones)|, MaxJoints, |old(world.lists)|)
      ensures world.lists == old(world.lists) + [[Some(|old(world.angles)|)]]
      ensures world.angles == old(world.angles) + [90.0]
      ensures world.chains == old(world.chains) + [AddedInOrder(EmptyChain, |old(world.joints)|, MaxJoints, MaxJoints, Some(|old(world.targets)|))]
    {
      var w := world;
      var theIK := w.NewIK();
      var movingTarget := w.NewTarget(Vec(0.0, 0.0, 0.0));
      var chain := w.NewChain();
      w.SetPosition(movingTarget, Vec(0.0, 0.0, 2.0));
      var thePivot := w.NewPivot();
      w.AddTarget(thePivot, movingTarget);
      CreateBones(chain, movingTarget);
      assert w.iks == old(w.iks) + [[]];
      w.IKAdd(theIK, chain);
      assert w.iks[theIK] == [chain];
      assert w.iks == old(w.iks) + [[chain]];
      var helper := w.NewHelper(theIK);
      ik, pivot := theIK, thePivot;
    }

    /**
     * createBones: appends MaxJoints joints to `chain` on fresh bones, bone i
     * a child of bone i - 1, all holding one shared array with one
     * IKBallConstraint(90), and only the last one carrying `movingTarget`.
     */
    method CreateBones(chain: nat, movingTarget: nat)
      requires chain < |world.chains|
      modifies world`bones, world`joints, world`lists, world`angles, world`chains
      ensures world.angles == old(world.angles) + [90.0]
      ensures world.lists == old(world.lists) + [[Some(|old(world.angles)|)]]
      ensures world.bones == old(world.bones) + LinearBones(|old(world.bones)|, MaxJoints, None, 0.0, 0.5)
      ensures world.joints == old(world.joints) + SharedJoints(|old(world.bones)|, MaxJoints, |old(world.lists)|)
      ensures world.chains == old(world.chains)[chain := AddedInOrder(old(world.chains)[chain], |old(world.joints)|, MaxJoints, MaxJoints, Some(movingTarget))]
    {
      var ball := world.NewConstraint(90.0);
      var constraints := world.NewList([Some(ball)]);
      AppendStraightJoints(world, chain, MaxJoints, constraints, movingTarget);
    }
  }
}
