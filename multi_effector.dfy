/**
 * The MultiEffector demo: one IK whose root chain of RootCount joints has
 * eight arm chains of ArmCount joints connected to it, each arm starting on a
 * root joint and ending at a target of its own; and its onChange, which
 * pushes the configured constraint type and angle into those chains.
 */
module MultiEffector {
  import opened SceneGraph
  import opened Skeleton
  import opened IKApp
  import opened ConstraintWrites
  import opened Branching

  /** What onChange reads of the world. */
  function SceneOf(w: World): Scene
    reads w`joints, w`chains, w`iks
  {
    Scene(w.joints, w.chains, w.iks)
  }

  /** `joints.forEach(j => j.constraints[0] = v)`. */
  method WriteSlots(w: World, ghost sc: Scene, js: seq<nat>, v: Option<nat>)
    requires sc == SceneOf(w) && JointsIn(sc, js) && ListsFit(sc, |w.lists|)
    modifies w`lists
    ensures Store(w.lists, w.angles, false) == Run(old(Store(w.lists, w.angles, false)), SlotWrites(sc, js, v))
  {
    ghost var s0 := Store(w.lists, w.angles, false);
    for k := 0 to |js|
      invariant Store(w.lists, w.angles, false) == Run(s0, SlotWrites(sc, js[..k], v))
    {
      var l := w.joints[js[k]].constraints;
      SlotWriteStep(sc, s0, js, v, k);
      w.SetSlot(l, v);
    }
    assert js[..|js|] == js;
  }

  /** `joints.forEach(j => j.constraints[0].angle = a)`, which throws at the first null or missing slot. */
  method WriteAngles(w: World, ghost sc: Scene, js: seq<nat>, a: real) returns (ok: bool)
    requires sc == SceneOf(w) && JointsIn(sc, js) && ListsFit(sc, |w.lists|) && SlotsFit(w.lists, |w.angles|)
    modifies w`angles
    ensures Store(w.lists, w.angles, !ok) == Run(old(Store(w.lists, w.angles, false)), AngleWrites(sc, js, a))
  {
    ghost var s0 := Store(w.lists, w.angles, false);
    for k := 0 to |js|
      invariant Store(w.lists, w.angles, false) == Run(s0, AngleWrites(sc, js[..k], a))
    {
      var l := w.joints[js[k]].constraints;
      AngleWriteStep(sc, s0, js, a, k);
      if |w.lists[l]| == 0 || w.lists[l][0].None? {
        AnglePrefixStops(sc, s0, js[..k + 1], js, a);
        return false;
      }
      w.SetAngle(w.lists[l][0].value, a);
    }
    assert js[..|js|] == js;
    return true;
  }

  /** `for (let chain of chains) chain.joints.forEach(j => j.constraints[0].angle = a)`. */
  method WriteChains(w: World, ghost sc: Scene, cs: seq<nat>, a: real) returns (ok: bool)
    requires sc == SceneOf(w) && LinksOk(sc) && ChainsIn(sc, cs)
    requires ListsFit(sc, |w.lists|) && SlotsFit(w.lists, |w.angles|)
    modifies w`angles
    ensures Store(w.lists, w.angles, !ok) == Run(old(Store(w.lists, w.angles, false)), AngleWrites(sc, ChainJoints(sc, cs), a))
  {
    ghost var s0 := Store(w.lists, w.angles, false);
    for k := 0 to |cs|
      invariant |w.angles| == |s0.angles|
      invariant Store(w.lists, w.angles, false) == Run(s0, AngleWrites(sc, ChainJoints(sc, cs[..k]), a))
    {
      var js := w.chains[cs[k]].joints;
      ChainJointsTake(sc, cs, k);
      RunAngleWritesAppend(sc, s0, ChainJoints(sc, cs[..k]), js, a);
      ok := WriteAngles(w, sc, js, a);
      if !ok {
        ChainsStop(sc, s0, cs, k + 1, a);
        return;
      }
    }
    assert cs[..|cs|] == cs;
    return true;
  }

  /** `for (let [index, chains] of rootChain.chains) ...`: the connected chains, entry by entry. */
  method WriteEntries(w: World, ghost sc: Scene, es: seq<SubChains>, a: real) returns (ok: bool)
    requires sc == SceneOf(w) && LinksOk(sc) && EntriesIn(sc, es)
    requires ListsFit(sc, |w.lists|) && SlotsFit(w.lists, |w.angles|)
    modifies w`angles
    ensures Store(w.lists, w.angles, !ok) == Run(old(Store(w.lists, w.angles, false)), AngleWrites(sc, EntryJoints(sc, es), a))
  {
    ghost var s0 := Store(w.lists, w.angles, false);
    for k := 0 to |es|
      invariant |w.angles| == |s0.angles|
      invariant EntriesIn(sc, es[..k])
      invariant Store(w.lists, w.angles, false) == Run(s0, AngleWrites(sc, EntryJoints(sc, es[..k]), a))
    {
      var cs := es[k].chains;
      EntryJointsTake(sc, es, k);
      RunAngleWritesAppend(sc, s0, EntryJoints(sc, es[..k]), ChainJoints(sc, cs), a);
      ok := WriteChains(w, sc, cs, a);
      if !ok {
        EntriesStop(sc, s0, es, k + 1, a);
        return;
      }
    }
    assert es[..|es|] == es;
    return true;
  }

  /**
   * The writes for one IK: `ik.chains[0]` (which throws on an IK without
   * chains), its joints' slot or angle writes, then every connected chain's
   * angle writes.
   */
  method IkWrites(w: World, ghost sc: Scene, ik: nat, rw: RootWrite, a: real) returns (ok: bool)
    requires sc == SceneOf(w) && LinksOk(sc) && IksOk(sc.iks, |sc.chains|) && ik < |sc.iks|
    requires ListsFit(sc, |w.lists|) && SlotsFit(w.lists, |w.angles|)
    requires rw.Slot? && rw.value.Some? ==> rw.value.value < |w.angles|
    modifies w`lists, w`angles
    ensures Store(w.lists, w.angles, !ok) == Run(old(Store(w.lists, w.angles, false)), IkOps(sc, ik, rw, a))
    ensures ok ==> SlotsFit(w.lists, |w.angles|)
  {
    ghost var s0 := Store(w.lists, w.angles, false);
    if |w.iks[ik]| == 0 {
      assert Run(s0, [Throw]) == Step(Run(s0, []), Throw) by { RunSnoc(s0, [], Throw); }
      return false;
    }
    var root := w.chains[w.iks[ik][0]];
    assert root == RootOf(sc, ik);
    assert JointsIn(sc, root.joints) && EntriesIn(sc, root.subChains);
    ghost var rootOps := match rw
      case Slot(v) => SlotWrites(sc, root.joints, v)
      case Angle => AngleWrites(sc, root.joints, a);
    ghost var entryOps := AngleWrites(sc, EntryJoints(sc, root.subChains), a);
    assert IkOps(sc, ik, rw, a) == rootOps + entryOps;
    match rw {
      case Slot(v) =>
        WriteSlots(w, sc, root.joints, v);
        SlotKeepsSlotsFit(sc, s0, root.joints, v);
      case Angle =>
        ok := WriteAngles(w, sc, root.joints, a);
        if !ok {
          RunStops(s0, rootOps, entryOps);
          return;
        }
    }
    ok := WriteEntries(w, sc, root.subChains, a);
    RunSplit(s0, rootOps, entryOps);
  }

  /** `for (let ik of this.iks) ...`: the writes for each IK of the app, IK after IK, up to the first throw. */
  method AllIkWrites(w: World, ghost sc: Scene, iks: seq<nat>, rw: RootWrite, a: real) returns (ok: bool)
    requires sc == SceneOf(w) && SceneOk(sc, iks)
    requires ListsFit(sc, |w.lists|) && SlotsFit(w.lists, |w.angles|)
    requires rw.Slot? && rw.value.Some? ==> rw.value.value < |w.angles|
    modifies w`lists, w`angles
    ensures Store(w.lists, w.angles, !ok) == Run(old(Store(w.lists, w.angles, false)), AllOps(sc, iks, rw, a))
    ensures ok ==> SlotsFit(w.lists, |w.angles|)
  {
    ghost var s0 := Store(w.lists, w.angles, false);
    for k := 0 to |iks|
      invariant |w.lists| == |s0.lists| && |w.angles| == |s0.angles|
      invariant SlotsFit(w.lists, |w.angles|)
      invariant SceneOk(sc, iks[..k])
      invariant Store(w.lists, w.angles, false) == Run(s0, AllOps(sc, iks[..k], rw, a))
    {
      AllOpsTake(sc, iks, k, rw, a);
      ok := IkWrites(w, sc, iks[k], rw, a);
      RunSplit(s0, AllOps(sc, iks[..k], rw, a), IkOps(sc, iks[k], rw, a));
      if !ok {
        AllStop(sc, s0, iks, k + 1, rw, a);
        return;
      }
    }
    assert iks[..|iks|] == iks;
    return true;
  }

  /** The type branch of onChange on the world's arrays and constraints. */
  method PushType(w: World, ghost sc: Scene, iks: seq<nat>, cfg: Config, memType: Option<ConstraintType>) returns (ok: bool)
    requires sc == SceneOf(w) && SceneOk(sc, iks)
    requires ListsFit(sc, |w.lists|) && SlotsFit(w.lists, |w.angles|)
    modifies w`lists, w`angles
    ensures Store(w.lists, w.angles, !ok) == Typed(sc, iks, old(Store(w.lists, w.angles, false)), cfg, memType)
    ensures ok ==> SlotsFit(w.lists, |w.angles|)
  {
    if Some(cfg.constraintType) == memType {
      return true;
    }
    var constraint := None;
    if cfg.constraintType == Ball {
      var c := w.NewConstraint(cfg.constraintAngle);
      constraint := Some(c);
    }
    ok := AllIkWrites(w, sc, iks, Slot(constraint), cfg.constraintAngle);
  }

  /** The angle branch of onChange on the world's constraints, once the type branch has not thrown. */
  method PushAngle(w: World, ghost sc: Scene, iks: seq<nat>, cfg: Config, memAngle: Option<real>) returns (ok: bool)
    requires sc == SceneOf(w) && SceneOk(sc, iks)
    requires ListsFit(sc, |w.lists|) && SlotsFit(w.lists, |w.angles|)
    modifies w`lists, w`angles
    ensures memAngle == Some(cfg.constraintAngle) ==> ok && Store(w.lists, w.angles, false) == old(Store(w.lists, w.angles, false))
    ensures memAngle != Some(cfg.constraintAngle) && cfg.constraintType != Ball ==>
      !ok && Store(w.lists, w.angles, false) == old(Store(w.lists, w.angles, false))
    ensures memAngle != Some(cfg.constraintAngle) && cfg.constraintType == Ball ==>
      Store(w.lists, w.angles, !ok) == Run(old(Store(w.lists, w.angles, false)), AllOps(sc, iks, Angle, cfg.constraintAngle))
  {
    if Some(cfg.constraintAngle) == memAngle {
      return true;
    }
    if cfg.constraintType != Ball {
      return false;
    }
    ok := AllIkWrites(w, sc, iks, Angle, cfg.constraintAngle);
  }

  /**
   * MultiEffector.onChange on `app`: a changed constraint type is recorded
   * and pushed into the chains, a changed angle is pushed into the chains
   * (which throws unless the type is 'ball') and recorded, and then the base
   * onChange updates the helpers. `ok` is false where onChange throws; what
   * it did before the throw stays done.
   */
  method OnChange(app: App) returns (ok: bool)
    requires app.Valid() && SceneOk(SceneOf(app.world), app.iks)
    requires ListsFit(SceneOf(app.world), |app.world.lists|) && SlotsFit(app.world.lists, |app.world.angles|)
    modifies app`constraintType, app`constraintAngle, app.world`lists, app.world`angles, app.world`helpers
    ensures var r := OnChangeSpec(SceneOf(app.world), app.iks, old(app.world.lists), old(app.world.angles),
                                  app.config, old(app.constraintType), old(app.constraintAngle));
      && ok == !r.store.thrown && Store(app.world.lists, app.world.angles, !ok) == r.store
      && app.constraintType == r.constraintType && app.constraintAngle == r.constraintAngle
    ensures ok ==> app.world.helpers == ShowAll(old(app.world.helpers), app.helpers, DisplayOf(app.config))
    ensures !ok ==> app.world.helpers == old(app.world.helpers)
  {
    var w, cfg, iks := app.world, app.config, app.iks;
    var memType, memAngle := app.constraintType, app.constraintAngle;
    ghost var sc := SceneOf(w);
    app.constraintType := Some(cfg.constraintType);
    ok := PushType(w, sc, iks, cfg, memType);
    if !ok {
      return;
    }
    ok := PushAngle(w, sc, iks, cfg, memAngle);
    if !ok {
      return;
    }
    app.constraintAngle := Some(cfg.constraintAngle);
    app.OnChange();
  }

  /** The pass i = 0 of setupIK: a new chain, one new constraint, and RootCount joints on fresh bones, none with a target. */
  method BuildRoot(w: World, angle: real) returns (root: nat)
    modifies w`bones, w`lists, w`angles, w`joints, w`chains
    ensures root == |old(w.chains)| && w.chains == old(w.chains) + [RootChain(|old(w.joints)|, root, 0)]
    ensures w.angles == old(w.angles) + [angle]
    ensures w.bones == old(w.bones) + LinearBones(|old(w.bones)|, RootCount, None, 0.0, Distance)
    ensures w.lists == old(w.lists) + Repeat([Some(|old(w.angles)|)], RootCount)
    ensures w.joints == old(w.joints) + OwnJoints(|old(w.bones)|, |old(w.lists)|, RootCount)
  {
    root := w.NewChain();
    var constraint := w.NewConstraint(angle);
    AppendOwnJoints(w, root, RootCount, None, 0.0, Distance, constraint, None);
    assert EmptyChain.joints + Handles(|old(w.joints)|, RootCount) == Handles(|old(w.joints)|, RootCount);
  }

  /**
   * The inner loop of setupIK's pass i >= 1, on the new chain `arm`: the
   * root joint `joint` added first, then ArmCount - 1 joints on fresh bones
   * hanging from that joint's bone, each holding a fresh `[constraint]`, the
   * last one with `target`.
   */
  method ArmJoints(w: World, arm: nat, joint: nat, constraint: nat, target: nat)
    requires arm < |w.chains| && w.chains[arm] == EmptyChain
    requires joint < |w.joints| && w.joints[joint].bone < |w.bones|
    modifies w`bones, w`lists, w`joints, w`chains
    ensures w.bones == old(w.bones) + LinearBones(|old(w.bones)|, ArmCount - 1, Some(old(w.joints)[joint].bone), Distance, Distance)
    ensures w.lists == old(w.lists) + Repeat([Some(constraint)], ArmCount - 1)
    ensures w.joints == old(w.joints) + OwnJoints(|old(w.bones)|, |old(w.lists)|, ArmCount - 1)
    ensures w.chains == old(w.chains)[arm := Chain([joint] + Handles(|old(w.joints)|, ArmCount - 1), Some(|old(w.joints)| + ArmCount - 2), Some(target), [])]
  {
    ghost var C, j1 := w.chains, |w.joints|;
    var bone := w.joints[joint].bone;
    w.ChainAdd(arm, joint, None);
    ghost var started := Chain([joint], None, None, []);
    assert EmptyChain.joints + [joint] == [joint];
    assert Added(EmptyChain, joint, None) == started;
    AppendOwnJoints(w, arm, ArmCount - 1, Some(bone), Distance, Distance, constraint, Some(target));
    assert AddedInOrder(started, j1, ArmCount - 1, ArmCount - 1, Some(target))
        == Chain([joint] + Handles(j1, ArmCount - 1), Some(j1 + ArmCount - 2), Some(target), []);
  }

  /** ArmJoints on the root chain's joint SubBaseIndex(i), then `arm` registered with the root chain under that index. */
  method ArmJointsAndConnect(w: World, root: nat, arm: nat, i: nat, ghost j0: nat, constraint: nat, target: nat)
    requires root < |w.chains| && arm < |w.chains| && root != arm && w.chains[arm] == EmptyChain
    requires w.chains[root].joints == Handles(j0, RootCount)
    requires j0 + RootCount <= |w.joints| && w.joints[j0 + SubBaseIndex(i)].bone < |w.bones|
    modifies w`bones, w`lists, w`joints, w`chains
    ensures w.bones == old(w.bones) + LinearBones(|old(w.bones)|, ArmCount - 1, Some(old(w.joints)[j0 + SubBaseIndex(i)].bone), Distance, Distance)
    ensures w.lists == old(w.lists) + Repeat([Some(constraint)], ArmCount - 1)
    ensures w.joints == old(w.joints) + OwnJoints(|old(w.bones)|, |old(w.lists)|, ArmCount - 1)
    ensures w.chains == old(w.chains)
      [arm := Chain([j0 + SubBaseIndex(i)] + Handles(|old(w.joints)|, ArmCount - 1), Some(|old(w.joints)| + ArmCount - 2), Some(target), [])]
      [root := old(w.chains)[root].(subChains := Register(old(w.chains)[root].subChains, SubBaseIndex(i), arm))]
  {
    var joint := w.chains[root].joints[SubBaseIndex(i)];
    assert joint == j0 + SubBaseIndex(i);
    ArmJoints(w, arm, joint, constraint, target);
    ConnectArm(w, root, arm, i, j0);
  }

  /** `rootChain.connect(chain)` for an arm whose first joint is the root chain's joint SubBaseIndex(i). */
  method ConnectArm(w: World, root: nat, arm: nat, i: nat, ghost j0: nat)
    requires root < |w.chains| && arm < |w.chains|
    requires w.chains[root].joints == Handles(j0, RootCount)
    requires |w.chains[arm].joints| > 0 && w.chains[arm].joints[0] == j0 + SubBaseIndex(i)
    modifies w`chains
    ensures w.chains == old(w.chains)[root := old(w.chains)[root].(subChains := Register(old(w.chains)[root].subChains, SubBaseIndex(i), arm))]
  {
    IndexOfHandles(j0, RootCount, SubBaseIndex(i));
    assert w.chains[arm].joints[0] in w.chains[root].joints;
    w.Connect(root, arm);
  }

  /**
   * The pass i >= 1 of setupIK: a new chain, one new constraint, a new
   * target; the root joint at SubBaseIndex(i) added first, then ArmCount - 1
   * joints on fresh bones hanging from that joint's bone, the last one with
   * the target; then the arm connected to the root chain.
   */
  method BuildArm(app: App, w: World, root: nat, i: nat, ghost j0: nat) returns (arm: nat)
    requires app.world == w && 1 <= i
    requires root < |w.chains| && w.chains[root].joints == Handles(j0, RootCount)
    requires j0 + RootCount <= |w.joints| && w.joints[j0 + SubBaseIndex(i)].bone < |w.bones|
    modifies app`gizmos, w`targets, w`bones, w`lists, w`angles, w`joints, w`chains
    ensures arm == |old(w.chains)|
    ensures w.angles == old(w.angles) + [app.config.constraintAngle]
    ensures w.targets == old(w.targets) + [Target(ArmTarget(i), None)]
    ensures app.gizmos == old(app.gizmos) + [Gizmo(|old(w.targets)|, 0.5)]
    ensures w.bones == old(w.bones) + LinearBones(|old(w.bones)|, ArmCount - 1, Some(old(w.joints)[j0 + SubBaseIndex(i)].bone), Distance, Distance)
    ensures w.lists == old(w.lists) + Repeat([Some(|old(w.angles)|)], ArmCount - 1)
    ensures w.joints == old(w.joints) + OwnJoints(|old(w.bones)|, |old(w.lists)|, ArmCount - 1)
    ensures w.chains == (old(w.chains) + [Chain([j0 + SubBaseIndex(i)] + Handles(|old(w.joints)|, ArmCount - 1),
                                              Some(|old(w.joints)| + ArmCount - 2), Some(|old(w.targets)|), [])])
                        [root := old(w.chains)[root].(subChains := Register(old(w.chains)[root].subChains, SubBaseIndex(i), arm))]
  {
    arm := w.NewChain();
    var constraint := w.NewConstraint(app.config.constraintAngle);
    var target := app.CreateTarget(ArmTarget(i));
    ArmJointsAndConnect(w, root, arm, i, j0, constraint, target);
  }

  /** The arenas as setupIK found them, before it created anything. */
  datatype Arenas = Arenas(bones: seq<Bone>, lists: seq<seq<Option<nat>>>, angles: seq<real>, joints: seq<Joint>,
                           chains: seq<Chain>, targets: seq<Target>, gizmos: seq<Gizmo>)

  /** The arenas of `w` and the gizmos of `app`, as they are now. */
  function ArenasOf(app: App, w: World): Arenas
    reads app`gizmos, w`bones, w`lists, w`angles, w`joints, w`chains, w`targets
  {
    Arenas(w.bones, w.lists, w.angles, w.joints, w.chains, w.targets, app.gizmos)
  }

  /**
   * What setupIK has appended to the arenas `o` once the root chain and arms
   * 1 to `n` are built, all constraints having angle `angle`: `a` is the
   * arenas then.
   */
  ghost predicate Built(a: Arenas, o: Arenas, angle: real, n: nat)
  {
    && a.bones == o.bones + LinearBones(|o.bones|, RootCount, None, 0.0, Distance) + ArmBones(|o.bones|, n)
    && a.lists == o.lists + Repeat([Some(|o.angles|)], RootCount) + ArmLists(|o.angles|, n)
    && a.angles == o.angles + Repeat(angle, n + 1)
    && a.joints == o.joints + OwnJoints(|o.bones|, |o.lists|, RootCount + (ArmCount - 1) * n)
    && a.chains == o.chains + [RootChain(|o.joints|, |o.chains|, n)] + ArmChains(|o.joints|, |o.targets|, n)
    && a.targets == o.targets + ArmTargets(n)
    && a.gizmos == o.gizmos + ArmGizmos(|o.targets|, n)
  }

  /**
   * BuildArm for arm n + 1 on the arenas `a` left by passes 0 to n, whose
   * root joint for that arm is joint `joint` on bone `bone`, gives `b`: the
   * arenas pass n + 1 leaves.
   */
  lemma {:induction false} BuiltNext(a: Arenas, o: Arenas, angle: real, n: nat, b: Arenas, root: nat, arm: nat, bone: nat)
    requires Built(a, o, angle, n) && root == |o.chains| && arm == |a.chains|
    requires bone == |o.bones| + SubBaseIndex(n + 1)
    requires b.angles == a.angles + [angle]
    requires b.targets == a.targets + [Target(ArmTarget(n + 1), None)]
    requires b.gizmos == a.gizmos + [Gizmo(|a.targets|, 0.5)]
    requires b.bones == a.bones + LinearBones(|a.bones|, ArmCount - 1, Some(bone), Distance, Distance)
    requires b.lists == a.lists + Repeat([Some(|a.angles|)], ArmCount - 1)
    requires b.joints == a.joints + OwnJoints(|a.bones|, |a.lists|, ArmCount - 1)
    requires b.chains == (a.chains + [Chain([|o.joints| + SubBaseIndex(n + 1)] + Handles(|a.joints|, ArmCount - 1),
                                            Some(|a.joints| + ArmCount - 2), Some(|a.targets|), [])])
                         [root := a.chains[root].(subChains := Register(a.chains[root].subChains, SubBaseIndex(n + 1), arm))]
    ensures Built(b, o, angle, n + 1)
  {
    ghost var b0, l0, a0, j0, t0 := |o.bones|, |o.lists|, |o.angles|, |o.joints|, |o.targets|;
    ArmBonesStep(o.bones + LinearBones(b0, RootCount, None, 0.0, Distance), b0, n, a.bones, bone);
    ArmListsStep(o.lists + Repeat([Some(a0)], RootCount), a0, n, a.lists, |a.angles|);
    RepeatStep(o.angles, angle, n + 1, a.angles);
    JointsStep(o.joints, b0, l0, n, a.joints, |a.bones|, |a.lists|);
    ChainsStep(o.chains, j0, t0, n, a.chains, |a.joints|, |a.targets|, root, arm);
    TargetsStep(o.targets, n, a.targets);
    GizmosStep(o.gizmos, t0, n, a.gizmos, |a.targets|);
  }

  /** In the arenas passes 0 to n leave, the root chain's joint SubBaseIndex(n + 1) sits on root bone SubBaseIndex(n + 1). */
  lemma {:induction false} BuiltRootJoint(a: Arenas, o: Arenas, angle: real, n: nat)
    requires Built(a, o, angle, n)
    ensures |o.chains| < |a.chains| && a.chains[|o.chains|].joints == Handles(|o.joints|, RootCount)
    ensures |a.joints| == |o.joints| + ArmStart(n + 1) && |a.bones| == |o.bones| + ArmStart(n + 1)
    ensures a.joints[|o.joints| + SubBaseIndex(n + 1)] == Joint(|o.bones| + SubBaseIndex(n + 1), |o.lists| + SubBaseIndex(n + 1))
  {
  }

  /** The pass i = n + 1 of setupIK's outer loop, from the state after pass n to the state after pass n + 1. */
  method SetupArmStep(app: App, w: World, root: nat, n: nat, ghost o: Arenas)
    requires app.world == w && root == |o.chains| && Built(ArenasOf(app, w), o, app.config.constraintAngle, n)
    modifies app`gizmos, w`targets, w`bones, w`lists, w`angles, w`joints, w`chains
    ensures Built(ArenasOf(app, w), o, app.config.constraintAngle, n + 1)
  {
    ghost var a := ArenasOf(app, w);
    BuiltRootJoint(a, o, app.config.constraintAngle, n);
    var arm := BuildArm(app, w, root, n + 1, |o.joints|);
    BuiltNext(a, o, app.config.constraintAngle, n, ArenasOf(app, w), root, arm, |o.bones| + SubBaseIndex(n + 1));
  }

  /** The arenas after pass 0 alone: the root chain and its bones, arrays, joints and constraint. */
  lemma {:induction false} BuiltRoot(o: Arenas, a: Arenas, angle: real)
    requires a.chains == o.chains + [RootChain(|o.joints|, |o.chains|, 0)] && a.angles == o.angles + [angle]
    requires a.bones == o.bones + LinearBones(|o.bones|, RootCount, None, 0.0, Distance)
    requires a.lists == o.lists + Repeat([Some(|o.angles|)], RootCount)
    requires a.joints == o.joints + OwnJoints(|o.bones|, |o.lists|, RootCount)
    requires a.targets == o.targets && a.gizmos == o.gizmos
    ensures Built(a, o, angle, 0)
  {
    assert Repeat(angle, 1) == [angle];
    assert OwnJoints(|o.bones|, |o.lists|, RootCount + (ArmCount - 1) * 0) == OwnJoints(|o.bones|, |o.lists|, RootCount);
  }

  /** Passes 1 to Arms of setupIK's outer loop, one arm each. */
  method SetupArms(app: App, w: World, root: nat, ghost o: Arenas)
    requires app.world == w && root == |o.chains| && Built(ArenasOf(app, w), o, app.config.constraintAngle, 0)
    modifies app`gizmos, w`targets, w`bones, w`lists, w`angles, w`joints, w`chains
    ensures Built(ArenasOf(app, w), o, app.config.constraintAngle, Arms)
  {
    for n := 0 to Arms
      invariant Built(ArenasOf(app, w), o, app.config.constraintAngle, n)
    {
      SetupArmStep(app, w, root, n, o);
    }
  }

  /**
   * setupIK: a new IK; the root chain, then arms 1 to Arms each connected to
   * it in increasing order; the root chain added to the IK, the IK appended to
   * the app's `iks`, and a new pivot. Every new bone, array, joint, constraint,
   * chain, target and gizmo is appended to its arena in creation order.
   */
  method SetupIK(app: App, w: World)
    requires app.world == w && app.Valid()
    modifies app`gizmos, app`iks, w`bones, w`lists, w`angles, w`joints, w`chains, w`targets, w`iks, w`pivots
    ensures app.Valid()
    ensures w.iks == old(w.iks) + [[|old(w.chains)|]] && app.iks == old(app.iks) + [|old(w.iks)|]
    ensures w.pivots == old(w.pivots) + 1
    ensures Built(ArenasOf(app, w), old(ArenasOf(app, w)), app.config.constraintAngle, Arms)
  {
    ghost var o := ArenasOf(app, w);
    var ik := w.NewIK();
    var root := BuildRoot(w, app.config.constraintAngle);
    BuiltRoot(o, ArenasOf(app, w), app.config.constraintAngle);
    SetupArms(app, w, root, o);
    assert ik == |old(w.iks)| && w.iks[ik] + [root] == [root];
    w.IKAdd(ik, root);
    assert w.iks == old(w.iks) + [[root]];
    app.iks := app.iks + [ik];
    var pivot := w.NewPivot();
  }
}
