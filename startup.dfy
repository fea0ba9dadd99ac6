/**
 * `new MultiEffector()`: the IKApp constructor with MultiEffector's setupIK
 * and onChange, on a world that holds nothing yet. The scene setupIK builds
 * is well formed, so the constructor's first onChange, where the remembered
 * type and angle are still undefined, takes both the type and the angle
 * branch and throws nothing.
 */
module Startup {
  import opened SceneGraph
  import opened Skeleton
  import opened IKApp
  import opened Branching
  import opened ConstraintWrites
  import opened MultiEffector

  /** The arenas of a world and an app that hold nothing. */
  const NoArenas := Arenas([], [], [], [], [], [], [])

  /** How many bones, arrays and joints setupIK creates: the root chain's, then ArmCount - 1 per arm. */
  const Size: nat := RootCount + (ArmCount - 1) * Arms

  /** Arm n's arrays each hold one constraint, one of those of arms 1 to `n`. */
  lemma {:induction false} ArmListsAt(a0: nat, n: nat, k: nat)
    requires k < (ArmCount - 1) * n
    ensures var l := ArmLists(a0, n)[k];
      |l| == 1 && l[0].Some? && a0 < l[0].value <= a0 + n
  {
    if k < (ArmCount - 1) * (n - 1) {
      ArmListsAt(a0, n - 1, k);
      assert ArmLists(a0, n)[k] == ArmLists(a0, n - 1)[k];
    } else {
      assert ArmLists(a0, n)[k] == Repeat<seq<Option<nat>>>([Some(a0 + n)], ArmCount - 1)[k - (ArmCount - 1) * (n - 1)];
    }
  }

  /** From empty arenas, setupIK creates the root's arrays, then the arms'; and Arms + 1 constraints. */
  lemma {:induction false} SetupLists(a: Arenas, angle: real)
    requires Built(a, NoArenas, angle, Arms)
    ensures a.lists == Repeat([Some(0)], RootCount) + ArmLists(0, Arms) && |a.angles| == Arms + 1
  {
    assert [] + Repeat([Some(0)], RootCount) == Repeat([Some(0)], RootCount);
  }

  /**
   * Those arrays: Size of them, every one holding exactly one constraint, one
   * of the first Arms + 1, the root's arrays constraint 0.
   */
  lemma {:induction false} ListsShape(lists: seq<seq<Option<nat>>>)
    requires lists == Repeat([Some(0)], RootCount) + ArmLists(0, Arms)
    ensures |lists| == Size
    ensures forall l :: 0 <= l < RootCount ==> lists[l] == [Some(0)]
    ensures forall l :: 0 <= l < |lists| ==> |lists[l]| == 1 && lists[l][0].Some? && lists[l][0].value <= Arms
  {
    forall l | RootCount <= l < |lists|
      ensures |lists[l]| == 1 && lists[l][0].Some? && lists[l][0].value <= Arms
    {
      ArmListsAt(0, Arms, l - RootCount);
    }
  }

  /** From empty arenas, joint j sits on bone j and holds array j. */
  lemma {:induction false} SetupJoints(a: Arenas, angle: real)
    requires Built(a, NoArenas, angle, Arms)
    ensures |a.joints| == Size
    ensures forall j :: 0 <= j < |a.joints| ==> a.joints[j] == Joint(j, j)
  {
    assert a.joints == OwnJoints(0, 0, Size);
  }

  /** From empty arenas, setupIK creates the root chain, then the arms' chains. */
  lemma {:induction false} SetupChains(a: Arenas, angle: real)
    requires Built(a, NoArenas, angle, Arms)
    ensures a.chains == [RootChain(0, 0, Arms)] + ArmChains(0, 0, Arms)
  {
    assert [] + [RootChain(0, 0, Arms)] == [RootChain(0, 0, Arms)];
  }

  /**
   * Those chains: chain 0 is the root chain on joints 0 to RootCount - 1,
   * with arms 1 to 4 connected at its joint 7 and arms 5 to 8 at its joint
   * 15; chain i is arm i.
   */
  lemma {:induction false} ChainsShape(chains: seq<Chain>)
    requires chains == [RootChain(0, 0, Arms)] + ArmChains(0, 0, Arms)
    ensures |chains| == Arms + 1
    ensures chains[0] == Chain(Handles(0, RootCount), None, None, [SubChains(7, Handles(1, 4)), SubChains(15, Handles(5, 4))])
    ensures forall c :: 1 <= c < |chains| ==> chains[c] == ArmChain(0, 0, c)
  {
    EntriesAfterSetup(0);
    forall c | 1 <= c < |chains| ensures chains[c] == ArmChain(0, 0, c) {
      assert chains[c] == ArmChains(0, 0, Arms)[c - 1];
    }
  }

  /** From empty arenas, arm i's gizmo follows target i - 1 at size 0.5. */
  lemma {:induction false} SetupGizmos(a: Arenas, angle: real)
    requires Built(a, NoArenas, angle, Arms)
    ensures |a.gizmos| == Arms && forall k :: 0 <= k < Arms ==> a.gizmos[k] == Gizmo(k, 0.5)
  {
    assert a.gizmos == ArmGizmos(0, Arms);
  }

  /**
   * What setupIK leaves in empty arenas, stated without the recursive
   * definitions: how many arrays, constraints, joints and chains there are,
   * which array and bone each joint has, what each chain is and which
   * target each gizmo follows.
   */
  ghost predicate Shaped(a: Arenas)
  {
    && |a.lists| == Size && |a.angles| == Arms + 1
    && (forall l :: 0 <= l < RootCount ==> a.lists[l] == [Some(0)])
    && (forall l :: 0 <= l < |a.lists| ==> |a.lists[l]| == 1 && a.lists[l][0].Some? && a.lists[l][0].value <= Arms)
    && |a.joints| == Size && (forall j :: 0 <= j < |a.joints| ==> a.joints[j] == Joint(j, j))
    && |a.chains| == Arms + 1
    && |a.chains[0].joints| == RootCount && (forall j :: 0 <= j < RootCount ==> a.chains[0].joints[j] == j)
    && a.chains[0].effector == None && a.chains[0].target == None
    && a.chains[0].subChains == [SubChains(7, Handles(1, 4)), SubChains(15, Handles(5, 4))]
    && (forall c :: 1 <= c < |a.chains| ==> a.chains[c] == ArmChain(0, 0, c))
    && |a.gizmos| == Arms && (forall k :: 0 <= k < Arms ==> a.gizmos[k] == Gizmo(k, 0.5))
  }

  /** setupIK on empty arenas leaves them Shaped. */
  lemma {:induction false} SetupShaped(a: Arenas, angle: real)
    requires Built(a, NoArenas, angle, Arms)
    ensures Shaped(a)
  {
    SetupLists(a, angle);
    ListsShape(a.lists);
    SetupJoints(a, angle);
    SetupChains(a, angle);
    ChainsShape(a.chains);
    SetupGizmos(a, angle);
    forall j | 0 <= j < RootCount ensures a.chains[0].joints[j] == j {
      assert a.chains[0].joints == Handles(0, RootCount);
    }
  }

  /** Arm i's joints, from empty arenas, are among the Size joints setupIK creates. */
  lemma {:induction false} ArmChainJoints(i: nat, k: nat)
    requires 1 <= i <= Arms && k < |ArmChain(0, 0, i).joints|
    ensures ArmChain(0, 0, i).joints[k] < Size
  {
    if k >= 1 {
      assert ArmChain(0, 0, i).joints[k] == Handles(ArmStart(i), ArmCount - 1)[k - 1];
    }
  }

  /** Every chain's joints and connected chains exist in the scene setupIK builds from empty arenas. */
  lemma {:induction false} SetupLinks(a: Arenas)
    requires Shaped(a)
    ensures LinksOk(Scene(a.joints, a.chains, [[0]]))
  {
    var sc := Scene(a.joints, a.chains, [[0]]);
    forall c, k | 0 <= c < |sc.chains| && 0 <= k < |sc.chains[c].joints|
      ensures sc.chains[c].joints[k] < |sc.joints|
    {
      if c >= 1 {
        ArmChainJoints(c, k);
      }
    }
    forall c, e, k | 0 <= c < |sc.chains| && 0 <= e < |sc.chains[c].subChains| && 0 <= k < |sc.chains[c].subChains[e].chains|
      ensures sc.chains[c].subChains[e].chains[k] < |sc.chains|
    {
      assert c == 0;
    }
  }

  /**
   * The scene setupIK builds from empty arenas, with its one IK holding the
   * root chain: every link exists, and every connected joint is either a root
   * joint or holds its own constraint in an array no root joint holds.
   */
  lemma {:induction false} SetupScene(a: Arenas)
    requires Shaped(a)
    ensures var sc := Scene(a.joints, a.chains, [[0]]);
      && SceneOk(sc, [0]) && ListsFit(sc, |a.lists|) && SlotsFit(a.lists, |a.angles|)
      && sc.iks[0] != [] && ArmsReachable(sc, 0, a.lists)
  {
    var sc := Scene(a.joints, a.chains, [[0]]);
    SetupLinks(a);
    var root, arms := RootOf(sc, 0), ConstraintWrites.ArmJoints(sc, 0);
    forall k | 0 <= k < |arms|
      ensures arms[k] in root.joints || (First(a.lists[ListOf(sc, arms[k])]).Some? && !Written(sc, root.joints, ListOf(sc, arms[k])))
    {
      var x := arms[k];
      if x < RootCount {
        assert root.joints[x] == x;
      } else {
        assert ListOf(sc, x) == x;
        forall m | 0 <= m < |root.joints| ensures ListOf(sc, root.joints[m]) != x {
          assert root.joints[m] == m;
        }
      }
    }
  }

  /**
   * The IKApp constructor up to setupIK, with MultiEffector's setupIK, on a
   * new world: the default configuration, the one IK on the root chain, the
   * arenas Shaped; no helper yet and nothing applied yet.
   */
  method StartIK() returns (app: App)
    ensures fresh(app) && fresh(app.world) && app.Valid()
    ensures app.config == DefaultConfig() && app.constraintType == None && app.constraintAngle == None
    ensures Shaped(ArenasOf(app, app.world))
    ensures app.world.iks == [[0]] && app.iks == [0] && app.world.pivots == 1
    ensures app.helpers == [] && app.world.helpers == []
  {
    var w := new World();
    app := new App(w);
    SetupIK(app, w);
    SetupShaped(ArenasOf(app, w), app.config.constraintAngle);
  }

  /**
   * The IKApp constructor before its first onChange, with MultiEffector's
   * setupIK, on a new world: one helper for the one IK, whose root chain is
   * joints 0 to RootCount - 1; joint j holds array j; the scene is
   * well formed and every connected joint that is not a root joint holds
   * its own constraint, in an array no root joint holds.
   */
  method SetupApp() returns (app: App)
    ensures fresh(app) && fresh(app.world) && app.Valid()
    ensures app.config == DefaultConfig() && app.constraintType == None && app.constraintAngle == None
    ensures var w := app.world;
      && w.iks == [[0]] && app.iks == [0] && w.pivots == 1
      && app.helpers == [0] && w.helpers == [Helper(0, None)]
      && |w.joints| == Size && (forall j :: 0 <= j < Size ==> w.joints[j] == Joint(j, j))
      && |w.chains| == Arms + 1 && |w.chains[0].joints| == RootCount
      && (forall j :: 0 <= j < RootCount ==> w.chains[0].joints[j] == j)
      && |w.lists| == Size && |w.angles| == Arms + 1
      && |app.gizmos| == Arms && (forall k :: 0 <= k < Arms ==> app.gizmos[k] == Gizmo(k, 0.5))
    ensures var sc := SceneOf(app.world);
      && SceneOk(sc, [0]) && 0 < |sc.iks| && ListsFit(sc, |app.world.lists|)
      && SlotsFit(app.world.lists, |app.world.angles|)
      && sc.iks[0] != [] && ArmsReachable(sc, 0, app.world.lists)
  {
    app := StartIK();
    app.CreateHelpers();
    assert app.world.helpers == [Helper(0, None)];
    SetupScene(ArenasOf(app, app.world));
  }

  /**
   * The first onChange of an app with one IK whose type is configured as
   * 'ball' and nothing remembered yet, on a world whose connected joints all
   * hold a constraint no root joint holds: nothing throws; one new
   * constraint with the configured angle goes into slot 0 of every root
   * joint's array, every connected joint reaches a constraint with that
   * angle, both settings are recorded and every helper shows them.
   */
  method FirstChange(app: App) returns (ok: bool)
    requires app.Valid() && app.iks == [0]
    requires app.config.constraintType == Ball && app.constraintType == None
    requires var sc := SceneOf(app.world);
      && SceneOk(sc, [0]) && 0 < |sc.iks| && ListsFit(sc, |app.world.lists|) && SlotsFit(app.world.lists, |app.world.angles|)
      && sc.iks[0] != [] && ArmsReachable(sc, 0, app.world.lists)
    modifies app`constraintType, app`constraintAngle, app.world`lists, app.world`angles, app.world`helpers
    ensures ok && app.constraintType == Some(Ball) && app.constraintAngle == Some(app.config.constraintAngle)
    ensures var w := app.world;
      && |w.lists| == old(|w.lists|) && |w.angles| == old(|w.angles|) + 1
      && w.angles[old(|w.angles|)] == app.config.constraintAngle
    ensures var sc, w := SceneOf(app.world), app.world; var root := RootOf(sc, 0);
      && (forall k :: 0 <= k < |root.joints| ==> First(w.lists[ListOf(sc, root.joints[k])]) == Some(old(|w.angles|)))
      && forall k :: 0 <= k < |ConstraintWrites.ArmJoints(sc, 0)| ==>
           Reaches(Store(w.lists, w.angles, false), ListOf(sc, ConstraintWrites.ArmJoints(sc, 0)[k]), app.config.constraintAngle)
    ensures app.world.helpers == ShowAll(old(app.world.helpers), app.helpers, DisplayOf(app.config))
  {
    TypeToBall(SceneOf(app.world), 0, app.world.lists, app.world.angles, app.config, None, app.constraintAngle);
    ok := OnChange(app);
  }

  /** The frame Animate gives for the one IK and the eight target gizmos. */
  lemma {:induction false} FirstFrame(frame: seq<Event>, iks: seq<nat>, gizmos: seq<Gizmo>)
    requires iks == [0] && |gizmos| == Arms && forall k :: 0 <= k < Arms ==> gizmos[k] == Gizmo(k, 0.5)
    requires |frame| == |iks| + |gizmos| + 1 && frame[|frame| - 1] == Render
    requires forall k :: 0 <= k < |iks| ==> frame[k] == Solve(iks[k])
    requires forall k :: 0 <= k < |gizmos| ==> frame[|iks| + k] == UpdateGizmo(gizmos[k])
    ensures frame == [Solve(0)] + seq(Arms, k requires 0 <= k < Arms => UpdateGizmo(Gizmo(k, 0.5))) + [Render]
  {
  }

  /**
   * `new MultiEffector()` and the one animation frame its constructor ends
   * with. The default configuration; setupIK's branching skeleton, the root
   * chain the one IK; one helper for it. The first onChange throws nothing:
   * it records 'ball' and 360, puts one new IKBallConstraint(360) in slot 0
   * of every root joint, every connected joint reaches a constraint at 360,
   * and the helper shows the configured settings.
   */
  method NewMultiEffector() returns (app: App, ok: bool, frame: seq<Event>)
    ensures fresh(app) && fresh(app.world) && app.config == DefaultConfig()
    ensures var w := app.world;
      && |w.joints| == Size && (forall j :: 0 <= j < Size ==> w.joints[j] == Joint(j, j))
      && w.iks == [[0]] && app.iks == [0] && w.pivots == 1
      && |w.chains| == Arms + 1 && |w.chains[0].joints| == RootCount
      && (forall j :: 0 <= j < RootCount ==> w.chains[0].joints[j] == j)
      && app.helpers == [0] && w.helpers == [Helper(0, Some(DisplayOf(DefaultConfig())))]
    ensures ok && app.constraintType == Some(Ball) && app.constraintAngle == Some(360.0)
    ensures var w := app.world;
      && |w.lists| == Size && |w.angles| == Arms + 2 && w.angles[Arms + 1] == 360.0
      && (forall j :: 0 <= j < RootCount ==> First(w.lists[j]) == Some(Arms + 1))
    ensures var sc := SceneOf(app.world);
      && SceneOk(sc, app.iks) && sc.iks[0] != []
      && forall k :: 0 <= k < |ConstraintWrites.ArmJoints(sc, 0)| ==>
           Reaches(Store(app.world.lists, app.world.angles, false), ListOf(sc, ConstraintWrites.ArmJoints(sc, 0)[k]), 360.0)
    ensures frame == [Solve(0)] + seq(Arms, k requires 0 <= k < Arms => UpdateGizmo(Gizmo(k, 0.5))) + [Render]
  {
    app := SetupApp();
    ghost var js, cs := app.world.joints, app.world.chains;
    ok := FirstChange(app);
    assert app.world.joints == js && app.world.chains == cs;
    forall j | 0 <= j < RootCount ensures First(app.world.lists[j]) == Some(Arms + 1) {
      assert RootOf(SceneOf(app.world), 0).joints[j] == j;
    }
    frame := app.Animate();
    FirstFrame(frame, app.iks, app.gizmos);
  }
}
