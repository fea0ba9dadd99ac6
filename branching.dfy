/**
 * The branching skeleton MultiEffector.setupIK builds, as specification
 * functions of the arena sizes it starts from: a root chain of RootCount
 * joints and eight arms of ArmCount joints, arm i starting on root joint
 * SubBaseIndex(i) and ending at a target of its own, and what the root
 * chain's connected-chain entries, the bones' parents and the constraint
 * arrays then are.
 */
module Branching {
  import opened SceneGraph
  import opened Skeleton
  import opened IKApp

  const Distance: real := 0.5
  const RootCount: nat := 16
  const ArmCount: nat := 8
  /** The setup loop runs for i = 0 (the root chain) up to Arms (the last arm). */
  const Arms: nat := 8

  /** The index in the root chain of arm i's first joint: the middle joint for arms 1 to 4, the last for arms 5 to 8. */
  function SubBaseIndex(i: nat): (r: nat)
    ensures r < RootCount
    ensures i <= 4 ==> r == 7
    ensures i > 4 ==> r == 15
  {
    RootCount / (if i > 4 then 1 else 2) - 1
  }

  /** Where arm i's target is created: quarter turn (i - 1) % 4 around the y axis, at half or full root height. */
  function ArmTarget(i: nat): (p: Position)
    requires i >= 1
    ensures p.QuarterTurn? && 0 <= p.quarter < 4 && p.quarter == (i - 1) % 4
    ensures p.height == if i > 4 then 8.0 else 4.0
  {
    QuarterTurn((i - 1) % 4, (RootCount as real) * Distance * (if i > 4 then 1.0 else 0.5))
  }

  /** Where arm i's first fresh bone, array and joint sit, counted from the root chain's first. */
  function ArmStart(i: nat): nat
    requires i >= 1
  {
    RootCount + (ArmCount - 1) * (i - 1)
  }

  /** The bones of arms 1 to `n`, the root's bones starting at `b0`: each a straight run whose first bone is added to root bone SubBaseIndex(i). */
  function ArmBones(b0: nat, n: nat): (r: seq<Bone>)
    ensures |r| == (ArmCount - 1) * n
  {
    if n == 0 then []
    else ArmBones(b0, n - 1) + LinearBones(b0 + ArmStart(n), ArmCount - 1, Some(b0 + SubBaseIndex(n)), Distance, Distance)
  }

  /** The arrays of arms 1 to `n`, the root's constraint being `a0`: arm i's ArmCount - 1 arrays each hold constraint `a0` + i. */
  function ArmLists(a0: nat, n: nat): (r: seq<seq<Option<nat>>>)
    ensures |r| == (ArmCount - 1) * n
  {
    if n == 0 then [] else ArmLists(a0, n - 1) + Repeat([Some(a0 + n)], ArmCount - 1)
  }

  /**
   * Bone j of arm i among the arms' bones: the first at offset Distance on
   * root bone SubBaseIndex(i), every later one at offset Distance on the bone
   * before it.
   */
  lemma {:induction false} ArmBonesAt(b0: nat, n: nat, i: nat, j: nat)
    requires 1 <= i <= n && j < ArmCount - 1
    ensures ArmBones(b0, n)[(ArmCount - 1) * (i - 1) + j]
      == if j == 0 then Bone(Distance, Some(b0 + SubBaseIndex(i))) else Bone(Distance, Some(b0 + ArmStart(i) + j - 1))
  {
    if i < n {
      ArmBonesAt(b0, n - 1, i, j);
      assert ArmBones(b0, n)[(ArmCount - 1) * (i - 1) + j] == ArmBones(b0, n - 1)[(ArmCount - 1) * (i - 1) + j];
    } else {
      var arm := LinearBones(b0 + ArmStart(n), ArmCount - 1, Some(b0 + SubBaseIndex(n)), Distance, Distance);
      assert ArmBones(b0, n)[(ArmCount - 1) * (i - 1) + j] == arm[j];
    }
  }

  /** Array j of arm i among the arms' arrays holds just arm i's constraint, `a0` + i. */
  lemma {:induction false} ArmListsAtArm(a0: nat, n: nat, i: nat, j: nat)
    requires 1 <= i <= n && j < ArmCount - 1
    ensures ArmLists(a0, n)[(ArmCount - 1) * (i - 1) + j] == [Some(a0 + i)]
  {
    if i < n {
      ArmListsAtArm(a0, n - 1, i, j);
      assert ArmLists(a0, n)[(ArmCount - 1) * (i - 1) + j] == ArmLists(a0, n - 1)[(ArmCount - 1) * (i - 1) + j];
    } else {
      assert ArmLists(a0, n)[(ArmCount - 1) * (i - 1) + j] == Repeat<seq<Option<nat>>>([Some(a0 + n)], ArmCount - 1)[j];
    }
  }

  /** The targets of arms 1 to `n`, in order. */
  function ArmTargets(n: nat): (r: seq<Target>)
    ensures |r| == n
  {
    seq(n, k requires 0 <= k => Target(ArmTarget(k + 1), None))
  }

  /** The gizmos createTarget records for targets `t0` .. `t0` + n - 1, in order. */
  function ArmGizmos(t0: nat, n: nat): (r: seq<Gizmo>)
    ensures |r| == n
  {
    seq(n, k requires 0 <= k => Gizmo(t0 + k, 0.5))
  }

  /**
   * Arm i, the root's first joint being `j0` and the first arm target `t0`:
   * the shared root joint, then its ArmCount - 1 fresh joints, the last of
   * them the effector following target `t0` + i - 1.
   */
  function ArmChain(j0: nat, t0: nat, i: nat): Chain
    requires i >= 1
  {
    Chain([j0 + SubBaseIndex(i)] + Handles(j0 + ArmStart(i), ArmCount - 1),
          Some(j0 + ArmStart(i) + ArmCount - 2), Some(t0 + i - 1), [])
  }

  function ArmChains(j0: nat, t0: nat, n: nat): (r: seq<Chain>)
    ensures |r| == n
  {
    seq(n, k requires 0 <= k => ArmChain(j0, t0, k + 1))
  }

  /** The root chain's connected-chain entries after arms 1 to `n` (chains `c0` + 1 ..) were connected. */
  function Entries(c0: nat, n: nat): (r: seq<SubChains>)
  {
    if n == 0 then [] else Register(Entries(c0, n - 1), SubBaseIndex(n), c0 + n)
  }

  /** The root chain after arms 1 to `n` were connected: RootCount joints from `j0`, no target. */
  function RootChain(j0: nat, c0: nat, n: nat): Chain
  {
    Chain(Handles(j0, RootCount), None, None, Entries(c0, n))
  }

  /** Arms 1 to `k` (k <= 4) all hang at the root's joint 7, in one entry. */
  lemma {:induction false} EntriesFirstHalf(c0: nat, k: nat)
    requires 1 <= k <= 4
    ensures Entries(c0, k) == [SubChains(7, Handles(c0 + 1, k))]
  {
    if k > 1 {
      EntriesFirstHalf(c0, k - 1);
      HandlesSnoc(c0 + 1, k - 1, c0 + k, k);
      RegisterOnly(SubChains(7, Handles(c0 + 1, k - 1)), c0 + k);
    } else {
      assert Handles(c0 + 1, 1) == [c0 + 1];
      assert Entries(c0, 1) == Register([], 7, c0 + 1);
    }
  }

  /** Arms 5 to `k` (k <= 8) hang at the root's joint 15, in a second entry. */
  lemma {:induction false} EntriesSecondHalf(c0: nat, k: nat)
    requires 5 <= k <= 8
    ensures Entries(c0, k) == [SubChains(7, Handles(c0 + 1, 4)), SubChains(15, Handles(c0 + 5, k - 4))]
  {
    var first := SubChains(7, Handles(c0 + 1, 4));
    if k == 5 {
      EntriesFirstHalf(c0, 4);
      assert Entries(c0, 5) == Register([first], 15, c0 + 5);
      RegisterNew(first, 15, c0 + 5);
      assert Handles(c0 + 5, 1) == [c0 + 5];
    } else {
      var prev := SubChains(15, Handles(c0 + 5, k - 5));
      EntriesSecondHalf(c0, k - 1);
      assert Entries(c0, k) == Register([first, prev], 15, c0 + k);
      HandlesSnoc(c0 + 5, k - 5, c0 + k, k - 4);
      assert prev.(chains := prev.chains + [c0 + k]) == SubChains(15, Handles(c0 + 5, k - 4));
      RegisterSecond(first, prev, c0 + k);
    }
  }

  /** Connecting at the index of a one-entry Map extends that entry. */
  lemma {:induction false} RegisterOnly(a: SubChains, chain: nat)
    ensures Register([a], a.index, chain) == [a.(chains := a.chains + [chain])]
  {
    assert [a][1..] == [];
  }

  /** Connecting at a new index appends an entry. */
  lemma {:induction false} RegisterNew(a: SubChains, index: nat, chain: nat)
    requires a.index != index
    ensures Register([a], index, chain) == [a, SubChains(index, [chain])]
  {
    assert [a][1..] == [];
  }

  /** Connecting at the second entry's index of a two-entry Map extends that entry. */
  lemma {:induction false} RegisterSecond(a: SubChains, b: SubChains, chain: nat)
    requires a.index != b.index
    ensures Register([a, b], b.index, chain) == [a, b.(chains := b.chains + [chain])]
  {
    assert [a, b][1..] == [b];
    RegisterOnly(b, chain);
  }

  /**
   * All eight arms connected: two entries, at the root's joints 7 and 15,
   * holding arms 1 to 4 and arms 5 to 8 in the order they were connected.
   */
  lemma {:induction false} EntriesAfterSetup(c0: nat)
    ensures Entries(c0, Arms) == [SubChains(7, Handles(c0 + 1, 4)), SubChains(15, Handles(c0 + 5, 4))]
  {
    EntriesSecondHalf(c0, 8);
  }

  /** How many of arms 1 to `n` start on root joint `p`. */
  function ArmsAt(p: nat, n: nat): nat
  {
    if n == 0 then 0 else ArmsAt(p, n - 1) + (if SubBaseIndex(n) == p then 1 else 0)
  }

  /** No bone of a forest is a child of a bone not yet created. */
  lemma {:induction false} NoChildrenYet(bones: seq<Bone>, p: nat)
    requires ParentsBefore(bones) && p >= |bones|
    ensures ChildCount(bones, p) == 0
  {
    ChildCountExactly(bones, p, {});
  }

  /** In the root chain's bones, root bone `p` has bone `p` + 1 as its one child, except the last. */
  lemma {:induction false} RootBoneChildren(b0: nat, p: nat)
    requires p < RootCount
    ensures ChildCount(LinearBones(b0, RootCount, None, 0.0, Distance), b0 + p) == if p + 1 < RootCount then 1 else 0
  {
    var at: set<nat> := if p + 1 < RootCount then {p + 1} else {};
    LinearBonesShape(b0, RootCount, None, 0.0, Distance);
    ChildCountExactly(LinearBones(b0, RootCount, None, 0.0, Distance), b0 + p, at);
  }

  /** Arm n's bones: only its first is a child of a root bone, of root bone SubBaseIndex(n). */
  lemma {:induction false} ArmChildren(b0: nat, n: nat, p: nat)
    requires n >= 1 && p < RootCount
    ensures ChildCount(LinearBones(b0 + ArmStart(n), ArmCount - 1, Some(b0 + SubBaseIndex(n)), Distance, Distance), b0 + p)
      == if SubBaseIndex(n) == p then 1 else 0
  {
    var start := ArmStart(n);
    assert start >= RootCount;
    var arm := LinearBones(b0 + start, ArmCount - 1, Some(b0 + SubBaseIndex(n)), Distance, Distance);
    var at: set<nat> := if SubBaseIndex(n) == p then {0} else {};
    LinearBonesShape(b0 + start, ArmCount - 1, Some(b0 + SubBaseIndex(n)), Distance, Distance);
    forall k | 0 <= k < |arm| ensures arm[k].parent == Some(b0 + p) <==> k in at {
      if k > 0 {
        assert arm[k].parent == Some(b0 + start + k - 1);
      }
    }
    ChildCountExactly(arm, b0 + p, at);
  }

  /** Among the bones of arms 1 to `n`, the children of root bone `p` are the arms' first bones that start there. */
  lemma {:induction false} ArmBoneChildren(b0: nat, n: nat, p: nat)
    requires p < RootCount
    ensures ChildCount(ArmBones(b0, n), b0 + p) == ArmsAt(p, n)
  {
    if n > 0 {
      var arm := LinearBones(b0 + ArmStart(n), ArmCount - 1, Some(b0 + SubBaseIndex(n)), Distance, Distance);
      ArmBoneChildren(b0, n - 1, p);
      ChildCountAppend(ArmBones(b0, n - 1), arm, b0 + p);
      ArmChildren(b0, n, p);
    }
  }

  /** Arms keep parents before children: each arm's first bone hangs on a root bone. */
  lemma {:induction false} ArmBonesKeepOrder(prefix: seq<Bone>, n: nat)
    requires ParentsBefore(prefix + LinearBones(|prefix|, RootCount, None, 0.0, Distance))
    ensures ParentsBefore(prefix + LinearBones(|prefix|, RootCount, None, 0.0, Distance) + ArmBones(|prefix|, n))
  {
    var b0 := |prefix|;
    var base := prefix + LinearBones(b0, RootCount, None, 0.0, Distance);
    if n == 0 {
      assert base + ArmBones(b0, 0) == base;
    } else {
      ArmBonesKeepOrder(prefix, n - 1);
      var before := base + ArmBones(b0, n - 1);
      assert |before| == b0 + ArmStart(n);
      LinearBonesKeepOrder(before, ArmCount - 1, Some(b0 + SubBaseIndex(n)), Distance, Distance);
      assert base + ArmBones(b0, n) == before + LinearBones(b0 + ArmStart(n), ArmCount - 1, Some(b0 + SubBaseIndex(n)), Distance, Distance);
    }
  }

  lemma {:induction false} ArmsAtEnd()
    ensures ArmsAt(7, Arms) == 4 && ArmsAt(15, Arms) == 4
  {
    assert ArmsAt(7, 4) == 4 && ArmsAt(15, 4) == 0;
  }

  /** A root bone's children once arms 1 to `n` are built: the next root bone, if any, and the arms starting on it. */
  lemma {:induction false} SetupRootBoneChildren(prefix: seq<Bone>, n: nat, p: nat)
    requires ParentsBefore(prefix) && p < RootCount
    ensures ChildCount(prefix + LinearBones(|prefix|, RootCount, None, 0.0, Distance) + ArmBones(|prefix|, n), |prefix| + p)
      == ArmsAt(p, n) + (if p + 1 < RootCount then 1 else 0)
  {
    var root := LinearBones(|prefix|, RootCount, None, 0.0, Distance);
    RootBonesOnForest(prefix, p);
    ArmBonesOnTop(prefix + root, |prefix|, n, p);
  }

  /** On top of a forest, root bone `p` has the children RootBoneChildren counts. */
  lemma {:induction false} RootBonesOnForest(prefix: seq<Bone>, p: nat)
    requires ParentsBefore(prefix) && p < RootCount
    ensures ChildCount(prefix + LinearBones(|prefix|, RootCount, None, 0.0, Distance), |prefix| + p) == (if p + 1 < RootCount then 1 else 0)
  {
    var b0 := |prefix|;
    NoChildrenYet(prefix, b0 + p);
    RootBoneChildren(b0, p);
    ChildCountAppend(prefix, LinearBones(b0, RootCount, None, 0.0, Distance), b0 + p);
  }

  /** Appending the arms adds ArmsAt(p, n) children to root bone `p`. */
  lemma {:induction false} ArmBonesOnTop(x: seq<Bone>, b0: nat, n: nat, p: nat)
    requires p < RootCount
    ensures ChildCount(x + ArmBones(b0, n), b0 + p) == ChildCount(x, b0 + p) + ArmsAt(p, n)
  {
    ArmBoneChildren(b0, n, p);
    ChildCountAppend(x, ArmBones(b0, n), b0 + p);
  }

  /**
   * The bones setupIK leaves, on top of a forest `prefix`: still a forest,
   * root bone 7 with five children (root bone 8 and the first bones of arms
   * 1 to 4) and the last root bone with four (the first bones of arms 5 to 8).
   */
  lemma {:induction false} SetupBoneChildren(prefix: seq<Bone>, n: nat)
    requires ParentsBefore(prefix) && n == Arms
    ensures var all := prefix + LinearBones(|prefix|, RootCount, None, 0.0, Distance) + ArmBones(|prefix|, n);
      && ParentsBefore(all)
      && ChildCount(all, |prefix| + 7) == 5
      && ChildCount(all, |prefix| + 15) == 4
  {
    LinearBonesKeepOrder(prefix, RootCount, None, 0.0, Distance);
    ArmBonesKeepOrder(prefix, n);
    ArmsAtEnd();
    SetupRootBoneChildren(prefix, n, 7);
    SetupRootBoneChildren(prefix, n, 15);
  }

  // One more pass of the setup loop, field by field: `X` is the field after
  // the passes before, and the result is what the pass appends to it.

  lemma {:induction false} ArmBonesStep(P: seq<Bone>, b0: nat, n: nat, X: seq<Bone>, bone: nat)
    requires X == P + ArmBones(b0, n) && |P| == b0 + RootCount && bone == b0 + SubBaseIndex(n + 1)
    ensures X + LinearBones(|X|, ArmCount - 1, Some(bone), Distance, Distance) == P + ArmBones(b0, n + 1)
  {
    var arm := LinearBones(|X|, ArmCount - 1, Some(bone), Distance, Distance);
    assert |X| == b0 + ArmStart(n + 1);
    assert P + ArmBones(b0, n) + arm == P + (ArmBones(b0, n) + arm);
  }

  lemma {:induction false} ArmListsStep(P: seq<seq<Option<nat>>>, a0: nat, n: nat, X: seq<seq<Option<nat>>>, c: nat)
    requires X == P + ArmLists(a0, n) && c == a0 + n + 1
    ensures X + Repeat([Some(c)], ArmCount - 1) == P + ArmLists(a0, n + 1)
  {
    var arm := Repeat([Some(c)], ArmCount - 1);
    assert P + ArmLists(a0, n) + arm == P + (ArmLists(a0, n) + arm);
  }

  lemma {:induction false} RepeatStep<T>(P: seq<T>, x: T, n: nat, X: seq<T>)
    requires X == P + Repeat(x, n)
    ensures X + [x] == P + Repeat(x, n + 1)
  {
    assert P + Repeat(x, n) + [x] == P + (Repeat(x, n) + [x]);
  }

  lemma {:induction false} JointsStep(P: seq<Joint>, b0: nat, l0: nat, n: nat, X: seq<Joint>, b: nat, l: nat)
    requires X == P + OwnJoints(b0, l0, RootCount + (ArmCount - 1) * n)
    requires b == b0 + RootCount + (ArmCount - 1) * n && l == l0 + RootCount + (ArmCount - 1) * n
    ensures X + OwnJoints(b, l, ArmCount - 1) == P + OwnJoints(b0, l0, RootCount + (ArmCount - 1) * (n + 1))
  {
    var m := RootCount + (ArmCount - 1) * n;
    OwnJointsAppend(b0, l0, m, ArmCount - 1);
    assert P + OwnJoints(b0, l0, m) + OwnJoints(b, l, ArmCount - 1) == P + (OwnJoints(b0, l0, m) + OwnJoints(b, l, ArmCount - 1));
  }

  lemma {:induction false} TargetsStep(P: seq<Target>, n: nat, X: seq<Target>)
    requires X == P + ArmTargets(n)
    ensures X + [Target(ArmTarget(n + 1), None)] == P + ArmTargets(n + 1)
  {
    assert P + ArmTargets(n) + [Target(ArmTarget(n + 1), None)] == P + (ArmTargets(n) + [Target(ArmTarget(n + 1), None)]);
  }

  lemma {:induction false} GizmosStep(P: seq<Gizmo>, t0: nat, n: nat, X: seq<Gizmo>, t: nat)
    requires X == P + ArmGizmos(t0, n) && t == t0 + n
    ensures X + [Gizmo(t, 0.5)] == P + ArmGizmos(t0, n + 1)
  {
    assert P + ArmGizmos(t0, n) + [Gizmo(t, 0.5)] == P + (ArmGizmos(t0, n) + [Gizmo(t, 0.5)]);
  }

  /** Arm n + 1 as the pass builds it, from its joints `jn` .. and its target `tn`. */
  lemma {:induction false} ArmChainAt(j0: nat, t0: nat, n: nat, jn: nat, tn: nat)
    requires jn == j0 + ArmStart(n + 1) && tn == t0 + n
    ensures Chain([j0 + SubBaseIndex(n + 1)] + Handles(jn, ArmCount - 1), Some(jn + ArmCount - 2), Some(tn), []) == ArmChain(j0, t0, n + 1)
  {
  }

  lemma {:induction false} EntriesStep(c0: nat, n: nat)
    ensures Register(Entries(c0, n), SubBaseIndex(n + 1), c0 + n + 1) == Entries(c0, n + 1)
  {
  }

  /** Replacing the element after `P` and appending `a` commute. */
  lemma {:induction false} UpdateAfterPrefix<T>(P: seq<T>, x: T, Y: seq<T>, a: T, y: T)
    ensures (P + [x] + Y + [a])[|P| := y] == P + [y] + (Y + [a])
  {
    var l, r := (P + [x] + Y + [a])[|P| := y], P + [y] + (Y + [a]);
    assert |l| == |r|;
    forall k | 0 <= k < |l| ensures l[k] == r[k] {
      if k > |P| {
        assert r[k] == (Y + [a])[k - |P| - 1];
      }
    }
  }

  /** Arm n + 1 appended, as joints `jn` .. and target `tn`, and connected to the root chain at handle |P|. */
  lemma {:induction false} ChainsStep(P: seq<Chain>, j0: nat, t0: nat, n: nat, X: seq<Chain>, jn: nat, tn: nat, root: nat, arm: nat)
    requires X == P + [RootChain(j0, |P|, n)] + ArmChains(j0, t0, n)
    requires jn == j0 + ArmStart(n + 1) && tn == t0 + n && root == |P| && arm == |X|
    ensures (X + [Chain([j0 + SubBaseIndex(n + 1)] + Handles(jn, ArmCount - 1), Some(jn + ArmCount - 2), Some(tn), [])])
        [root := X[root].(subChains := Register(X[root].subChains, SubBaseIndex(n + 1), arm))]
      == P + [RootChain(j0, |P|, n + 1)] + ArmChains(j0, t0, n + 1)
  {
    var c0 := |P|;
    ArmChainAt(j0, t0, n, jn, tn);
    assert X[c0] == RootChain(j0, c0, n) && |X| == c0 + n + 1;
    EntriesStep(c0, n);
    UpdateAfterPrefix(P, RootChain(j0, c0, n), ArmChains(j0, t0, n), ArmChain(j0, t0, n + 1), RootChain(j0, c0, n + 1));
  }
}
