/**
 * Specification functions over the bone arena: the straight chains the demos
 * build, the number of children a bone ends up with, and a bone's height in
 * the frame of the root of its chain.
 */
module Skeleton {
  import opened SceneGraph

  /**
   * The bones a straight chain of `n` fresh bones leaves in the arena when its
   * first bone gets handle `h`: the first bone added to `base` (if any) at
   * offset `first`, the others at offset `step`, each a child of the one
   * before it.
   */
  function LinearBones(h: nat, n: nat, base: Option<nat>, first: real, step: real): (r: seq<Bone>)
    ensures |r| == n
  {
    seq(n, k requires 0 <= k => if k == 0 then Bone(first, base) else Bone(step, Some(h + k - 1)))
  }

  /** The k-th bone of a straight chain: offset `first` on `base` for the first, offset `step` on bone `h` + k - 1 for the others. */
  lemma {:induction false} LinearBonesShape(h: nat, n: nat, base: Option<nat>, first: real, step: real)
    ensures var r := LinearBones(h, n, base, first, step);
      && (forall k :: 0 <= k < n ==> r[k].y == (if k == 0 then first else step))
      && (n > 0 ==> r[0].parent == base)
      && (forall k :: 0 < k < n ==> r[k].parent == Some(h + k - 1))
  {
  }

  /** One more bone of a straight chain: at offset `first` on `base` when it is the first, else at `step` on the one before. */
  lemma {:induction false} LinearBonesSnoc(h: nat, i: nat, base: Option<nat>, first: real, step: real)
    ensures LinearBones(h, i + 1, base, first, step)
      == LinearBones(h, i, base, first, step) + [Bone(if i == 0 then first else step, if i == 0 then base else Some(h + i - 1))]
  {
  }

  /** Every bone's parent, if any, has a smaller handle (no cycles). */
  predicate ParentsBefore(bones: seq<Bone>)
  {
    forall b :: 0 <= b < |bones| && bones[b].parent.Some? ==> bones[b].parent.value < b
  }

  /** The y of bone `b` in the frame of the root of its chain: the sum of the offsets up to that root. */
  function RootY(bones: seq<Bone>, b: nat): real
    requires ParentsBefore(bones) && b < |bones|
    decreases b
  {
    match bones[b].parent
    case None => bones[b].y
    case Some(p) => RootY(bones, p) + bones[b].y
  }

  /** How many bones of the arena have `p` as their parent. */
  function ChildCount(bones: seq<Bone>, p: nat): (r: nat)
    ensures r <= |bones|
  {
    if bones == [] then 0
    else ChildCount(bones[..|bones| - 1], p) + (if bones[|bones| - 1].parent == Some(p) then 1 else 0)
  }

  lemma {:induction false} ChildCountAppend(a: seq<Bone>, b: seq<Bone>, p: nat)
    ensures ChildCount(a + b, p) == ChildCount(a, p) + ChildCount(b, p)
    decreases |b|
  {
    if b == [] {
      assert a + b == a;
    } else {
      var b' := b[..|b| - 1];
      assert (a + b)[..|a + b| - 1] == a + b';
      ChildCountAppend(a, b', p);
    }
  }

  /** A run of bones of which exactly those at the listed positions are children of `p`. */
  lemma {:induction false} ChildCountExactly(bones: seq<Bone>, p: nat, at: set<nat>)
    requires forall k :: 0 <= k < |bones| ==> (bones[k].parent == Some(p) <==> k in at)
    requires forall k :: k in at ==> k < |bones|
    ensures ChildCount(bones, p) == |at|
    decreases |bones|
  {
    if bones != [] {
      var n := |bones| - 1;
      var rest := at - {n};
      ChildCountExactly(bones[..n], p, rest);
      if n in at {
        assert at == rest + {n};
      } else {
        assert at == rest;
      }
    } else {
      assert at == {};
    }
  }

  /** Appending a straight chain keeps parents before children. */
  lemma {:induction false} LinearBonesKeepOrder(prefix: seq<Bone>, n: nat, base: Option<nat>, first: real, step: real)
    requires ParentsBefore(prefix) && (base.Some? ==> base.value < |prefix|)
    ensures ParentsBefore(prefix + LinearBones(|prefix|, n, base, first, step))
  {
    var all := prefix + LinearBones(|prefix|, n, base, first, step);
    LinearBonesShape(|prefix|, n, base, first, step);
    forall b | 0 <= b < |all| && all[b].parent.Some?
      ensures all[b].parent.value < b
    {
      if b >= |prefix| {
        assert all[b] == LinearBones(|prefix|, n, base, first, step)[b - |prefix|];
      }
    }
  }

  /**
   * In a straight chain appended to the arena, the k-th bone sits at
   * first + k * step in the frame of the chain's first bone.
   */
  lemma {:induction false} LinearRootY(prefix: seq<Bone>, n: nat, first: real, step: real, k: nat)
    requires ParentsBefore(prefix + LinearBones(|prefix|, n, None, first, step))
    requires k < n
    ensures RootY(prefix + LinearBones(|prefix|, n, None, first, step), |prefix| + k) == first + (k as real) * step
  {
    var all := prefix + LinearBones(|prefix|, n, None, first, step);
    LinearBonesShape(|prefix|, n, None, first, step);
    assert all[|prefix| + k] == LinearBones(|prefix|, n, None, first, step)[k];
    if k > 0 {
      LinearRootY(prefix, n, first, step, k - 1);
      assert ((k - 1) as real) * step + step == (k as real) * step;
    }
  }

  /** `n` fresh joints on the bones from handle `b`, all holding the one constraints array `l`. */
  function SharedJoints(b: nat, n: nat, l: nat): (r: seq<Joint>)
    ensures |r| == n
  {
    seq(n, k requires 0 <= k => Joint(b + k, l))
  }

  /** The handles `h`, `h` + 1, ..., `h` + n - 1, in order. */
  function Handles(h: nat, n: nat): (r: seq<nat>)
    ensures |r| == n
  {
    seq(n, k requires 0 <= k => h + k)
  }

  lemma {:induction false} HandlesSnoc(h: nat, n: nat, x: nat, m: nat)
    requires x == h + n && m == n + 1
    ensures Handles(h, n) + [x] == Handles(h, m)
  {
    var s, t := Handles(h, n) + [x], Handles(h, m);
    forall k | 0 <= k < |s| ensures s[k] == t[k] {
      if k < n {
        assert s[k] == Handles(h, n)[k];
      }
    }
  }

  /** Handle `h` + k sits at index k of Handles(h, n). */
  lemma {:induction false} IndexOfHandles(h: nat, n: nat, k: nat)
    requires k < n
    ensures IndexOf(Handles(h, n), h + k) == k
  {
    var s := Handles(h, n);
    assert s[k] == h + k;
  }

  /**
   * `c` after the first `i` of `n` joints from handle `j` were added in order,
   * the last of them (when added) with target `t`, if any.
   */
  function AddedInOrder(c: Chain, j: nat, i: nat, n: nat, t: Option<nat>): Chain
  {
    if i == n && n > 0 && t.Some? then c.(joints := c.joints + Handles(j, i), effector := Some(j + n - 1), target := t)
    else c.(joints := c.joints + Handles(j, i))
  }

  /** Adding joint `j` + i, with the target when it is the last, takes the first `i` joints added to the first `i` + 1. */
  lemma {:induction false} AddedInOrderStep(c: Chain, j: nat, i: nat, n: nat, t: Option<nat>)
    requires i < n
    ensures Added(AddedInOrder(c, j, i, n, t), j + i, if i == n - 1 then t else None) == AddedInOrder(c, j, i + 1, n, t)
  {
    assert c.joints + Handles(j, i) + [j + i] == c.joints + Handles(j, i + 1);
  }

  /**
   * One step of the demos' chain-building loops: a fresh bone at offset `y`,
   * added to bone `prev` when there is one, wrapped in a fresh joint holding
   * constraints array `list`, and added to `chain` with `target`.
   */
  method AppendJoint(w: World, prev: Option<nat>, y: real, list: nat, chain: nat, target: Option<nat>)
    returns (bone: nat, joint: nat)
    requires chain < |w.chains| && (prev.Some? ==> prev.value < |w.bones|)
    modifies w`bones, w`joints, w`chains
    ensures bone == |old(w.bones)| && w.bones == old(w.bones) + [Bone(y, prev)]
    ensures joint == |old(w.joints)| && w.joints == old(w.joints) + [Joint(bone, list)]
    ensures w.chains == old(w.chains)[chain := Added(old(w.chains)[chain], joint, target)]
  {
    bone := w.NewBone(y);
    if prev.Some? {
      w.AddBone(prev.value, bone);
    }
    joint := w.NewJoint(bone, list);
    w.ChainAdd(chain, joint, target);
  }

  /**
   * The loop shared by Simple.createBonesAndChain and SimpleMesh.createBones:
   * `n` joints on fresh bones, bone i a child of bone i - 1, every joint
   * holding the one constraints array `list`, appended to `chain` in order,
   * and only the last one with `target`.
   */
  method AppendStraightJoints(w: World, chain: nat, n: nat, list: nat, target: nat)
    requires chain < |w.chains|
    modifies w`bones, w`joints, w`chains
    ensures w.bones == old(w.bones) + LinearBones(|old(w.bones)|, n, None, 0.0, 0.5)
    ensures w.joints == old(w.joints) + SharedJoints(|old(w.bones)|, n, list)
    ensures w.chains == old(w.chains)[chain := AddedInOrder(old(w.chains)[chain], |old(w.joints)|, n, n, Some(target))]
  {
    ghost var b0, j0 := |w.bones|, |w.joints|;
    ghost var B, J, C := w.bones, w.joints, w.chains;
    var prev := None;
    assert C[chain].joints + Handles(j0, 0) == C[chain].joints;
    assert C == C[chain := AddedInOrder(C[chain], j0, 0, n, Some(target))];
    for i := 0 to n
      invariant prev == (if i == 0 then None else Some(b0 + i - 1))
      invariant w.bones == B + LinearBones(b0, i, None, 0.0, 0.5)
      invariant w.joints == J + SharedJoints(b0, i, list)
      invariant w.chains == C[chain := AddedInOrder(C[chain], j0, i, n, Some(target))]
    {
      var t := if i == n - 1 then Some(target) else None;
      var bone, joint := AppendJoint(w, prev, if i == 0 then 0.0 else 0.5, list, chain, t);
      AddedInOrderStep(C[chain], j0, i, n, Some(target));
      prev := Some(bone);
    }
  }

  /** `n` copies of `x`. */
  function Repeat<T>(x: T, n: nat): (r: seq<T>)
    ensures |r| == n
  {
    seq(n, _ => x)
  }

  /** `n` fresh joints, the k-th on bone `b` + k and holding its own array `l` + k. */
  function OwnJoints(b: nat, l: nat, n: nat): (r: seq<Joint>)
    ensures |r| == n
  {
    seq(n, k requires 0 <= k => Joint(b + k, l + k))
  }

  lemma {:induction false} OwnJointsAppend(b: nat, l: nat, m: nat, n: nat)
    ensures OwnJoints(b, l, m) + OwnJoints(b + m, l + m, n) == OwnJoints(b, l, m + n)
  {
    var x, y := OwnJoints(b, l, m) + OwnJoints(b + m, l + m, n), OwnJoints(b, l, m + n);
    forall k | 0 <= k < m + n ensures x[k] == y[k] {
      if k >= m { assert x[k] == OwnJoints(b + m, l + m, n)[k - m]; }
    }
  }

  /** The arenas after one more pass of setupIK's inner loop, as AppendOwnJoints states them. */
  lemma {:induction false} OwnJointsStep(B: seq<Bone>, L: seq<seq<Option<nat>>>, J: seq<Joint>, j: nat,
                      base: Option<nat>, first: real, step: real, constraint: nat)
    ensures B + LinearBones(|B|, j, base, first, step) + [Bone(if j == 0 then first else step, if j == 0 then base else Some(|B| + j - 1))]
      == B + LinearBones(|B|, j + 1, base, first, step)
    ensures L + Repeat([Some(constraint)], j) + [[Some(constraint)]] == L + Repeat([Some(constraint)], j + 1)
    ensures J + OwnJoints(|B|, |L|, j) + [Joint(|B| + j, |L| + j)] == J + OwnJoints(|B|, |L|, j + 1)
  {
    LinearBonesSnoc(|B|, j, base, first, step);
  }

  /** One pass of setupIK's inner loop for a fresh joint: bone, parent link, array `[constraint]`, joint, chain.add. */
  method AppendOwnJoint(w: World, prev: Option<nat>, y: real, constraint: nat, chain: nat, target: Option<nat>)
    returns (bone: nat, list: nat, joint: nat)
    requires chain < |w.chains| && (prev.Some? ==> prev.value < |w.bones|)
    modifies w`bones, w`lists, w`joints, w`chains
    ensures bone == |old(w.bones)| && w.bones == old(w.bones) + [Bone(y, prev)]
    ensures list == |old(w.lists)| && w.lists == old(w.lists) + [[Some(constraint)]]
    ensures joint == |old(w.joints)| && w.joints == old(w.joints) + [Joint(bone, list)]
    ensures w.chains == old(w.chains)[chain := Added(old(w.chains)[chain], joint, target)]
  {
    bone := w.NewBone(y);
    if prev.Some? {
      w.AddBone(prev.value, bone);
    }
    list := w.NewList([Some(constraint)]);
    joint := w.NewJoint(bone, list);
    w.ChainAdd(chain, joint, target);
  }

  /**
   * The inner loop of setupIK from the first fresh joint on: `n` joints on
   * fresh bones, the first added to `base` (if any) at offset `first`, the
   * others at offset `step`, each added to the one before it; every joint gets
   * its own fresh array `[constraint]`; all go to `chain` in order, the last
   * one with `target`.
   */
  method AppendOwnJoints(w: World, chain: nat, n: nat, base: Option<nat>, first: real, step: real, constraint: nat, target: Option<nat>)
    requires chain < |w.chains| && (base.Some? ==> base.value < |w.bones|)
    modifies w`bones, w`lists, w`joints, w`chains
    ensures w.bones == old(w.bones) + LinearBones(|old(w.bones)|, n, base, first, step)
    ensures w.lists == old(w.lists) + Repeat([Some(constraint)], n)
    ensures w.joints == old(w.joints) + OwnJoints(|old(w.bones)|, |old(w.lists)|, n)
    ensures w.chains == old(w.chains)[chain := AddedInOrder(old(w.chains)[chain], |old(w.joints)|, n, n, target)]
  {
    ghost var b0, l0, j0 := |w.bones|, |w.lists|, |w.joints|;
    ghost var B, L, J, C := w.bones, w.lists, w.joints, w.chains;
    var prev := base;
    assert C[chain].joints + Handles(j0, 0) == C[chain].joints;
    assert C == C[chain := AddedInOrder(C[chain], j0, 0, n, target)];
    for j := 0 to n
      invariant prev == (if j == 0 then base else Some(b0 + j - 1))
      invariant w.bones == B + LinearBones(b0, j, base, first, step)
      invariant w.lists == L + Repeat([Some(constraint)], j)
      invariant w.joints == J + OwnJoints(b0, l0, j)
      invariant w.chains == C[chain := AddedInOrder(C[chain], j0, j, n, target)]
    {
      var t := if j == n - 1 then target else None;
      var y := if j == 0 then first else step;
      var bone, list, joint := AppendOwnJoint(w, prev, y, constraint, chain, t);
      OwnJointsStep(B, L, J, j, base, first, step, constraint);
      AddedInOrderStep(C[chain], j0, j, n, target);
      prev := Some(bone);
    }
  }
}
