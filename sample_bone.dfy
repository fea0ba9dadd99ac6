/**
 * The SampleBone demo: a cylinder skinned to a straight skeleton of
 * segmentCount + 1 bones, centred so that the skeleton spans -halfHeight to
 * +halfHeight.
 */
module SampleBone {
  import opened SceneGraph
  import opened Skeleton

  /** The `sizing` object passed to createGeometry and createBones. */
  datatype Sizing = Sizing(segmentHeight: real, segmentCount: nat, height: real, halfHeight: real)

  const SegmentHeight: real := 8.0
  const SegmentCount: nat := 4
  const Height: real := SegmentHeight * (SegmentCount as real)
  const HalfHeight: real := Height * 0.5

  /** The sizing fields agree with each other as the module constants define them. */
  predicate Consistent(s: Sizing)
  {
    s.height == s.segmentHeight * (s.segmentCount as real) && s.halfHeight == s.height * 0.5
  }

  /** The module's `sizing` object. */
  function DefaultSizing(): (s: Sizing)
    ensures Consistent(s)
    ensures s.segmentHeight == 8.0 && s.segmentCount == 4
    ensures s.height == 32.0 && s.halfHeight == 16.0
  {
    Sizing(SegmentHeight, SegmentCount, Height, HalfHeight)
  }

  /**
   * createBones: a fresh first bone at y = -halfHeight, then segmentCount
   * fresh bones at y = segmentHeight, each added to the one before it. The
   * first bone gets no parent here.
   */
  method CreateBones(w: World, sizing: Sizing) returns (bones: seq<nat>)
    modifies w`bones
    ensures |bones| == sizing.segmentCount + 1
    ensures forall k :: 0 <= k < |bones| ==> bones[k] == |old(w.bones)| + k
    ensures w.bones == old(w.bones) + LinearBones(|old(w.bones)|, sizing.segmentCount + 1, None, -sizing.halfHeight, sizing.segmentHeight)
  {
    ghost var h := |w.bones|;
    var prevBone := w.NewBone(-sizing.halfHeight);
    bones := [prevBone];
    for i := 0 to sizing.segmentCount
      invariant |bones| == i + 1 && prevBone == h + i
      invariant forall k :: 0 <= k < |bones| ==> bones[k] == h + k
      invariant w.bones == old(w.bones) + LinearBones(h, i + 1, None, -sizing.halfHeight, sizing.segmentHeight)
    {
      var bone := w.NewBone(sizing.segmentHeight);
      bones := bones + [bone];
      w.AddBone(prevBone, bone);
      prevBone := bone;
    }
  }

  /**
   * The bones createBones makes sit at -halfHeight + k * segmentHeight in the
   * frame of the first bone.
   */
  lemma {:induction false} CreatedBonesHeights(prefix: seq<Bone>, sizing: Sizing)
    requires ParentsBefore(prefix)
    ensures var all := prefix + LinearBones(|prefix|, sizing.segmentCount + 1, None, -sizing.halfHeight, sizing.segmentHeight);
      && ParentsBefore(all)
      && (forall b :: |prefix| <= b < |all| ==>
           RootY(all, b) == -sizing.halfHeight + ((b - |prefix|) as real) * sizing.segmentHeight)
  {
    var n := sizing.segmentCount + 1;
    var all := prefix + LinearBones(|prefix|, n, None, -sizing.halfHeight, sizing.segmentHeight);
    LinearBonesKeepOrder(prefix, n, None, -sizing.halfHeight, sizing.segmentHeight);
    forall b | |prefix| <= b < |all|
      ensures RootY(all, b) == -sizing.halfHeight + ((b - |prefix|) as real) * sizing.segmentHeight
    {
      LinearRootY(prefix, n, -sizing.halfHeight, sizing.segmentHeight, b - |prefix|);
    }
  }

  /** With consistent sizing the last bone createBones makes sits at +halfHeight. */
  lemma {:induction false} CreatedBonesSpan(prefix: seq<Bone>, sizing: Sizing)
    requires Consistent(sizing) && ParentsBefore(prefix)
    ensures var all := prefix + LinearBones(|prefix|, sizing.segmentCount + 1, None, -sizing.halfHeight, sizing.segmentHeight);
      && ParentsBefore(all)
      && RootY(all, |all| - 1) == sizing.halfHeight
  {
    CreatedBonesHeights(prefix, sizing);
    HalfSpan(sizing);
  }

  lemma {:induction false} HalfSpan(s: Sizing)
    requires Consistent(s)
    ensures -s.halfHeight + (s.segmentCount as real) * s.segmentHeight == s.halfHeight
  {
  }

  /** With the module's sizing: five bones, from y = -16 up to y = +16. */
  lemma {:induction false} DefaultBonesSpan(prefix: seq<Bone>)
    requires ParentsBefore(prefix)
    ensures var all := prefix + LinearBones(|prefix|, SegmentCount + 1, None, -HalfHeight, SegmentHeight);
      && |all| == |prefix| + 5
      && ParentsBefore(all)
      && RootY(all, |prefix|) == -16.0
      && RootY(all, |prefix| + 4) == 16.0
  {
    var s := DefaultSizing();
    CreatedBonesSpan(prefix, s);
    var all := prefix + LinearBones(|prefix|, SegmentCount + 1, None, -HalfHeight, SegmentHeight);
    LinearBonesShape(|prefix|, SegmentCount + 1, None, -HalfHeight, SegmentHeight);
    assert RootY(all, |prefix|) == -16.0 + (0 as real) * 8.0;
  }
}
