/**
 * IKApp, the base class of the MultiEffector demo: its configuration and the
 * GUI's limits on it, the `iks`, `helpers` and `gizmos` lists, target gizmos,
 * the helper settings written on every change, and the order of one
 * animation frame.
 */
module IKApp {
  import opened SceneGraph
  import opened Skeleton

  /** The two values the GUI offers for `constraintType`: 'none' and 'ball'. */
  datatype ConstraintType = NoConstraint | Ball

  datatype Config = Config(showAxes: bool, showBones: bool, wireframe: bool, color: string,
                           constraintType: ConstraintType, constraintAngle: real)

  /** A TransformControls gizmo: the object it is attached to and its size. */
  datatype Gizmo = Gizmo(target: nat, size: real)

  /** What one animation frame does, in order. */
  datatype Event = Solve(ik: nat) | UpdateGizmo(gizmo: Gizmo) | Render

  /** The values the GUI lets the user pick: an angle from 0 to 360 in steps of 1. */
  predicate GuiAllows(c: Config)
  {
    0.0 <= c.constraintAngle <= 360.0 && c.constraintAngle == c.constraintAngle.Floor as real
  }

  /** The configuration every app starts with; the GUI could have chosen it. */
  function DefaultConfig(): (c: Config)
    ensures GuiAllows(c)
    ensures c.showAxes && c.showBones && c.wireframe && c.color == "#ff0077"
    ensures c.constraintType == Ball && c.constraintAngle == 360.0
  {
    Config(true, true, true, "#ff0077", Ball, 360.0)
  }

  /** The helper settings a configuration asks for. */
  function DisplayOf(c: Config): Display
  {
    Display(c.showAxes, c.showBones, c.wireframe, c.color)
  }

  /** One new helper, showing the library's defaults, per IK of `iks`, in order. */
  function HelpersFor(iks: seq<nat>): (r: seq<Helper>)
    ensures |r| == |iks|
    ensures forall k :: 0 <= k < |iks| ==> r[k] == Helper(iks[k], None)
  {
    if iks == [] then [] else HelpersFor(iks[..|iks| - 1]) + [Helper(iks[|iks| - 1], None)]
  }

  /**
   * The helper arena after settings `d` were written, one after another, into
   * every helper listed in `handles`: exactly those helpers show `d` and keep
   * their IK, all others are as they were.
   */
  function ShowAll(hs: seq<Helper>, handles: seq<nat>, d: Display): (r: seq<Helper>)
    requires forall k :: 0 <= k < |handles| ==> handles[k] < |hs|
    ensures |r| == |hs|
    ensures forall h :: 0 <= h < |hs| ==> r[h] == if h in handles then Helper(hs[h].ik, Some(d)) else hs[h]
  {
    if handles == [] then hs
    else
      var before := ShowAll(hs, handles[..|handles| - 1], d);
      var h := handles[|handles| - 1];
      assert handles == handles[..|handles| - 1] + [h];
      before[h := Helper(before[h].ik, Some(d))]
  }

  class App {
    const world: World
    var config: Config
    var gizmos: seq<Gizmo>
    var iks: seq<nat>
    var helpers: seq<nat>
    /** What MultiEffector.onChange last applied; None while still undefined. */
    var constraintType: Option<ConstraintType>
    var constraintAngle: Option<real>

    /** Every IK and helper the app lists exists in the world. */
    predicate Valid()
      reads this, world
    {
      && (forall k :: 0 <= k < |iks| ==> iks[k] < |world.iks|)
      && (forall k :: 0 <= k < |helpers| ==> helpers[k] < |world.helpers|)
    }

    /**
     * The part of the constructor before setupIK: the default configuration
     * and empty `gizmos`, `iks` and `helpers`; nothing applied yet.
     */
    constructor (w: World)
      ensures world == w && config == DefaultConfig()
      ensures gizmos == [] && iks == [] && helpers == []
      ensures constraintType == None && constraintAngle == None
      ensures Valid()
    {
      world := w;
      config := DefaultConfig();
      gizmos, iks, helpers := [], [], [];
      constraintType, constraintAngle := None, None;
    }

    /** The constructor's loop after setupIK: one new helper per IK, in `iks` order. */
    method CreateHelpers()
      requires Valid()
      modifies this`helpers, world`helpers
      ensures Valid()
      ensures world.helpers == old(world.helpers) + HelpersFor(iks)
      ensures helpers == old(helpers) + Handles(|old(world.helpers)|, |iks|)
    {
      ghost var h0, H, L := |world.helpers|, world.helpers, helpers;
      for k := 0 to |iks|
        invariant world.helpers == H + HelpersFor(iks[..k])
        invariant helpers == L + Handles(h0, k)
        invariant Valid()
      {
        assert iks[..k + 1][..k] == iks[..k];
        var helper := world.NewHelper(iks[k]);
        helpers := helpers + [helper];
      }
      assert iks[..|iks|] == iks;
    }

    /**
     * createTarget: a new object at `position` and one new gizmo of size 0.5
     * attached to it, appended to `gizmos`; returns the object.
     */
    method CreateTarget(position: Position) returns (target: nat)
      modifies this`gizmos, world`targets
      ensures target == |old(world.targets)| && world.targets == old(world.targets) + [Target(position, None)]
      ensures gizmos == old(gizmos) + [Gizmo(target, 0.5)]
    {
      target := world.NewTarget(Vec(0.0, 0.0, 0.0));
      var gizmo := Gizmo(target, 0.5);
      world.SetPosition(target, position);
      gizmos := gizmos + [gizmo];
    }

    /** The base onChange: every listed helper shows the configured settings; the config stays as it is. */
    method OnChange()
      requires Valid()
      modifies world`helpers
      ensures Valid()
      ensures world.helpers == ShowAll(old(world.helpers), helpers, DisplayOf(config))
    {
      ghost var H := world.helpers;
      var d := DisplayOf(config);
      for k := 0 to |helpers|
        invariant |world.helpers| == |H|
        invariant world.helpers == ShowAll(H, helpers[..k], d)
      {
        assert helpers[..k + 1][..k] == helpers[..k];
        world.SetDisplay(helpers[k], d);
      }
      assert helpers[..|helpers|] == helpers;
    }

    /**
     * One animation frame: every IK is solved, in `iks` order, then every
     * gizmo is updated, in `gizmos` order, then the scene is rendered once.
     */
    method Animate() returns (frame: seq<Event>)
      ensures |frame| == |iks| + |gizmos| + 1
      ensures forall k :: 0 <= k < |iks| ==> frame[k] == Solve(iks[k])
      ensures forall k :: 0 <= k < |gizmos| ==> frame[|iks| + k] == UpdateGizmo(gizmos[k])
      ensures frame[|frame| - 1] == Render
    {
      frame := [];
      for k := 0 to |iks|
        invariant |frame| == k
        invariant forall m :: 0 <= m < k ==> frame[m] == Solve(iks[m])
      {
        frame := frame + [Solve(iks[k])];
      }
      for k := 0 to |gizmos|
        invariant |frame| == |iks| + k
        invariant forall m :: 0 <= m < |iks| ==> frame[m] == Solve(iks[m])
        invariant forall m :: 0 <= m < k ==> frame[|iks| + m] == UpdateGizmo(gizmos[m])
      {
        frame := frame + [UpdateGizmo(gizmos[k])];
      }
      frame := frame + [Render];
    }
  }
}
