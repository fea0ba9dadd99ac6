/**
 * MultiEffector.onChange as a specification: the writes it performs, in
 * order, on constraints arrays and IKBallConstraint objects, an interpreter
 * for those writes that stops at the first write that would throw, and the
 * remembered constraint type and angle.
 */
module ConstraintWrites {
  import opened SceneGraph
  import opened IKApp

  /** One write of onChange, on a constraints array given by its handle. */
  datatype Op =
    | SetSlot(list: nat, value: Option<nat>)  // j.constraints[0] = value
    | SetAngle(list: nat, angle: real)        // j.constraints[0].angle = angle
    | Throw                                   // ik.chains[0] is undefined

  /** What onChange may change: the arrays, the constraints' angles, and whether it has thrown. */
  datatype Store = Store(lists: seq<seq<Option<nat>>>, angles: seq<real>, thrown: bool)

  /** What onChange reads besides the store. */
  datatype Scene = Scene(joints: seq<Joint>, chains: seq<Chain>, iks: seq<seq<nat>>)

  /** The result of one onChange: the store and the remembered type and angle. */
  datatype Outcome = Outcome(store: Store, constraintType: Option<ConstraintType>, constraintAngle: Option<real>)

  /** The root chain's joints get either a new slot value or, in the angle branch, the angle. */
  datatype RootWrite = Slot(value: Option<nat>) | Angle

  /** Every handle a chain holds exists. */
  predicate LinksOk(sc: Scene)
  {
    && (forall c, k :: 0 <= c < |sc.chains| && 0 <= k < |sc.chains[c].joints| ==> sc.chains[c].joints[k] < |sc.joints|)
    && (forall c, e, k :: 0 <= c < |sc.chains| && 0 <= e < |sc.chains[c].subChains| && 0 <= k < |sc.chains[c].subChains[e].chains| ==>
          sc.chains[c].subChains[e].chains[k] < |sc.chains|)
  }

  /** LinksOk, and every IK of the app and every chain of those IKs exists. */
  predicate SceneOk(sc: Scene, iks: seq<nat>)
  {
    LinksOk(sc) && IksOk(sc.iks, |sc.chains|) && (forall k :: 0 <= k < |iks| ==> iks[k] < |sc.iks|)
  }

  predicate JointsIn(sc: Scene, js: seq<nat>)
  {
    forall k :: 0 <= k < |js| ==> js[k] < |sc.joints|
  }

  /** The constraints array of joint `j`. */
  function ListOf(sc: Scene, j: nat): nat
    requires j < |sc.joints|
  {
    sc.joints[j].constraints
  }

  /** One write, run on the store. Dangling handles, which a well-formed world does not hold, leave it as it is. */
  function Step(s: Store, op: Op): (r: Store)
    ensures |r.lists| == |s.lists| && |r.angles| == |s.angles|
    ensures s.thrown ==> r == s
  {
    if s.thrown then s
    else match op
      case SetSlot(l, v) => if l < |s.lists| then s.(lists := s.lists[l := SetFirst(s.lists[l], v)]) else s
      case SetAngle(l, a) =>
        if l < |s.lists| then
          match First(s.lists[l])
          case None => s.(thrown := true)
          case Some(c) => if c < |s.angles| then s.(angles := s.angles[c := a]) else s
        else s
      case Throw => s.(thrown := true)
  }

  /** The writes `ops`, run one after another from `s`. */
  function Run(s: Store, ops: seq<Op>): (r: Store)
    ensures |r.lists| == |s.lists| && |r.angles| == |s.angles|
    ensures s.thrown ==> r == s
  {
    if ops == [] then s else Step(Run(s, ops[..|ops| - 1]), ops[|ops| - 1])
  }

  /** `forEach(j => j.constraints[0] = v)` over the joints `js`. */
  function SlotWrites(sc: Scene, js: seq<nat>, v: Option<nat>): (r: seq<Op>)
    requires JointsIn(sc, js)
    ensures |r| == |js|
  {
    if js == [] then [] else SlotWrites(sc, js[..|js| - 1], v) + [SetSlot(ListOf(sc, js[|js| - 1]), v)]
  }

  /** `forEach(j => j.constraints[0].angle = a)` over the joints `js`. */
  function AngleWrites(sc: Scene, js: seq<nat>, a: real): (r: seq<Op>)
    requires JointsIn(sc, js)
    ensures |r| == |js|
  {
    if js == [] then [] else AngleWrites(sc, js[..|js| - 1], a) + [SetAngle(ListOf(sc, js[|js| - 1]), a)]
  }

  /** The joints of the chains `cs`, chain after chain. */
  function ChainJoints(sc: Scene, cs: seq<nat>): (r: seq<nat>)
    requires LinksOk(sc) && ChainsIn(sc, cs)
    ensures JointsIn(sc, r)
  {
    if cs == [] then [] else ChainJoints(sc, cs[..|cs| - 1]) + sc.chains[cs[|cs| - 1]].joints
  }

  /** Every chain handle in `cs` names a chain of the scene. */
  predicate ChainsIn(sc: Scene, cs: seq<nat>)
  {
    forall k :: 0 <= k < |cs| ==> cs[k] < |sc.chains|
  }

  predicate EntriesIn(sc: Scene, es: seq<SubChains>)
  {
    forall e :: 0 <= e < |es| ==> ChainsIn(sc, es[e].chains)
  }

  /** The joints of every chain connected in the entries `es`, in Map order. */
  function EntryJoints(sc: Scene, es: seq<SubChains>): (r: seq<nat>)
    requires LinksOk(sc) && EntriesIn(sc, es)
    ensures JointsIn(sc, r)
  {
    if es == [] then [] else EntryJoints(sc, es[..|es| - 1]) + ChainJoints(sc, es[|es| - 1].chains)
  }

  /** The root chain of an IK that has one. */
  function RootOf(sc: Scene, ik: nat): Chain
    requires IksOk(sc.iks, |sc.chains|) && ik < |sc.iks| && sc.iks[ik] != []
  {
    sc.chains[sc.iks[ik][0]]
  }

  /** The writes onChange makes for one IK: the root chain's joints, then every connected chain's joints. */
  function IkOps(sc: Scene, ik: nat, w: RootWrite, a: real): seq<Op>
    requires LinksOk(sc) && IksOk(sc.iks, |sc.chains|) && ik < |sc.iks|
  {
    if sc.iks[ik] == [] then [Throw]
    else
      var root := RootOf(sc, ik);
      assert JointsIn(sc, root.joints) && EntriesIn(sc, root.subChains);
      var rootOps := match w
        case Slot(v) => SlotWrites(sc, root.joints, v)
        case Angle => AngleWrites(sc, root.joints, a);
      rootOps + AngleWrites(sc, EntryJoints(sc, root.subChains), a)
  }

  /** The writes for the IKs `iks`, IK after IK. */
  function AllOps(sc: Scene, iks: seq<nat>, w: RootWrite, a: real): seq<Op>
    requires SceneOk(sc, iks)
  {
    if iks == [] then [] else AllOps(sc, iks[..|iks| - 1], w, a) + IkOps(sc, iks[|iks| - 1], w, a)
  }

  /**
   * The type branch of onChange from store `s`: nothing when the type is the
   * remembered one; otherwise a new IKBallConstraint at the configured angle
   * for 'ball' (null for 'none') put in slot 0 of every root joint's array,
   * each IK's root followed by the angle writes of its connected chains.
   */
  function Typed(sc: Scene, iks: seq<nat>, s: Store, cfg: Config, memType: Option<ConstraintType>): Store
    requires SceneOk(sc, iks)
  {
    if memType == Some(cfg.constraintType) then s
    else if cfg.constraintType == Ball then
      Run(s.(angles := s.angles + [cfg.constraintAngle]), AllOps(sc, iks, Slot(Some(|s.angles|)), cfg.constraintAngle))
    else Run(s, AllOps(sc, iks, Slot(None), cfg.constraintAngle))
  }

  /**
   * MultiEffector.onChange, before the base class's helper update. A type
   * change records the type, creates one IKBallConstraint for 'ball' (null for
   * 'none') and runs the type writes. Unless that threw, an angle change throws
   * when the type is not 'ball' and otherwise runs the angle writes and records
   * the angle.
   */
  function OnChangeSpec(sc: Scene, iks: seq<nat>, lists: seq<seq<Option<nat>>>, angles: seq<real>,
                        cfg: Config, memType: Option<ConstraintType>, memAngle: Option<real>): (r: Outcome)
    requires SceneOk(sc, iks)
    ensures r.constraintType == Some(cfg.constraintType)
    ensures |r.store.lists| == |lists|
    ensures |r.store.angles| == |angles| + (if memType != Some(cfg.constraintType) && cfg.constraintType == Ball then 1 else 0)
    ensures r.constraintAngle == if r.store.thrown then memAngle else Some(cfg.constraintAngle)
    ensures memType == Some(cfg.constraintType) && memAngle == Some(cfg.constraintAngle) ==>
      r.store == Store(lists, angles, false)
    ensures memType == Some(cfg.constraintType) && memAngle != Some(cfg.constraintAngle) && cfg.constraintType != Ball ==>
      r.store == Store(lists, angles, true)
  {
    var typed := Typed(sc, iks, Store(lists, angles, false), cfg, memType);
    if typed.thrown || memAngle == Some(cfg.constraintAngle) then
      Outcome(typed, Some(cfg.constraintType), if typed.thrown then memAngle else Some(cfg.constraintAngle))
    else if cfg.constraintType != Ball then
      Outcome(typed.(thrown := true), Some(cfg.constraintType), memAngle)
    else
      var angled := Run(typed, AllOps(sc, iks, Angle, cfg.constraintAngle));
      Outcome(angled, Some(cfg.constraintType), if angled.thrown then memAngle else Some(cfg.constraintAngle))
  }

  /** Every joint's constraints array exists in an arena of `n` arrays. */
  predicate ListsFit(sc: Scene, n: nat)
  {
    forall j :: 0 <= j < |sc.joints| ==> sc.joints[j].constraints < n
  }

  /** Slot 0 of every array is null, missing, or a constraint among the first `n`. */
  predicate SlotsFit(lists: seq<seq<Option<nat>>>, n: nat)
  {
    forall l :: 0 <= l < |lists| && First(lists[l]).Some? ==> First(lists[l]).value < n
  }

  /** No joint of `js` reaches constraint `d` through slot 0 of its array. */
  predicate Unreached(sc: Scene, lists: seq<seq<Option<nat>>>, js: seq<nat>, d: nat)
    requires JointsIn(sc, js) && ListsFit(sc, |lists|)
  {
    forall k :: 0 <= k < |js| ==> First(lists[ListOf(sc, js[k])]) != Some(d)
  }

  /** Some joint of `js` holds constraints array `l`. */
  predicate Written(sc: Scene, js: seq<nat>, l: nat)
    requires JointsIn(sc, js)
  {
    exists k :: 0 <= k < |js| && ListOf(sc, js[k]) == l
  }

  lemma {:induction false} RunSnoc(s: Store, ops: seq<Op>, op: Op)
    ensures Run(s, ops + [op]) == Step(Run(s, ops), op)
  {
    assert (ops + [op])[..|ops|] == ops;
  }

  lemma {:induction false} RunSplit(s: Store, a: seq<Op>, b: seq<Op>)
    ensures Run(s, a + b) == Run(Run(s, a), b)
    decreases |b|
  {
    if b == [] {
      assert a + b == a;
    } else {
      var b' := b[..|b| - 1];
      assert (a + b)[..|a + b| - 1] == a + b';
      RunSplit(s, a, b');
    }
  }

  /** Once a write has thrown, the writes after it do nothing. */
  lemma {:induction false} RunStops(s: Store, a: seq<Op>, b: seq<Op>)
    requires Run(s, a).thrown
    ensures Run(s, a + b) == Run(s, a)
  {
    RunSplit(s, a, b);
  }

  /** Write k of SlotWrites sets slot 0 of joint k's array. */
  lemma {:induction false} SlotWritesAt(sc: Scene, js: seq<nat>, v: Option<nat>)
    requires JointsIn(sc, js)
    ensures forall k :: 0 <= k < |js| ==> SlotWrites(sc, js, v)[k] == SetSlot(ListOf(sc, js[k]), v)
    decreases |js|
  {
    if js != [] {
      var js' := js[..|js| - 1];
      SlotWritesAt(sc, js', v);
      assert forall k :: 0 <= k < |js'| ==> js'[k] == js[k];
    }
  }

  /** Write k of AngleWrites sets the angle through joint k's array. */
  lemma {:induction false} AngleWritesAt(sc: Scene, js: seq<nat>, a: real)
    requires JointsIn(sc, js)
    ensures forall k :: 0 <= k < |js| ==> AngleWrites(sc, js, a)[k] == SetAngle(ListOf(sc, js[k]), a)
    decreases |js|
  {
    if js != [] {
      var js' := js[..|js| - 1];
      AngleWritesAt(sc, js', a);
      assert forall k :: 0 <= k < |js'| ==> js'[k] == js[k];
    }
  }

  /** The slot writes through the first k + 1 joints: those through the first k, then joint k's. */
  lemma {:induction false} SlotWritesTake(sc: Scene, js: seq<nat>, v: Option<nat>, k: nat)
    requires JointsIn(sc, js) && k < |js|
    ensures JointsIn(sc, js[..k]) && JointsIn(sc, js[..k + 1])
    ensures SlotWrites(sc, js[..k + 1], v) == SlotWrites(sc, js[..k], v) + [SetSlot(ListOf(sc, js[k]), v)]
  {
    assert js[..k + 1][..k] == js[..k];
  }

  /** The angle writes through the first k + 1 joints: those through the first k, then joint k's. */
  lemma {:induction false} AngleWritesTake(sc: Scene, js: seq<nat>, a: real, k: nat)
    requires JointsIn(sc, js) && k < |js|
    ensures JointsIn(sc, js[..k]) && JointsIn(sc, js[..k + 1])
    ensures AngleWrites(sc, js[..k + 1], a) == AngleWrites(sc, js[..k], a) + [SetAngle(ListOf(sc, js[k]), a)]
  {
    assert js[..k + 1][..k] == js[..k];
  }

  lemma {:induction false} AngleWritesAppend(sc: Scene, x: seq<nat>, y: seq<nat>, a: real)
    requires JointsIn(sc, x) && JointsIn(sc, y)
    ensures JointsIn(sc, x + y) && AngleWrites(sc, x + y, a) == AngleWrites(sc, x, a) + AngleWrites(sc, y, a)
    decreases |y|
  {
    assert JointsIn(sc, x + y);
    if y == [] {
      assert x + y == x;
    } else {
      var y' := y[..|y| - 1];
      assert (x + y)[..|x + y| - 1] == x + y';
      assert (x + y)[|x + y| - 1] == y[|y| - 1];
      AngleWritesAppend(sc, x, y', a);
    }
  }

  /** Running the angle writes through `x` + `y` runs those through `x`, then those through `y`. */
  lemma {:induction false} RunAngleWritesAppend(sc: Scene, s: Store, x: seq<nat>, y: seq<nat>, a: real)
    requires JointsIn(sc, x) && JointsIn(sc, y)
    ensures JointsIn(sc, x + y) && Run(s, AngleWrites(sc, x + y, a)) == Run(Run(s, AngleWrites(sc, x, a)), AngleWrites(sc, y, a))
  {
    AngleWritesAppend(sc, x, y, a);
    RunSplit(s, AngleWrites(sc, x, a), AngleWrites(sc, y, a));
  }

  /** The joints of the first k + 1 chains: those of the first k, then chain k's. */
  lemma {:induction false} ChainJointsTake(sc: Scene, cs: seq<nat>, k: nat)
    requires LinksOk(sc) && ChainsIn(sc, cs) && k < |cs|
    ensures ChainsIn(sc, cs[..k]) && ChainsIn(sc, cs[..k + 1])
    ensures ChainJoints(sc, cs[..k + 1]) == ChainJoints(sc, cs[..k]) + sc.chains[cs[k]].joints
  {
    assert cs[..k + 1][..k] == cs[..k];
  }

  /** The joints of the first k + 1 entries: those of the first k, then entry k's chains'. */
  lemma {:induction false} EntryJointsTake(sc: Scene, es: seq<SubChains>, k: nat)
    requires LinksOk(sc) && EntriesIn(sc, es) && k < |es|
    ensures EntriesIn(sc, es[..k]) && EntriesIn(sc, es[..k + 1]) && ChainsIn(sc, es[k].chains)
    ensures EntryJoints(sc, es[..k + 1]) == EntryJoints(sc, es[..k]) + ChainJoints(sc, es[k].chains)
  {
    assert EntriesIn(sc, es[..k + 1]);
    assert es[..k + 1][..k] == es[..k];
  }

  /** Angle writes through the joints of the first n chains that threw: the writes through all the chains end the same way. */
  lemma {:induction false} ChainsStop(sc: Scene, s: Store, cs: seq<nat>, n: nat, a: real)
    requires LinksOk(sc) && ChainsIn(sc, cs) && n <= |cs|
    requires ChainsIn(sc, cs[..n]) && Run(s, AngleWrites(sc, ChainJoints(sc, cs[..n]), a)).thrown
    ensures Run(s, AngleWrites(sc, ChainJoints(sc, cs), a)) == Run(s, AngleWrites(sc, ChainJoints(sc, cs[..n]), a))
  {
    ChainJointsPrefix(sc, cs, n);
    AnglePrefixStops(sc, s, ChainJoints(sc, cs[..n]), ChainJoints(sc, cs), a);
  }

  /** Angle writes through the joints of the first n entries that threw: the writes through all the entries end the same way. */
  lemma {:induction false} EntriesStop(sc: Scene, s: Store, es: seq<SubChains>, n: nat, a: real)
    requires LinksOk(sc) && EntriesIn(sc, es) && n <= |es|
    requires EntriesIn(sc, es[..n]) && Run(s, AngleWrites(sc, EntryJoints(sc, es[..n]), a)).thrown
    ensures Run(s, AngleWrites(sc, EntryJoints(sc, es), a)) == Run(s, AngleWrites(sc, EntryJoints(sc, es[..n]), a))
  {
    EntryJointsPrefix(sc, es, n);
    AnglePrefixStops(sc, s, EntryJoints(sc, es[..n]), EntryJoints(sc, es), a);
  }

  /** The writes for the first k + 1 IKs: those for the first k, then IK k's. */
  lemma {:induction false} AllOpsTake(sc: Scene, iks: seq<nat>, k: nat, w: RootWrite, a: real)
    requires SceneOk(sc, iks) && k < |iks|
    ensures SceneOk(sc, iks[..k]) && SceneOk(sc, iks[..k + 1])
    ensures AllOps(sc, iks[..k + 1], w, a) == AllOps(sc, iks[..k], w, a) + IkOps(sc, iks[k], w, a)
  {
    assert SceneOk(sc, iks[..k + 1]) && iks[..k + 1][..k] == iks[..k];
  }

  /** The writes for the first n IKs threw: the writes for all the IKs end the same way. */
  lemma {:induction false} AllStop(sc: Scene, s: Store, iks: seq<nat>, n: nat, w: RootWrite, a: real)
    requires SceneOk(sc, iks) && n <= |iks|
    requires SceneOk(sc, iks[..n]) && Run(s, AllOps(sc, iks[..n], w, a)).thrown
    ensures Run(s, AllOps(sc, iks, w, a)) == Run(s, AllOps(sc, iks[..n], w, a))
  {
    AllOpsPrefix(sc, iks, n, w, a);
    PrefixStops(s, AllOps(sc, iks[..n], w, a), AllOps(sc, iks, w, a));
  }

  /** One more slot write, on a store the slot writes before it left: slot 0 of joint k's array gets `v`. */
  lemma {:induction false} SlotWriteStep(sc: Scene, s: Store, js: seq<nat>, v: Option<nat>, k: nat)
    requires !s.thrown && JointsIn(sc, js) && ListsFit(sc, |s.lists|) && k < |js|
    ensures JointsIn(sc, js[..k]) && JointsIn(sc, js[..k + 1])
    ensures var st, l := Run(s, SlotWrites(sc, js[..k], v)), ListOf(sc, js[k]);
      && !st.thrown && l < |st.lists|
      && Run(s, SlotWrites(sc, js[..k + 1], v)) == st.(lists := st.lists[l := SetFirst(st.lists[l], v)])
  {
    SlotWritesTake(sc, js, v, k);
    SlotRun(sc, s, js[..k], v);
    RunSnoc(s, SlotWrites(sc, js[..k], v), SetSlot(ListOf(sc, js[k]), v));
  }

  /**
   * One more angle write, on a store the angle writes before it left without
   * throwing: it throws when slot 0 of joint k's array is null or missing and
   * otherwise sets the angle of the constraint there.
   */
  lemma {:induction false} AngleWriteStep(sc: Scene, s: Store, js: seq<nat>, a: real, k: nat)
    requires !s.thrown && JointsIn(sc, js) && ListsFit(sc, |s.lists|) && SlotsFit(s.lists, |s.angles|) && k < |js|
    requires JointsIn(sc, js[..k]) && !Run(s, AngleWrites(sc, js[..k], a)).thrown
    ensures JointsIn(sc, js[..k + 1])
    ensures var st, l := Run(s, AngleWrites(sc, js[..k], a)), ListOf(sc, js[k]);
      && st.lists == s.lists && |st.angles| == |s.angles| && l < |st.lists|
      && Run(s, AngleWrites(sc, js[..k + 1], a)) ==
           match First(st.lists[l])
           case None => st.(thrown := true)
           case Some(c) => st.(angles := st.angles[c := a])
  {
    AngleWritesTake(sc, js, a, k);
    AngleRun(sc, s, js[..k], a);
    RunSnoc(s, AngleWrites(sc, js[..k], a), SetAngle(ListOf(sc, js[k]), a));
  }

  /**
   * Setting slot 0 of every joint of `js` to `v` never throws and touches no
   * angle: exactly the arrays of those joints get `v` in slot 0.
   */
  lemma {:induction false} SlotRun(sc: Scene, s: Store, js: seq<nat>, v: Option<nat>)
    requires !s.thrown && JointsIn(sc, js) && ListsFit(sc, |s.lists|)
    ensures var r := Run(s, SlotWrites(sc, js, v));
      && !r.thrown && r.angles == s.angles && |r.lists| == |s.lists|
      && (forall l :: 0 <= l < |s.lists| ==> r.lists[l] == if Written(sc, js, l) then SetFirst(s.lists[l], v) else s.lists[l])
    decreases |js|
  {
    if js != [] {
      var js' := js[..|js| - 1];
      var j := js[|js| - 1];
      assert SlotWrites(sc, js, v) == SlotWrites(sc, js', v) + [SetSlot(ListOf(sc, j), v)];
      RunSnoc(s, SlotWrites(sc, js', v), SetSlot(ListOf(sc, j), v));
      SlotRun(sc, s, js', v);
      var r' := Run(s, SlotWrites(sc, js', v));
      var r := Run(s, SlotWrites(sc, js, v));
      assert r.lists == r'.lists[ListOf(sc, j) := SetFirst(r'.lists[ListOf(sc, j)], v)];
      forall l | 0 <= l < |s.lists|
        ensures r.lists[l] == if Written(sc, js, l) then SetFirst(s.lists[l], v) else s.lists[l]
      {
        WrittenSnoc(sc, js, l);
        if l == ListOf(sc, j) {
          SetFirstTwice(s.lists[l], v);
        }
      }
    }
  }

  /** A joint of `js` holds `l` exactly when one before the last does or the last does. */
  lemma {:induction false} WrittenSnoc(sc: Scene, js: seq<nat>, l: nat)
    requires JointsIn(sc, js) && |js| > 0
    ensures JointsIn(sc, js[..|js| - 1])
    ensures Written(sc, js, l) <==> Written(sc, js[..|js| - 1], l) || ListOf(sc, js[|js| - 1]) == l
  {
    var js' := js[..|js| - 1];
    assert forall k :: 0 <= k < |js'| ==> js'[k] == js[k];
    if Written(sc, js, l) && ListOf(sc, js[|js| - 1]) != l {
      var k :| 0 <= k < |js| && ListOf(sc, js[k]) == l;
      assert k < |js'|;
    }
  }

  /** Writing slot 0 twice with the same value is writing it once. */
  lemma {:induction false} SetFirstTwice(l: seq<Option<nat>>, v: Option<nat>)
    ensures SetFirst(SetFirst(l, v), v) == SetFirst(l, v)
  {
  }

  /**
   * Setting the angle through slot 0 of every joint of `js` changes no array.
   * It throws exactly when one of those slots is null or missing, at once
   * when the first one is; otherwise every constraint reached gets `a`. In
   * every case a constraint no slot of `js` reaches keeps its angle.
   */
  lemma {:induction false} AngleRun(sc: Scene, s: Store, js: seq<nat>, a: real)
    requires !s.thrown && JointsIn(sc, js) && ListsFit(sc, |s.lists|) && SlotsFit(s.lists, |s.angles|)
    ensures var r := Run(s, AngleWrites(sc, js, a));
      && r.lists == s.lists && |r.angles| == |s.angles|
      && (r.thrown <==> exists k :: 0 <= k < |js| && First(s.lists[ListOf(sc, js[k])]).None?)
      && (!r.thrown ==> forall k :: 0 <= k < |js| ==> r.angles[First(s.lists[ListOf(sc, js[k])]).value] == a)
      && (forall c :: 0 <= c < |s.angles| && (forall k :: 0 <= k < |js| ==> First(s.lists[ListOf(sc, js[k])]) != Some(c)) ==>
            r.angles[c] == s.angles[c])
      && (|js| > 0 && First(s.lists[ListOf(sc, js[0])]).None? ==> r == s.(thrown := true))
    decreases |js|
  {
    if js == [] {
      assert AngleOutcome(sc, s, js, a, Run(s, AngleWrites(sc, js, a)));
    } else {
      var js' := js[..|js| - 1];
      assert AngleWrites(sc, js, a)[..|js| - 1] == AngleWrites(sc, js', a);
      AngleRun(sc, s, js', a);
      AngleRunLast(sc, s, js, a, Run(s, AngleWrites(sc, js', a)), Run(s, AngleWrites(sc, js, a)));
    }
  }

  /** AngleRun's conclusion about the store `r` that the angle writes of `js` reach from `s`. */
  ghost predicate AngleOutcome(sc: Scene, s: Store, js: seq<nat>, a: real, r: Store)
    requires JointsIn(sc, js) && ListsFit(sc, |s.lists|) && SlotsFit(s.lists, |s.angles|)
  {
    && r.lists == s.lists && |r.angles| == |s.angles|
    && (r.thrown <==> exists k :: 0 <= k < |js| && First(s.lists[ListOf(sc, js[k])]).None?)
    && (!r.thrown ==> forall k :: 0 <= k < |js| ==> r.angles[First(s.lists[ListOf(sc, js[k])]).value] == a)
    && (forall c :: 0 <= c < |s.angles| && (forall k :: 0 <= k < |js| ==> First(s.lists[ListOf(sc, js[k])]) != Some(c)) ==>
          r.angles[c] == s.angles[c])
    && (|js| > 0 && First(s.lists[ListOf(sc, js[0])]).None? ==> r == s.(thrown := true))
  }

  /** The inductive step of AngleRun: one more angle write through the last joint of `js`. */
  lemma {:induction false} AngleRunLast(sc: Scene, s: Store, js: seq<nat>, a: real, r': Store, r: Store)
    requires !s.thrown && JointsIn(sc, js) && ListsFit(sc, |s.lists|) && SlotsFit(s.lists, |s.angles|) && js != []
    requires AngleOutcome(sc, s, js[..|js| - 1], a, r')
    requires r == Step(r', SetAngle(ListOf(sc, js[|js| - 1]), a))
    ensures AngleOutcome(sc, s, js, a, r)
  {
    var js' := js[..|js| - 1];
    var j := js[|js| - 1];
    forall k | 0 <= k < |js'| ensures js'[k] == js[k] { }
    if |js| > 1 { assert js'[0] == js[0]; }
    if !r.thrown {
      forall k | 0 <= k < |js| ensures r.angles[First(s.lists[ListOf(sc, js[k])]).value] == a {
        var c := First(s.lists[ListOf(sc, js[k])]).value;
        if k < |js'| && First(s.lists[ListOf(sc, j)]).value != c {
          assert r'.angles[c] == a;
        }
      }
    }
  }

  /** The writes for a one-IK app are that IK's writes. */
  lemma {:induction false} OneIk(sc: Scene, ik: nat, w: RootWrite, a: real)
    requires SceneOk(sc, [ik]) && ik < |sc.iks|
    ensures AllOps(sc, [ik], w, a) == IkOps(sc, ik, w, a)
  {
    assert [ik][..0] == [];
  }

  /** A second onChange with the configuration the first one applied changes nothing. */
  lemma {:induction false} SecondCallNoop(sc: Scene, iks: seq<nat>, lists: seq<seq<Option<nat>>>, angles: seq<real>,
                       cfg: Config, memType: Option<ConstraintType>, memAngle: Option<real>)
    requires SceneOk(sc, iks)
    ensures var r := OnChangeSpec(sc, iks, lists, angles, cfg, memType, memAngle);
      !r.store.thrown ==>
        OnChangeSpec(sc, iks, r.store.lists, r.store.angles, cfg, r.constraintType, r.constraintAngle) == r
  {
  }

  /** Slot writes of an existing constraint (or null) keep every array's handles in range. */
  lemma {:induction false} SlotKeepsSlotsFit(sc: Scene, s: Store, js: seq<nat>, v: Option<nat>)
    requires !s.thrown && JointsIn(sc, js) && ListsFit(sc, |s.lists|) && SlotsFit(s.lists, |s.angles|)
    requires v.Some? ==> v.value < |s.angles|
    ensures SlotsFit(Run(s, SlotWrites(sc, js, v)).lists, |s.angles|)
  {
    SlotRun(sc, s, js, v);
  }

  /**
   * The type writes for 'none' on an IK whose first connected joint is a root
   * joint: every root joint's slot 0 becomes null, then the first arm write
   * throws, before any angle is written.
   */
  lemma {:induction false} NoneIkThrows(sc: Scene, ik: nat, s: Store, a: real)
    requires LinksOk(sc) && IksOk(sc.iks, |sc.chains|) && ik < |sc.iks| && sc.iks[ik] != []
    requires !s.thrown && ListsFit(sc, |s.lists|) && SlotsFit(s.lists, |s.angles|)
    requires var root := RootOf(sc, ik);
      EntryJoints(sc, root.subChains) != [] && EntryJoints(sc, root.subChains)[0] in root.joints
    ensures JointsIn(sc, RootOf(sc, ik).joints)
    ensures var r := Run(s, IkOps(sc, ik, Slot(None), a));
      var root := RootOf(sc, ik);
      && r.thrown && r.angles == s.angles
      && (forall k :: 0 <= k < |root.joints| ==> First(r.lists[ListOf(sc, root.joints[k])]) == None)
      && (forall l :: 0 <= l < |s.lists| ==> r.lists[l] == if Written(sc, root.joints, l) then SetFirst(s.lists[l], None) else s.lists[l])
  {
    var root := RootOf(sc, ik);
    assert JointsIn(sc, root.joints) && EntriesIn(sc, root.subChains);
    NoneThenThrow(sc, s, root.joints, EntryJoints(sc, root.subChains), a);
  }

  /** Nulling slot 0 of every array `x` reaches, then angle writes whose first joint is in `x`: the first angle write throws. */
  lemma {:induction false} NoneThenThrow(sc: Scene, s: Store, x: seq<nat>, y: seq<nat>, a: real)
    requires !s.thrown && JointsIn(sc, x) && JointsIn(sc, y) && ListsFit(sc, |s.lists|) && SlotsFit(s.lists, |s.angles|)
    requires y != [] && y[0] in x
    ensures var r := Run(s, SlotWrites(sc, x, None) + AngleWrites(sc, y, a));
      && r.thrown && r.angles == s.angles
      && (forall k :: 0 <= k < |x| ==> First(r.lists[ListOf(sc, x[k])]) == None)
      && (forall l :: 0 <= l < |s.lists| ==> r.lists[l] == if Written(sc, x, l) then SetFirst(s.lists[l], None) else s.lists[l])
  {
    var xOps := SlotWrites(sc, x, None);
    RunSplit(s, xOps, AngleWrites(sc, y, a));
    SlotRun(sc, s, x, None);
    SlotKeepsSlotsFit(sc, s, x, None);
    var s1 := Run(s, xOps);
    var k0 :| 0 <= k0 < |x| && x[k0] == y[0];
    assert Written(sc, x, ListOf(sc, y[0]));
    assert First(s1.lists[ListOf(sc, y[0])]) == None;
    AngleRun(sc, s1, y, a);
    var r := Run(s, xOps + AngleWrites(sc, y, a));
    assert r == s1.(thrown := true);
    forall k | 0 <= k < |x| ensures First(s1.lists[ListOf(sc, x[k])]) == None {
      assert Written(sc, x, ListOf(sc, x[k]));
    }
  }

  /**
   * Switching a one-IK app to 'none' when a connected chain starts on a root
   * joint: every root joint's slot 0 becomes null, then the first arm write
   * reads `.angle` of that null and throws. No angle was written, the type is
   * recorded and the angle is not.
   */
  lemma {:induction false} TypeToNoneThrows(sc: Scene, ik: nat, lists: seq<seq<Option<nat>>>, angles: seq<real>,
                         cfg: Config, memType: Option<ConstraintType>, memAngle: Option<real>)
    requires SceneOk(sc, [ik]) && ik < |sc.iks| && ListsFit(sc, |lists|) && SlotsFit(lists, |angles|)
    requires cfg.constraintType == NoConstraint && memType != Some(NoConstraint)
    requires sc.iks[ik] != []
    requires var root := RootOf(sc, ik);
      EntryJoints(sc, root.subChains) != [] && EntryJoints(sc, root.subChains)[0] in root.joints
    ensures JointsIn(sc, RootOf(sc, ik).joints)
    ensures var r := OnChangeSpec(sc, [ik], lists, angles, cfg, memType, memAngle);
      var root := RootOf(sc, ik);
      && r.store.thrown && r.store.angles == angles
      && (forall k :: 0 <= k < |root.joints| ==> First(r.store.lists[ListOf(sc, root.joints[k])]) == None)
      && (forall l :: 0 <= l < |lists| ==> r.store.lists[l] == if Written(sc, root.joints, l) then SetFirst(lists[l], None) else lists[l])
      && r.constraintType == Some(NoConstraint) && r.constraintAngle == memAngle
  {
    OneIk(sc, ik, Slot(None), cfg.constraintAngle);
    NoneIkThrows(sc, ik, Store(lists, angles, false), cfg.constraintAngle);
  }

  /**
   * The failed switch to 'none' leaves every array no root joint holds as it
   * was, so each connected joint that is not a root joint still holds its
   * own constraint.
   */
  lemma {:induction false} NoneKeepsArms(sc: Scene, ik: nat, lists: seq<seq<Option<nat>>>, angles: seq<real>,
                      cfg: Config, memType: Option<ConstraintType>, memAngle: Option<real>)
    requires SceneOk(sc, [ik]) && ik < |sc.iks| && ListsFit(sc, |lists|) && SlotsFit(lists, |angles|)
    requires cfg.constraintType == NoConstraint && memType != Some(NoConstraint)
    requires sc.iks[ik] != []
    requires var root := RootOf(sc, ik);
      EntryJoints(sc, root.subChains) != [] && EntryJoints(sc, root.subChains)[0] in root.joints
    requires ArmsReachable(sc, ik, lists)
    ensures var r := OnChangeSpec(sc, [ik], lists, angles, cfg, memType, memAngle);
      && ListsFit(sc, |r.store.lists|) && SlotsFit(r.store.lists, |r.store.angles|)
      && ArmsReachable(sc, ik, r.store.lists)
  {
    TypeToNoneThrows(sc, ik, lists, angles, cfg, memType, memAngle);
    var r := OnChangeSpec(sc, [ik], lists, angles, cfg, memType, memAngle);
    var root := RootOf(sc, ik);
    forall l | 0 <= l < |r.store.lists| && First(r.store.lists[l]).Some?
      ensures First(r.store.lists[l]).value < |r.store.angles|
    {
      assert r.store.lists[l] == lists[l];
    }
  }

  /**
   * Switching back to 'ball' after a failed switch to 'none' throws nothing:
   * a new constraint fills slot 0 of every root joint, every connected joint
   * reaches a constraint at the configured angle, and both settings are
   * recorded.
   */
  lemma {:induction false} NoneThenBall(sc: Scene, ik: nat, lists: seq<seq<Option<nat>>>, angles: seq<real>,
                     cfg: Config, memType: Option<ConstraintType>, memAngle: Option<real>)
    requires SceneOk(sc, [ik]) && ik < |sc.iks| && ListsFit(sc, |lists|) && SlotsFit(lists, |angles|)
    requires cfg.constraintType == NoConstraint && memType != Some(NoConstraint)
    requires sc.iks[ik] != []
    requires var root := RootOf(sc, ik);
      EntryJoints(sc, root.subChains) != [] && EntryJoints(sc, root.subChains)[0] in root.joints
    requires ArmsReachable(sc, ik, lists)
    ensures var r1 := OnChangeSpec(sc, [ik], lists, angles, cfg, memType, memAngle);
      var r2 := OnChangeSpec(sc, [ik], r1.store.lists, r1.store.angles, cfg.(constraintType := Ball), r1.constraintType, r1.constraintAngle);
      var root, arms := RootOf(sc, ik), ArmJoints(sc, ik);
      && r1.store.thrown && !r2.store.thrown
      && (forall k :: 0 <= k < |root.joints| ==> First(r2.store.lists[ListOf(sc, root.joints[k])]) == Some(|angles|))
      && (forall k :: 0 <= k < |arms| ==> Reaches(r2.store, ListOf(sc, arms[k]), cfg.constraintAngle))
      && r2.constraintType == Some(Ball) && r2.constraintAngle == Some(cfg.constraintAngle)
  {
    TypeToNoneThrows(sc, ik, lists, angles, cfg, memType, memAngle);
    NoneKeepsArms(sc, ik, lists, angles, cfg, memType, memAngle);
    var r1 := OnChangeSpec(sc, [ik], lists, angles, cfg, memType, memAngle);
    TypeToBall(sc, ik, r1.store.lists, r1.store.angles, cfg.(constraintType := Ball), r1.constraintType, r1.constraintAngle);
  }

  /** The joints of every chain connected to the root chain of IK `ik`. */
  function ArmJoints(sc: Scene, ik: nat): (r: seq<nat>)
    requires LinksOk(sc) && IksOk(sc.iks, |sc.chains|) && ik < |sc.iks| && sc.iks[ik] != []
    ensures JointsIn(sc, r)
  {
    var root := RootOf(sc, ik);
    assert EntriesIn(sc, root.subChains);
    EntryJoints(sc, root.subChains)
  }

  /**
   * Each connected joint either is a root joint or holds its own non-null
   * constraint in an array no root joint holds.
   */
  predicate ArmsReachable(sc: Scene, ik: nat, lists: seq<seq<Option<nat>>>)
    requires LinksOk(sc) && IksOk(sc.iks, |sc.chains|) && ik < |sc.iks| && sc.iks[ik] != [] && ListsFit(sc, |lists|)
  {
    var root := RootOf(sc, ik);
    var arms := ArmJoints(sc, ik);
    assert JointsIn(sc, root.joints);
    forall k :: 0 <= k < |arms| ==>
      arms[k] in root.joints || (First(lists[ListOf(sc, arms[k])]).Some? && !Written(sc, root.joints, ListOf(sc, arms[k])))
  }

  /** The root part of the type writes for 'ball': root slots get `c`, every connected joint still reaches a constraint. */
  lemma {:induction false} BallRoots(sc: Scene, ik: nat, s: Store, c: nat)
    requires LinksOk(sc) && IksOk(sc.iks, |sc.chains|) && ik < |sc.iks| && sc.iks[ik] != []
    requires !s.thrown && ListsFit(sc, |s.lists|) && SlotsFit(s.lists, |s.angles|) && c < |s.angles|
    requires ArmsReachable(sc, ik, s.lists)
    ensures JointsIn(sc, RootOf(sc, ik).joints)
    ensures var r := Run(s, SlotWrites(sc, RootOf(sc, ik).joints, Some(c)));
      var root, arms := RootOf(sc, ik), ArmJoints(sc, ik);
      && !r.thrown && r.angles == s.angles && |r.lists| == |s.lists| && SlotsFit(r.lists, |r.angles|)
      && (forall l :: 0 <= l < |s.lists| ==> r.lists[l] == if Written(sc, root.joints, l) then SetFirst(s.lists[l], Some(c)) else s.lists[l])
      && (forall k :: 0 <= k < |root.joints| ==> First(r.lists[ListOf(sc, root.joints[k])]) == Some(c))
      && (forall k :: 0 <= k < |arms| ==> First(r.lists[ListOf(sc, arms[k])]) in {Some(c), First(s.lists[ListOf(sc, arms[k])])})
      && (forall k :: 0 <= k < |arms| ==> First(r.lists[ListOf(sc, arms[k])]).Some?)
  {
    var root := RootOf(sc, ik);
    assert JointsIn(sc, root.joints);
    var arms := ArmJoints(sc, ik);
    SlotRun(sc, s, root.joints, Some(c));
    SlotKeepsSlotsFit(sc, s, root.joints, Some(c));
    var s1 := Run(s, SlotWrites(sc, root.joints, Some(c)));
    forall k | 0 <= k < |root.joints| ensures First(s1.lists[ListOf(sc, root.joints[k])]) == Some(c) {
      assert Written(sc, root.joints, ListOf(sc, root.joints[k]));
    }
    forall k | 0 <= k < |arms|
      ensures First(s1.lists[ListOf(sc, arms[k])]) in {Some(c), First(s.lists[ListOf(sc, arms[k])])}
      ensures First(s1.lists[ListOf(sc, arms[k])]).Some?
    {
      if arms[k] in root.joints {
        var m :| 0 <= m < |root.joints| && root.joints[m] == arms[k];
      }
    }
  }

  /**
   * The type writes for 'ball' with constraint `c`: every root joint's slot 0
   * becomes `c` and, when every connected joint is reachable, nothing throws
   * and every constraint the connected joints reach gets angle `a`; no other
   * constraint but `c` changes.
   */
  lemma {:induction false} BallIk(sc: Scene, ik: nat, s: Store, c: nat, a: real)
    requires LinksOk(sc) && IksOk(sc.iks, |sc.chains|) && ik < |sc.iks| && sc.iks[ik] != []
    requires !s.thrown && ListsFit(sc, |s.lists|) && SlotsFit(s.lists, |s.angles|) && c < |s.angles|
    requires ArmsReachable(sc, ik, s.lists)
    ensures var r := Run(s, IkOps(sc, ik, Slot(Some(c)), a));
      var root, arms := RootOf(sc, ik), ArmJoints(sc, ik);
      && !r.thrown && SlotsFit(r.lists, |r.angles|)
      && (forall l :: 0 <= l < |s.lists| ==> r.lists[l] == if Written(sc, root.joints, l) then SetFirst(s.lists[l], Some(c)) else s.lists[l])
      && (forall k :: 0 <= k < |root.joints| ==> First(r.lists[ListOf(sc, root.joints[k])]) == Some(c))
      && (forall k :: 0 <= k < |arms| ==>
            First(r.lists[ListOf(sc, arms[k])]).Some? && r.angles[First(r.lists[ListOf(sc, arms[k])]).value] == a)
      && (forall d :: 0 <= d < |s.angles| && d != c && Unreached(sc, s.lists, arms, d) ==>
            r.angles[d] == s.angles[d])
      && (s.angles[c] == a ==> r.angles[c] == a)
  {
    var root := RootOf(sc, ik);
    BallRoots(sc, ik, s, c);
    var arms := ArmJoints(sc, ik);
    var rootOps := SlotWrites(sc, root.joints, Some(c));
    RunSplit(s, rootOps, AngleWrites(sc, arms, a));
    var s1 := Run(s, rootOps);
    AngleRun(sc, s1, arms, a);
  }

  /** Every root joint and every connected joint of IK `ik` holds a non-null constraint in slot 0. */
  predicate AllReach(sc: Scene, ik: nat, lists: seq<seq<Option<nat>>>)
    requires LinksOk(sc) && IksOk(sc.iks, |sc.chains|) && ik < |sc.iks| && sc.iks[ik] != [] && ListsFit(sc, |lists|)
  {
    var root, arms := RootOf(sc, ik), ArmJoints(sc, ik);
    assert JointsIn(sc, root.joints);
    && (forall k :: 0 <= k < |root.joints| ==> First(lists[ListOf(sc, root.joints[k])]).Some?)
    && (forall k :: 0 <= k < |arms| ==> First(lists[ListOf(sc, arms[k])]).Some?)
  }

  /** Angle writes through slots that all hold a constraint: nothing throws and every constraint reached gets `a`. */
  lemma {:induction false} AngleAll(sc: Scene, s: Store, js: seq<nat>, a: real)
    requires !s.thrown && JointsIn(sc, js) && ListsFit(sc, |s.lists|) && SlotsFit(s.lists, |s.angles|)
    requires forall k :: 0 <= k < |js| ==> First(s.lists[ListOf(sc, js[k])]).Some?
    ensures var r := Run(s, AngleWrites(sc, js, a));
      && !r.thrown && r.lists == s.lists
      && (forall k :: 0 <= k < |js| ==> r.angles[First(s.lists[ListOf(sc, js[k])]).value] == a)
      && (forall d :: 0 <= d < |s.angles| && s.angles[d] == a ==> r.angles[d] == a)
      && (forall d :: 0 <= d < |s.angles| && Unreached(sc, s.lists, js, d) ==>
            r.angles[d] == s.angles[d])
  {
    AngleRun(sc, s, js, a);
    var r := Run(s, AngleWrites(sc, js, a));
    forall d | 0 <= d < |s.angles| && s.angles[d] == a ensures r.angles[d] == a {
      if exists k :: 0 <= k < |js| && First(s.lists[ListOf(sc, js[k])]) == Some(d) {
        var k :| 0 <= k < |js| && First(s.lists[ListOf(sc, js[k])]) == Some(d);
      }
    }
  }

  /** The angle writes of an IK are the writes through its root joints and then its connected joints. */
  lemma {:induction false} AngleIkOps(sc: Scene, ik: nat, a: real)
    requires LinksOk(sc) && IksOk(sc.iks, |sc.chains|) && ik < |sc.iks| && sc.iks[ik] != []
    ensures JointsIn(sc, RootOf(sc, ik).joints + ArmJoints(sc, ik))
    ensures IkOps(sc, ik, Angle, a) == AngleWrites(sc, RootOf(sc, ik).joints + ArmJoints(sc, ik), a)
  {
    assert JointsIn(sc, RootOf(sc, ik).joints);
    AngleWritesAppend(sc, RootOf(sc, ik).joints, ArmJoints(sc, ik), a);
  }

  /**
   * The angle writes on an IK whose joints all reach a constraint: nothing
   * throws, no array changes, every constraint a root or connected joint
   * reaches gets angle `a`.
   */
  lemma {:induction false} AngleIk(sc: Scene, ik: nat, s: Store, a: real)
    requires LinksOk(sc) && IksOk(sc.iks, |sc.chains|) && ik < |sc.iks| && sc.iks[ik] != []
    requires !s.thrown && ListsFit(sc, |s.lists|) && SlotsFit(s.lists, |s.angles|) && AllReach(sc, ik, s.lists)
    ensures var r := Run(s, IkOps(sc, ik, Angle, a));
      var root, arms := RootOf(sc, ik), ArmJoints(sc, ik);
      && !r.thrown && r.lists == s.lists
      && (forall k :: 0 <= k < |root.joints| ==> r.angles[First(s.lists[ListOf(sc, root.joints[k])]).value] == a)
      && (forall k :: 0 <= k < |arms| ==> r.angles[First(s.lists[ListOf(sc, arms[k])]).value] == a)
      && (forall d :: 0 <= d < |s.angles| && s.angles[d] == a ==> r.angles[d] == a)
      && (forall d :: 0 <= d < |s.angles| && Unreached(sc, s.lists, root.joints, d) && Unreached(sc, s.lists, arms, d) ==> r.angles[d] == s.angles[d])
  {
    AngleIkOps(sc, ik, a);
    assert JointsIn(sc, RootOf(sc, ik).joints);
    AngleAllSplit(sc, s, RootOf(sc, ik).joints, ArmJoints(sc, ik), a);
  }

  /** AngleAll on `x + y`, stated for `x` and `y` apart. */
  lemma {:induction false} AngleAllSplit(sc: Scene, s: Store, x: seq<nat>, y: seq<nat>, a: real)
    requires !s.thrown && JointsIn(sc, x) && JointsIn(sc, y) && ListsFit(sc, |s.lists|) && SlotsFit(s.lists, |s.angles|)
    requires forall k :: 0 <= k < |x| ==> First(s.lists[ListOf(sc, x[k])]).Some?
    requires forall k :: 0 <= k < |y| ==> First(s.lists[ListOf(sc, y[k])]).Some?
    ensures JointsIn(sc, x + y)
    ensures var r := Run(s, AngleWrites(sc, x + y, a));
      && !r.thrown && r.lists == s.lists
      && (forall k :: 0 <= k < |x| ==> r.angles[First(s.lists[ListOf(sc, x[k])]).value] == a)
      && (forall k :: 0 <= k < |y| ==> r.angles[First(s.lists[ListOf(sc, y[k])]).value] == a)
      && (forall d :: 0 <= d < |s.angles| && s.angles[d] == a ==> r.angles[d] == a)
      && (forall d :: 0 <= d < |s.angles| && Unreached(sc, s.lists, x, d) && Unreached(sc, s.lists, y, d) ==> r.angles[d] == s.angles[d])
  {
    var all := x + y;
    forall k | 0 <= k < |all| ensures all[k] < |sc.joints| && First(s.lists[ListOf(sc, all[k])]).Some? {
      if k >= |x| { assert all[k] == y[k - |x|]; }
    }
    AngleAll(sc, s, all, a);
    forall k | 0 <= k < |x| ensures all[k] == x[k] { }
    forall k | 0 <= k < |y| ensures all[|x| + k] == y[k] { }
    var r := Run(s, AngleWrites(sc, all, a));
    forall d | 0 <= d < |s.angles| && Unreached(sc, s.lists, x, d) && Unreached(sc, s.lists, y, d)
      ensures r.angles[d] == s.angles[d]
    {
      forall k | 0 <= k < |all| ensures First(s.lists[ListOf(sc, all[k])]) != Some(d) {
        if k >= |x| { assert all[k] == y[k - |x|]; }
      }
    }
  }

  /** Slot 0 of array `l` holds a constraint whose angle is `a`. */
  predicate Reaches(s: Store, l: nat, a: real)
  {
    l < |s.lists| && First(s.lists[l]).Some? && First(s.lists[l]).value < |s.angles| && s.angles[First(s.lists[l]).value] == a
  }

  /** The type writes of a one-IK app switching to 'ball', from the store with the new constraint appended. */
  lemma {:induction false} BallStage(sc: Scene, ik: nat, lists: seq<seq<Option<nat>>>, angles: seq<real>, a: real)
    requires SceneOk(sc, [ik]) && ik < |sc.iks| && ListsFit(sc, |lists|) && SlotsFit(lists, |angles|)
    requires sc.iks[ik] != [] && ArmsReachable(sc, ik, lists)
    ensures JointsIn(sc, RootOf(sc, ik).joints)
    ensures var s1 := Run(Store(lists, angles + [a], false), AllOps(sc, [ik], Slot(Some(|angles|)), a));
      var root, arms := RootOf(sc, ik), ArmJoints(sc, ik);
      && !s1.thrown && SlotsFit(s1.lists, |s1.angles|) && |s1.lists| == |lists| && |s1.angles| == |angles| + 1
      && s1.angles[|angles|] == a && AllReach(sc, ik, s1.lists)
      && (forall l :: 0 <= l < |lists| ==> s1.lists[l] == if Written(sc, root.joints, l) then SetFirst(lists[l], Some(|angles|)) else lists[l])
      && (forall d :: 0 <= d < |angles| && Unreached(sc, lists, arms, d) ==> s1.angles[d] == angles[d])
      && (forall k :: 0 <= k < |root.joints| ==> First(s1.lists[ListOf(sc, root.joints[k])]) == Some(|angles|))
      && (forall k :: 0 <= k < |arms| ==> Reaches(s1, ListOf(sc, arms[k]), a))
  {
    var s0 := Store(lists, angles + [a], false);
    assert JointsIn(sc, RootOf(sc, ik).joints);
    assert SlotsFit(s0.lists, |s0.angles|);
    OneIk(sc, ik, Slot(Some(|angles|)), a);
    BallIk(sc, ik, s0, |angles|, a);
  }

  /** The angle writes of a one-IK app whose joints all reach a constraint. */
  lemma {:induction false} AngleStage(sc: Scene, ik: nat, s: Store, a: real)
    requires SceneOk(sc, [ik]) && ik < |sc.iks| && sc.iks[ik] != []
    requires !s.thrown && ListsFit(sc, |s.lists|) && SlotsFit(s.lists, |s.angles|) && AllReach(sc, ik, s.lists)
    ensures var r := Run(s, AllOps(sc, [ik], Angle, a));
      var root, arms := RootOf(sc, ik), ArmJoints(sc, ik);
      && !r.thrown && r.lists == s.lists
      && (forall k :: 0 <= k < |root.joints| ==> Reaches(r, ListOf(sc, root.joints[k]), a))
      && (forall k :: 0 <= k < |arms| ==> Reaches(r, ListOf(sc, arms[k]), a))
      && (forall d :: 0 <= d < |s.angles| && s.angles[d] == a ==> r.angles[d] == a)
      && (forall d :: 0 <= d < |s.angles| && Unreached(sc, s.lists, root.joints, d) && Unreached(sc, s.lists, arms, d) ==> r.angles[d] == s.angles[d])
  {
    OneIk(sc, ik, Angle, a);
    AngleIk(sc, ik, s, a);
  }

  /**
   * Switching a one-IK app to 'ball' when every connected joint is reachable:
   * nothing throws, every root joint's slot 0 holds the one new constraint,
   * and that constraint and every constraint a connected joint reaches carry
   * the configured angle. Both the type and the angle are recorded.
   */
  lemma {:induction false} TypeToBall(sc: Scene, ik: nat, lists: seq<seq<Option<nat>>>, angles: seq<real>,
                   cfg: Config, memType: Option<ConstraintType>, memAngle: Option<real>)
    requires SceneOk(sc, [ik]) && ik < |sc.iks| && ListsFit(sc, |lists|) && SlotsFit(lists, |angles|)
    requires cfg.constraintType == Ball && memType != Some(Ball)
    requires sc.iks[ik] != [] && ArmsReachable(sc, ik, lists)
    ensures JointsIn(sc, RootOf(sc, ik).joints)
    ensures var r := OnChangeSpec(sc, [ik], lists, angles, cfg, memType, memAngle);
      var root, arms := RootOf(sc, ik), ArmJoints(sc, ik);
      && !r.store.thrown && |r.store.angles| == |angles| + 1
      && r.store.angles[|angles|] == cfg.constraintAngle
      && (forall l :: 0 <= l < |lists| ==> r.store.lists[l] == if Written(sc, root.joints, l) then SetFirst(lists[l], Some(|angles|)) else lists[l])
      && (forall d :: 0 <= d < |angles| && Unreached(sc, lists, arms, d) ==> r.store.angles[d] == angles[d])
      && (forall k :: 0 <= k < |root.joints| ==> First(r.store.lists[ListOf(sc, root.joints[k])]) == Some(|angles|))
      && (forall k :: 0 <= k < |arms| ==> Reaches(r.store, ListOf(sc, arms[k]), cfg.constraintAngle))
      && r.constraintType == Some(Ball) && r.constraintAngle == Some(cfg.constraintAngle)
  {
    var a := cfg.constraintAngle;
    BallStage(sc, ik, lists, angles, a);
    var s1 := Run(Store(lists, angles + [a], false), AllOps(sc, [ik], Slot(Some(|angles|)), a));
    if memAngle != Some(a) {
      AngleStage(sc, ik, s1, a);
      var root, arms := RootOf(sc, ik), ArmJoints(sc, ik);
      forall d | 0 <= d < |angles| && Unreached(sc, lists, arms, d)
        ensures Unreached(sc, s1.lists, root.joints, d) && Unreached(sc, s1.lists, arms, d)
      {
        forall k | 0 <= k < |arms| ensures First(s1.lists[ListOf(sc, arms[k])]) != Some(d) {
          var l := ListOf(sc, arms[k]);
          if Written(sc, root.joints, l) {
            assert First(s1.lists[l]) == Some(|angles|);
          }
        }
      }
    }
  }

  /**
   * Changing only the angle of a one-IK 'ball' app whose joints all reach a
   * constraint: nothing throws, no array changes, every constraint a root or
   * connected joint reaches gets the angle, and the angle is recorded.
   */
  lemma {:induction false} AngleChange(sc: Scene, ik: nat, lists: seq<seq<Option<nat>>>, angles: seq<real>,
                    cfg: Config, memAngle: Option<real>)
    requires SceneOk(sc, [ik]) && ik < |sc.iks| && ListsFit(sc, |lists|) && SlotsFit(lists, |angles|)
    requires cfg.constraintType == Ball && memAngle != Some(cfg.constraintAngle)
    requires sc.iks[ik] != [] && AllReach(sc, ik, lists)
    ensures var r := OnChangeSpec(sc, [ik], lists, angles, cfg, Some(Ball), memAngle);
      var root, arms := RootOf(sc, ik), ArmJoints(sc, ik);
      && !r.store.thrown && r.store.lists == lists
      && (forall k :: 0 <= k < |root.joints| ==> Reaches(r.store, ListOf(sc, root.joints[k]), cfg.constraintAngle))
      && (forall k :: 0 <= k < |arms| ==> Reaches(r.store, ListOf(sc, arms[k]), cfg.constraintAngle))
      && (forall d :: 0 <= d < |angles| && Unreached(sc, lists, root.joints, d) && Unreached(sc, lists, arms, d) ==> r.store.angles[d] == angles[d])
      && r.constraintType == Some(Ball) && r.constraintAngle == Some(cfg.constraintAngle)
  {
    OneIk(sc, ik, Angle, cfg.constraintAngle);
    AngleIk(sc, ik, Store(lists, angles, false), cfg.constraintAngle);
  }

  /** Writes that stopped on a prefix of the joints stop the same way on all of them. */
  lemma {:induction false} AnglePrefixStops(sc: Scene, s: Store, p: seq<nat>, q: seq<nat>, a: real)
    requires JointsIn(sc, q) && p <= q && Run(s, AngleWrites(sc, p, a)).thrown
    ensures JointsIn(sc, p) && Run(s, AngleWrites(sc, q, a)) == Run(s, AngleWrites(sc, p, a))
  {
    assert JointsIn(sc, p);
    assert q == p + q[|p|..];
    AngleWritesAppend(sc, p, q[|p|..], a);
    RunStops(s, AngleWrites(sc, p, a), AngleWrites(sc, q[|p|..], a));
  }

  /** The joints of the first `n` chains come first among the joints of all of them. */
  lemma {:induction false} ChainJointsPrefix(sc: Scene, cs: seq<nat>, n: nat)
    requires LinksOk(sc) && ChainsIn(sc, cs) && n <= |cs|
    ensures ChainJoints(sc, cs[..n]) <= ChainJoints(sc, cs)
    decreases |cs|
  {
    if n < |cs| {
      var cs' := cs[..|cs| - 1];
      assert cs'[..n] == cs[..n];
      ChainJointsPrefix(sc, cs', n);
    } else {
      assert cs[..n] == cs;
    }
  }

  /** The joints of the first `n` entries come first among the joints of all of them. */
  lemma {:induction false} EntryJointsPrefix(sc: Scene, es: seq<SubChains>, n: nat)
    requires LinksOk(sc) && EntriesIn(sc, es) && n <= |es|
    ensures EntriesIn(sc, es[..n]) && EntryJoints(sc, es[..n]) <= EntryJoints(sc, es)
    decreases |es|
  {
    assert EntriesIn(sc, es[..n]);
    if n < |es| {
      var es' := es[..|es| - 1];
      assert es'[..n] == es[..n];
      assert EntriesIn(sc, es');
      EntryJointsPrefix(sc, es', n);
    } else {
      assert es[..n] == es;
    }
  }

  /** Once a prefix of the writes has thrown, the rest change nothing. */
  lemma {:induction false} PrefixStops(s: Store, p: seq<Op>, q: seq<Op>)
    requires p <= q && Run(s, p).thrown
    ensures Run(s, q) == Run(s, p)
  {
    assert q == p + q[|p|..];
    RunStops(s, p, q[|p|..]);
  }

  /** The writes for the first `n` IKs come first among the writes for all of them. */
  lemma {:induction false} AllOpsPrefix(sc: Scene, iks: seq<nat>, n: nat, w: RootWrite, a: real)
    requires SceneOk(sc, iks) && n <= |iks|
    ensures SceneOk(sc, iks[..n]) && AllOps(sc, iks[..n], w, a) <= AllOps(sc, iks, w, a)
    decreases |iks|
  {
    assert SceneOk(sc, iks[..n]);
    if n < |iks| {
      var iks' := iks[..|iks| - 1];
      assert iks'[..n] == iks[..n];
      assert SceneOk(sc, iks');
      AllOpsPrefix(sc, iks', n, w, a);
    } else {
      assert iks[..n] == iks;
    }
  }
}
