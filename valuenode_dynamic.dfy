/**
 * The "Dynamic" value node of the Synfig animation engine: a tip attached to a
 * moving origin by a radial spring and a torsion spring, whose value at an
 * animation time is found by integrating the oscillator's equations of motion
 * from the last time it was asked for.
 *
 * The node keeps two pieces of memory between calls, the polar state
 * [radius, radius', angle, angle'] and the last evaluated time, and chooses on
 * every call between replaying the initial conditions at time 0, rewinding to
 * time 0 and integrating forward.
 *
 * The floating-point numerics are left uninterpreted: vector magnitude and
 * angle, the polar-to-Cartesian conversion and the ODE integrator (with the
 * oscillator it integrates) are parameters of the node, gathered in `Numerics`.
 */
module ValueNodeDynamic {
  import opened Wrappers

  /** A 2D vector, `synfig::Vector`, over the reals. */
  datatype Vec = Vec(x: real, y: real)

  function Add(a: Vec, b: Vec): Vec { Vec(a.x + b.x, a.y + b.y) }

  function Sub(a: Vec, b: Vec): Vec { Vec(a.x - b.x, a.y - b.y) }

  /** The type tag of a value; only the two tags this node tells apart are named. */
  datatype ValueType = TypeVector | TypeReal | TypeOther(name: string)

  /** A typed value, as handed to the constructor. */
  datatype Value = VectorValue(vec: Vec) | RealValue(re: real) | OtherValue(name: string)

  function TypeOf(v: Value): ValueType
  {
    match v
    case VectorValue(_) => TypeVector
    case RealValue(_) => TypeReal
    case OtherValue(n) => TypeOther(n)
  }

  /**
   * A handle to a child value node of the animation graph: something that
   * yields a value of one type at every time.  Nodes of the types this node
   * never samples are kept only by their type name.
   */
  datatype Link = VectorLink(vecAt: real -> Vec) | RealLink(realAt: real -> real) | OtherLink(name: string)

  function LinkType(l: Link): ValueType
  {
    match l
    case VectorLink(_) => TypeVector
    case RealLink(_) => TypeReal
    case OtherLink(n) => TypeOther(n)
  }

  /** `ValueNode_Const::create(v)` for a vector. */
  function ConstVector(v: Vec): (l: Link)
    ensures IsConstVector(l, v)
  {
    VectorLink(_ => v)
  }

  /** `ValueNode_Const::create(r)` for a real. */
  function ConstReal(r: real): (l: Link)
    ensures IsConstReal(l, r)
  {
    RealLink(_ => r)
  }

  ghost predicate IsConstVector(l: Link, v: Vec)
  {
    l.VectorLink? && forall t :: l.vecAt(t) == v
  }

  ghost predicate IsConstReal(l: Link, r: real)
  {
    l.RealLink? && forall t :: l.realAt(t) == r
  }

  /** The oscillator's state [radius, radius', angle, angle']: always four reals. */
  type State = s: seq<real> | |s| == 4 witness [0.0, 0.0, 0.0, 0.0]

  /** The thrown exception of the constructor. */
  datatype Error = BadType(badType: ValueType)

  /**
   * The numerical collaborators the model does not interpret:
   * `mag` is `Vector::mag`, `angle` is the angle of a vector in radians,
   * `polar` is `Vector(radius, Angle::rad(angle))`, and `integrate` is the
   * adaptive integrator run on the oscillator, given the node's nine links
   * (which the oscillator samples), the start state, t0, t1 and the step hint.
   */
  datatype Numerics = Numerics(
    mag: Vec -> real,
    angle: Vec -> real,
    polar: (real, real) -> Vec,
    integrate: (seq<Link>, State, real, real, real) -> State)

  /** The node has nine links, numbered 0 to 8. */
  const LinkCount: int := 9

  /** Machine names of the nine links, in link order. */
  const ParamNames: seq<string> :=
    ["tip_static", "origin", "force", "damping", "friction", "spring", "torsion", "mass", "inertia"]

  /** A parameter descriptor: machine name, label and description of one link. */
  datatype ParamDesc = ParamDesc(name: string, localName: string, description: string)

  /**
   * `check_type`: the types a Dynamic node can be created for.  The node's
   * value is its origin plus an offset, so its own type, which the tip slot
   * takes, must be the origin slot's type.
   */
  function CheckType(t: ValueType): (ok: bool)
    ensures ok <==> SlotType(t, 0) == SlotType(t, 1)
  {
    t == TypeVector
  }

  /** The type that `set_link_vfunc` demands in slot `i` of a node of type `kind`. */
  function SlotType(kind: ValueType, i: int): Option<ValueType>
  {
    if i == 0 then Some(kind)
    else if i == 1 || i == 2 then Some(TypeVector)
    else if 3 <= i < LinkCount then Some(TypeReal)
    else None
  }

  predicate Accepts(kind: ValueType, i: int, t: ValueType)
  {
    SlotType(kind, i) == Some(t)
  }

  /** Slot 0 takes the node's own type, 1-2 vectors, 3-8 reals, and no other slot exists. */
  lemma AcceptedTypes(kind: ValueType, i: int, t: ValueType)
    ensures Accepts(kind, 0, t) <==> t == kind
    ensures i == 1 || i == 2 ==> (Accepts(kind, i, t) <==> t == TypeVector)
    ensures 3 <= i <= 8 ==> (Accepts(kind, i, t) <==> t == TypeReal)
    ensures i < 0 || i > 8 ==> !Accepts(kind, i, t)
  {
  }

  /** Every link holds a handle of the type its slot demands. */
  predicate WellTyped(kind: ValueType, links: seq<Link>)
  {
    |links| == LinkCount && forall i :: 0 <= i < LinkCount ==> Accepts(kind, i, LinkType(links[i]))
  }

  /** The links of a vector node, each of its slot's type. */
  type LinkTable = ls: seq<Link> | WellTyped(TypeVector, ls)
    witness [ConstVector(Vec(0.0, 0.0)), ConstVector(Vec(0.0, 0.0)), ConstVector(Vec(0.0, 0.0)),
             ConstReal(0.0), ConstReal(0.0), ConstReal(0.0), ConstReal(0.0), ConstReal(0.0), ConstReal(0.0)]

  /**
   * The links a new node gets: the seed as its static tip, the origin and force
   * at (0,0), damping and friction 0.1, and spring, torsion, mass and inertia 1.
   */
  function DefaultLinks(seed: Vec): (ls: LinkTable)
    ensures IsConstVector(ls[0], seed)
    ensures IsConstVector(ls[1], Vec(0.0, 0.0)) && IsConstVector(ls[2], Vec(0.0, 0.0))
    ensures IsConstReal(ls[3], 0.1) && IsConstReal(ls[4], 0.1)
    ensures forall i :: 5 <= i < LinkCount ==> IsConstReal(ls[i], 1.0)
  {
    [ConstVector(seed), ConstVector(Vec(0.0, 0.0)), ConstVector(Vec(0.0, 0.0)),
     ConstReal(0.1), ConstReal(0.1), ConstReal(1.0), ConstReal(1.0), ConstReal(1.0), ConstReal(1.0)]
  }

  /** The tip's offset from the origin at time `t`. */
  function Offset(links: LinkTable, t: real): Vec
  {
    assert Accepts(TypeVector, 0, LinkType(links[0])) && Accepts(TypeVector, 1, LinkType(links[1]));
    Sub(links[0].vecAt(t), links[1].vecAt(t))
  }

  function Origin(links: LinkTable, t: real): Vec
  {
    assert Accepts(TypeVector, 1, LinkType(links[1]));
    links[1].vecAt(t)
  }

  /**
   * The state `reset_state(t)` writes: the tip at rest at its static position,
   * in polar coordinates about the origin.
   */
  function InitialState(num: Numerics, links: LinkTable, t: real): (s: State)
    ensures s[1] == 0.0 && s[3] == 0.0
  {
    [num.mag(Offset(links, t)), 0.0, num.angle(Offset(links, t)), 0.0]
  }

  /** The three ways an evaluation can go. */
  datatype Path = ZeroReplay | Rewind | Forward

  /** Which path a call at time `t` takes when the node last evaluated at `lastTime`. */
  function PathOf(lastTime: real, t: real): Path
  {
    if t == lastTime && lastTime == 0.0 then ZeroReplay
    else if t < lastTime && lastTime > 0.0 then Rewind
    else Forward
  }

  /** The value a call returns and the memory it leaves behind. */
  datatype Evaluation = Evaluation(value: Vec, state: State, lastTime: real)

  /**
   * One call `operator()(t)` on a node whose memory is (`state`, `lastTime`)
   * and whose links are `links`.
   */
  function Eval(num: Numerics, links: LinkTable, state: State, lastTime: real, t: real): (e: Evaluation)
    ensures e.lastTime == t
    ensures e.value == Add(Origin(links, t), num.polar(e.state[0], e.state[2]))
  {
    var path := PathOf(lastTime, t);
    if path == ZeroReplay then
      var s := InitialState(num, links, 0.0);
      Evaluation(Add(Origin(links, 0.0), num.polar(s[0], s[2])), s, lastTime)
    else
      var start := if path == Rewind then InitialState(num, links, 0.0) else state;
      var t0 := if path == Rewind then 0.0 else lastTime;
      var x := num.integrate(links, start, t0, t, (t - t0) / 4.0);
      Evaluation(Add(Origin(links, t), num.polar(x[0], x[2])), x, t)
  }

  /**
   * At time 0 on a node that has not advanced, the result does not depend on
   * the cached state, so asking again returns the same value and memory.
   */
  lemma ZeroReplayIsIdempotent(num: Numerics, links: LinkTable, s1: State, s2: State)
    ensures Eval(num, links, s1, 0.0, 0.0) == Eval(num, links, s2, 0.0, 0.0)
    ensures Eval(num, links, s1, 0.0, 0.0).state == InitialState(num, links, 0.0)
    ensures Eval(num, links, s1, 0.0, 0.0).lastTime == 0.0
    ensures var e := Eval(num, links, s1, 0.0, 0.0); Eval(num, links, e.state, e.lastTime, 0.0) == e
  {
  }

  /**
   * A call at a time before an advanced `lastTime` (other than 0) returns what
   * a node freshly reset at time 0 returns, whatever the cached state was.
   */
  lemma RewindIsFreshEvaluation(num: Numerics, links: LinkTable, state: State, lastTime: real, t: real)
    requires t < lastTime && lastTime > 0.0 && t != 0.0
    ensures PathOf(lastTime, t) == Rewind
    ensures Eval(num, links, state, lastTime, t) == Eval(num, links, InitialState(num, links, 0.0), 0.0, t)
  {
  }

  /**
   * A rewind to exactly time 0 integrates over the empty interval [0, 0]; it
   * agrees with a fresh node's replay at 0 when the integrator leaves the state
   * alone on an empty interval.
   */
  lemma RewindToZero(num: Numerics, links: LinkTable, state: State, lastTime: real)
    requires lastTime > 0.0
    requires num.integrate(links, InitialState(num, links, 0.0), 0.0, 0.0, 0.0) == InitialState(num, links, 0.0)
    ensures PathOf(lastTime, 0.0) == Rewind
    ensures Eval(num, links, state, lastTime, 0.0) == Eval(num, links, InitialState(num, links, 0.0), 0.0, 0.0)
  {
  }

  /**
   * What a rewind to exactly 0 computes, with no assumption on the integrator:
   * the reset state integrated over [0, 0] with step hint 0.
   */
  lemma RewindToZeroIntegratesEmptyInterval(num: Numerics, links: LinkTable, state: State, lastTime: real)
    requires lastTime > 0.0
    ensures PathOf(lastTime, 0.0) == Rewind
    ensures Eval(num, links, state, lastTime, 0.0).state == num.integrate(links, InitialState(num, links, 0.0), 0.0, 0.0, 0.0)
    ensures Eval(num, links, state, lastTime, 0.0).lastTime == 0.0
  {
  }

  /**
   * On a node that has not advanced, a negative time is neither a replay nor a
   * rewind: the integrator runs from 0 backwards to `t`.
   */
  lemma NegativeTimeIntegratesBackward(num: Numerics, links: LinkTable, state: State, t: real)
    requires t < 0.0
    ensures PathOf(0.0, t) == Forward
    ensures Eval(num, links, state, 0.0, t).state == num.integrate(links, state, 0.0, t, t / 4.0)
  {
  }

  /**
   * The integrating path is taken exactly when the call is neither the replay
   * at 0 nor a rewind: a later time, the same non-zero time again, or an
   * earlier time while the last one is not positive.
   */
  lemma ForwardPathCases(lastTime: real, t: real)
    ensures PathOf(lastTime, t) == Forward <==>
              t > lastTime || (t == lastTime && lastTime != 0.0) || (t < lastTime && lastTime <= 0.0)
  {
  }

  /**
   * On the integrating path the cached state is integrated over [lastTime, t]
   * with a step hint of a quarter of the interval (negative when `t` is
   * earlier).
   */
  lemma ForwardIntegratesCachedState(num: Numerics, links: LinkTable, state: State, lastTime: real, t: real)
    requires t > lastTime || (t == lastTime && lastTime != 0.0) || (t < lastTime && lastTime <= 0.0)
    ensures PathOf(lastTime, t) == Forward
    ensures Eval(num, links, state, lastTime, t).state == num.integrate(links, state, lastTime, t, (t - lastTime) / 4.0)
  {
  }

  /**
   * Asking again for the frame last evaluated (other than 0) does not return
   * the cached result: the integrator is run again over the empty interval
   * [t, t] with step hint 0.
   */
  lemma SameFrameReintegrates(num: Numerics, links: LinkTable, state: State, t: real)
    requires t != 0.0
    ensures PathOf(t, t) == Forward
    ensures Eval(num, links, state, t, t).state == num.integrate(links, state, t, t, 0.0)
  {
  }

  /**
   * With the polar conversion inverting magnitude and angle, a node at time 0
   * that has not advanced sits at its static tip position: the spring is at
   * rest.
   */
  lemma ZeroReplayRestsAtTip(num: Numerics, links: LinkTable, state: State)
    requires forall v :: num.polar(num.mag(v), num.angle(v)) == v
    ensures Eval(num, links, state, 0.0, 0.0).value == links[0].vecAt(0.0)
  {
    var d := Offset(links, 0.0);
    assert num.polar(num.mag(d), num.angle(d)) == d;
  }

  /** One call `operator()(t)` as a function of the memory and the time, for a fixed node. */
  function Call(num: Numerics, links: LinkTable): (State, real, real) -> Evaluation
  {
    (state: State, lastTime: real, t: real) => Eval(num, links, state, lastTime, t)
  }

  /**
   * The results of successive steps at the times `ts`, each from the memory
   * (state, last time) the previous one left, starting from (`state`, `lastTime`).
   */
  function Run(step: (State, real, real) -> Evaluation, state: State, lastTime: real, ts: seq<real>): (es: seq<Evaluation>)
    ensures |es| == |ts|
    decreases |ts|
  {
    if ts == [] then []
    else
      var e := step(state, lastTime, ts[0]);
      [e] + Run(step, e.state, e.lastTime, ts[1..])
  }

  /** The results of successive calls at the times `ts`, starting from the memory (`state`, `lastTime`). */
  function Replay(num: Numerics, links: LinkTable, state: State, lastTime: real, ts: seq<real>): (es: seq<Evaluation>)
    ensures |es| == |ts|
  {
    Run(Call(num, links), state, lastTime, ts)
  }

  /** After each call of a replay the node's last evaluated time is that call's time. */
  lemma {:induction false} ReplayTracksTime(num: Numerics, links: LinkTable, state: State, lastTime: real, ts: seq<real>)
    ensures var es := Replay(num, links, state, lastTime, ts);
            forall k :: 0 <= k < |ts| ==> es[k].lastTime == ts[k]
    decreases |ts|
  {
    if ts != [] {
      var e := Eval(num, links, state, lastTime, ts[0]);
      ReplayUnfold(num, links, state, lastTime, ts);
      ReplayTracksTime(num, links, e.state, e.lastTime, ts[1..]);
    }
  }

  /** The cached state after the calls that produced `es`. */
  function FinalState(state: State, es: seq<Evaluation>): State
  {
    if es == [] then state else es[|es| - 1].state
  }

  /** The last evaluated time after the calls that produced `es`. */
  function FinalTime(lastTime: real, es: seq<Evaluation>): real
  {
    if es == [] then lastTime else es[|es| - 1].lastTime
  }

  /**
   * The node's behaviour on a run of calls depends only on its memory between
   * calls: replaying `ts1 + ts2` is replaying `ts1`, then `ts2` from where it left off.
   */
  lemma ReplayConcat(num: Numerics, links: LinkTable, state: State, lastTime: real, ts1: seq<real>, ts2: seq<real>)
    ensures Replay(num, links, state, lastTime, ts1 + ts2) ==
            Replay(num, links, state, lastTime, ts1) +
            Replay(num, links, FinalState(state, Replay(num, links, state, lastTime, ts1)),
                   FinalTime(lastTime, Replay(num, links, state, lastTime, ts1)), ts2)
  {
    RunConcat(Call(num, links), state, lastTime, ts1, ts2);
  }

  /** A run over `ts1 + ts2` is the run over `ts1`, then the run over `ts2` from the memory it left. */
  lemma {:induction false} RunConcat(step: (State, real, real) -> Evaluation, state: State, lastTime: real, ts1: seq<real>, ts2: seq<real>)
    ensures Run(step, state, lastTime, ts1 + ts2) ==
            Run(step, state, lastTime, ts1) +
            Run(step, FinalState(state, Run(step, state, lastTime, ts1)),
                FinalTime(lastTime, Run(step, state, lastTime, ts1)), ts2)
    decreases |ts1|
  {
    if ts1 == [] {
      assert ts1 + ts2 == ts2;
    } else {
      var e := step(state, lastTime, ts1[0]);
      RunConcat(step, e.state, e.lastTime, ts1[1..], ts2);
      var rest1 := Run(step, e.state, e.lastTime, ts1[1..]);
      var es1 := Run(step, state, lastTime, ts1);
      assert es1 == [e] + rest1;
      FinalOfCons(state, lastTime, e, rest1);
      var tail := Run(step, FinalState(e.state, rest1), FinalTime(e.lastTime, rest1), ts2);
      var both := ts1 + ts2;
      assert both[0] == ts1[0] && both[1..] == ts1[1..] + ts2;
      assert Run(step, state, lastTime, both) == [e] + (rest1 + tail);
      assert [e] + (rest1 + tail) == es1 + tail;
    }
  }

  /** The memory left by a run of calls is the memory left by all but its first call. */
  lemma FinalOfCons(state: State, lastTime: real, e: Evaluation, rest: seq<Evaluation>)
    ensures FinalState(state, [e] + rest) == FinalState(e.state, rest)
    ensures FinalTime(lastTime, [e] + rest) == FinalTime(e.lastTime, rest)
  {
    if rest != [] {
      assert ([e] + rest)[|rest|] == rest[|rest| - 1];
    }
  }

  /** One step of `Replay`. */
  lemma ReplayUnfold(num: Numerics, links: LinkTable, state: State, lastTime: real, ts: seq<real>)
    requires ts != []
    ensures var e := Eval(num, links, state, lastTime, ts[0]);
            Replay(num, links, state, lastTime, ts) == [e] + Replay(num, links, e.state, e.lastTime, ts[1..])
  {
  }

  /**
   * Scrubbing back erases the history: after any run of calls ending at an
   * advanced time, a call at an earlier non-zero time returns what a freshly
   * reset node returns.
   */
  lemma RewindForgetsHistory(num: Numerics, links: LinkTable, state: State, lastTime: real, ts: seq<real>, t: real)
    requires |ts| > 0 && t < ts[|ts| - 1] && ts[|ts| - 1] > 0.0 && t != 0.0
    ensures Replay(num, links, state, lastTime, ts + [t])[|ts|] == Eval(num, links, InitialState(num, links, 0.0), 0.0, t)
  {
    var es := Replay(num, links, state, lastTime, ts);
    ReplayConcat(num, links, state, lastTime, ts, [t]);
    ReplayTracksTime(num, links, state, lastTime, ts);
    RewindIsFreshEvaluation(num, links, FinalState(state, es), FinalTime(lastTime, es), t);
  }

  /**
   * During forward playback (strictly increasing times, the first after the
   * last evaluated one) no call resets: each one integrates the previous
   * call's state over the interval since the previous call.
   */
  lemma {:induction false} PlaybackIntegratesEachFrame(num: Numerics, links: LinkTable, state: State, lastTime: real, ts: seq<real>)
    requires |ts| > 0 && lastTime < ts[0]
    requires forall k :: 0 < k < |ts| ==> ts[k - 1] < ts[k]
    ensures var es := Replay(num, links, state, lastTime, ts);
            es[0].state == num.integrate(links, state, lastTime, ts[0], (ts[0] - lastTime) / 4.0) &&
            forall k :: 0 < k < |ts| ==>
              es[k].state == num.integrate(links, es[k - 1].state, ts[k - 1], ts[k], (ts[k] - ts[k - 1]) / 4.0)
    decreases |ts|
  {
    var es := Replay(num, links, state, lastTime, ts);
    ForwardIntegratesCachedState(num, links, state, lastTime, ts[0]);
    if |ts| > 1 {
      var e := es[0];
      PlaybackIntegratesEachFrame(num, links, e.state, e.lastTime, ts[1..]);
      var rest := Replay(num, links, e.state, e.lastTime, ts[1..]);
      assert es == [e] + rest;
      forall k | 0 < k < |ts|
        ensures es[k].state == num.integrate(links, es[k - 1].state, ts[k - 1], ts[k], (ts[k] - ts[k - 1]) / 4.0)
      {
        if k > 1 {
          assert es[k] == rest[k - 1] && es[k - 1] == rest[k - 2];
          assert ts[1..][k - 1] == ts[k] && ts[1..][k - 2] == ts[k - 1];
        }
      }
    }
  }

  /** The nine parameter descriptors, in link order. */
  const DefaultVocab: seq<ParamDesc> :=
    [ ParamDesc("tip_static", "Tip static", "Equilibrium tip position without external forces"),
      ParamDesc("origin", "Origin", "Basement of the dynamic system"),
      ParamDesc("force", "Force", "External force applied on the mass center of gravity"),
      ParamDesc("damping", "Damping coeficient", "Radial damping coeficient of the dynamic sytem"),
      ParamDesc("friction", "Friction coeficient", "Rotational friction coeficient of the dynamic sytem"),
      ParamDesc("spring", "Spring coeficient", "Radial spring coeficient of the dynamic system"),
      ParamDesc("torsion", "Torsion coeficient", "Torsion coeficient of the dynamic system"),
      ParamDesc("mass", "Mass", "Mass of the dynamic system"),
      ParamDesc("inertia", "Moment of inertia", "Moment of inertia of the dynamic system") ]

  /**
   * `get_children_vocab_vfunc`: the cached vocabulary when there is one,
   * otherwise the nine descriptors in link order.
   */
  function ChildrenVocab(cache: seq<ParamDesc>): (v: seq<ParamDesc>)
    ensures |cache| > 0 ==> v == cache
    ensures |cache| == 0 ==> |v| == LinkCount && forall i :: 0 <= i < LinkCount ==> v[i].name == ParamNames[i]
  {
    if |cache| > 0 then cache else DefaultVocab
  }

  /** No two links share a machine name, so a link is found by name unambiguously. */
  lemma ParamNamesDistinct()
    ensures forall i, j :: 0 <= i < j < LinkCount ==> ParamNames[i] != ParamNames[j]
  {
  }

  /** `ValueNode_Dynamic`: the node object with its links and its simulation memory. */
  class DynamicNode {
    /** The node's value type (`get_type()`); a vector for every node that exists. */
    const kind: ValueType
    const num: Numerics

    var tipStatic: Link
    var origin: Link
    var force: Link
    var damping: Link
    var friction: Link
    var spring: Link
    var torsion: Link
    var mass: Link
    var inertia: Link

    /** The node whose derivative the oscillator samples as the origin's velocity (`origin_d_`'s link). */
    var derivativeOf: Link

    /** [radius, radius', angle, angle'] */
    const state: array<real>
    var lastTime: real

    /** The cached parameter vocabulary. */
    var childrenVocab: seq<ParamDesc>

    /** The nine links in link order. */
    function Links(): (ls: seq<Link>)
      reads this`tipStatic, this`origin, this`force, this`damping, this`friction, this`spring, this`torsion, this`mass, this`inertia
      ensures |ls| == LinkCount
    {
      [tipStatic, origin, force, damping, friction, spring, torsion, mass, inertia]
    }

    ghost predicate Valid()
      reads this`tipStatic, this`origin, this`force, this`damping, this`friction, this`spring, this`torsion, this`mass, this`inertia
    {
      kind == TypeVector && state.Length == 4 && WellTyped(kind, Links())
    }

    /** The constructor for a vector seed: default links and the state at rest at time 0. */
    constructor (seed: Vec, num: Numerics)
      ensures this.num == num
      ensures Valid() && fresh(state)
      ensures Links() == DefaultLinks(seed)
      ensures IsConstVector(tipStatic, seed)
      ensures IsConstVector(origin, Vec(0.0, 0.0)) && IsConstVector(force, Vec(0.0, 0.0))
      ensures IsConstReal(damping, 0.1) && IsConstReal(friction, 0.1)
      ensures IsConstReal(spring, 1.0) && IsConstReal(torsion, 1.0)
      ensures IsConstReal(mass, 1.0) && IsConstReal(inertia, 1.0)
      ensures IsConstVector(derivativeOf, Vec(0.0, 0.0))
      ensures state[..] == InitialState(num, Links(), 0.0) && lastTime == 0.0
      ensures childrenVocab == DefaultVocab
    {
      kind := TypeVector;
      this.num := num;
      childrenVocab := DefaultVocab;
      origin := ConstVector(Vec(0.0, 0.0));
      force := ConstVector(Vec(0.0, 0.0));
      damping := ConstReal(0.1);
      friction := ConstReal(0.1);
      spring := ConstReal(1.0);
      torsion := ConstReal(1.0);
      mass := ConstReal(1.0);
      inertia := ConstReal(1.0);
      tipStatic := ConstVector(seed);
      state := new real[4];
      new;
      ResetState(0.0);
      derivativeOf := ConstVector(Vec(0.0, 0.0));
      lastTime := 0.0;
    }

    /** `ValueNode_Dynamic::create`: a node for a vector seed; any other type throws `BadType`. */
    static method Create(seed: Value, num: Numerics) returns (r: Result<DynamicNode, Error>)
      ensures r.Success? <==> CheckType(TypeOf(seed))
      ensures r.Failure? ==> r.error == BadType(TypeOf(seed))
      ensures r.Success? ==> fresh(r.value) && fresh(r.value.state) && r.value.Valid() && r.value.num == num
      ensures r.Success? ==> r.value.lastTime == 0.0 && IsConstVector(r.value.tipStatic, seed.vec)
      ensures r.Success? ==> IsConstVector(r.value.origin, Vec(0.0, 0.0)) && IsConstVector(r.value.force, Vec(0.0, 0.0))
      ensures r.Success? ==> IsConstReal(r.value.damping, 0.1) && IsConstReal(r.value.friction, 0.1)
      ensures r.Success? ==> IsConstReal(r.value.spring, 1.0) && IsConstReal(r.value.torsion, 1.0)
      ensures r.Success? ==> IsConstReal(r.value.mass, 1.0) && IsConstReal(r.value.inertia, 1.0)
      ensures r.Success? ==> IsConstVector(r.value.derivativeOf, Vec(0.0, 0.0)) && r.value.childrenVocab == DefaultVocab
      ensures r.Success? ==> r.value.Links() == DefaultLinks(seed.vec)
      ensures r.Success? ==> r.value.state[..] == InitialState(num, r.value.Links(), 0.0)
    {
      match seed
      case VectorValue(v) =>
        var node := new DynamicNode(v, num);
        r := Success(node);
      case _ =>
        r := Failure(BadType(TypeOf(seed)));
    }

    /** `reset_state(t)`: put the tip at rest at its static position at time `t`. */
    method ResetState(t: real)
      requires Valid()
      modifies state
      ensures Valid()
      ensures state[..] == InitialState(num, Links(), t)
      ensures lastTime == old(lastTime)
    {
      var d := Offset(Links(), t);
      state[0] := num.mag(d);
      state[1] := 0.0;
      state[2] := num.angle(d);
      state[3] := 0.0;
    }

    /** `operator()(t)`: the node's value at time `t`, updating its memory. */
    method Evaluate(t: real) returns (v: Vec)
      requires Valid()
      modifies this, state
      ensures Valid() && Links() == old(Links()) && childrenVocab == old(childrenVocab)
      ensures var e := Eval(num, old(Links()), old(state[..]), old(lastTime), t);
              v == e.value && state[..] == e.state && lastTime == e.lastTime
      ensures PathOf(old(lastTime), t) == ZeroReplay ==> derivativeOf == old(derivativeOf)
      ensures PathOf(old(lastTime), t) != ZeroReplay ==> derivativeOf == origin
    {
      ghost var links := Links();
      var t0 := lastTime;
      var t1 := t;
      if t1 == t0 && t0 == 0.0 {
        ResetState(0.0);
        v := Add(Origin(Links(), 0.0), num.polar(state[0], state[2]));
        return;
      }
      if t1 < t0 && t0 > 0.0 {
        ResetState(0.0);
        lastTime := 0.0;
        t0 := 0.0;
      }
      var step := (t1 - t0) / 4.0;
      derivativeOf := origin;
      var x := num.integrate(Links(), state[..], t0, t1, step);
      assert x == Eval(num, links, old(state[..]), old(lastTime), t).state;
      lastTime := t;
      state[0], state[1], state[2], state[3] := x[0], x[1], x[2], x[3];
      assert state[..] == x;
      v := Add(Origin(Links(), t), num.polar(x[0], x[2]));
    }

    /** `set_link_vfunc`: store `value` in slot `i` when its type is the slot's. */
    method SetLink(i: int, value: Link) returns (ok: bool)
      requires Valid()
      modifies this
      ensures Valid()
      ensures ok <==> Accepts(kind, i, LinkType(value))
      ensures ok ==> Links() == old(Links())[i := value] && GetLink(i) == Some(value)
      ensures !ok ==> Links() == old(Links())
      ensures lastTime == old(lastTime) && derivativeOf == old(derivativeOf) && childrenVocab == old(childrenVocab)
    {
      ok := false;
      if i == 0 {
        if LinkType(value) == kind { tipStatic := value; ok := true; }
      } else if i == 1 {
        if LinkType(value) == TypeVector { origin := value; ok := true; }
      } else if i == 2 {
        if LinkType(value) == TypeVector { force := value; ok := true; }
      } else if i == 3 {
        if LinkType(value) == TypeReal { damping := value; ok := true; }
      } else if i == 4 {
        if LinkType(value) == TypeReal { friction := value; ok := true; }
      } else if i == 5 {
        if LinkType(value) == TypeReal { spring := value; ok := true; }
      } else if i == 6 {
        if LinkType(value) == TypeReal { torsion := value; ok := true; }
      } else if i == 7 {
        if LinkType(value) == TypeReal { mass := value; ok := true; }
      } else if i == 8 {
        if LinkType(value) == TypeReal { inertia := value; ok := true; }
      }
      assert ok ==> Links() == old(Links())[i := value];
      forall j | 0 <= j < LinkCount
        ensures Accepts(kind, j, LinkType(Links()[j]))
      {
        assert Accepts(kind, j, LinkType(old(Links())[j]));
      }
    }

    /** `get_link_vfunc`: the handle in slot `i`, or null outside 0-8. */
    function GetLink(i: int): (h: Option<Link>)
      reads this
      ensures 0 <= i < LinkCount ==> h == Some(Links()[i])
      ensures !(0 <= i < LinkCount) ==> h == None
    {
      match i
      case 0 => Some(tipStatic)
      case 1 => Some(origin)
      case 2 => Some(force)
      case 3 => Some(damping)
      case 4 => Some(friction)
      case 5 => Some(spring)
      case 6 => Some(torsion)
      case 7 => Some(mass)
      case 8 => Some(inertia)
      case _ => None
    }
  }
}
