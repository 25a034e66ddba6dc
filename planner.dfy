/** The decision logic of the sunnypilot longitudinal planner extension: the mode
    transition state machine with its bounded counter, the acceleration hand-over
    between the MPC and end-to-end outputs, the choice of speed target, and two small
    predicates. The sub-controllers it consults are given as inputs. */
module Planner {

  datatype Option<T> = None | Some(value: T)

  const AccMode := "acc"
  const BlendedMode := "blended"
  const CruiseKey := "cruise"
  const SccVisionKey := "scc_v"

  /** Number of planner steps over which a transition is blended in. */
  const TransitionSteps: int := 20

  /** Model generation from which the models are of the `mlsim` kind. */
  const MlsimGeneration: int := 11

  /** Speed above which (m/s) the end-to-end deceleration is blended in. */
  const BlendMinSpeed: real := 5.0

  function Min(x: real, y: real): real { if x <= y then x else y }
  function Max(x: real, y: real): real { if x <= y then y else x }

  /** The MPC mode: none while dynamic experimental control is inactive, otherwise
      the mode it reports. */
  function GetMpcMode(decActive: bool, decMode: string): (r: Option<string>)
    ensures r.None? <==> !decActive
    ensures r.Some? ==> r.value == decMode
  {
    if !decActive then None else Some(decMode)
  }

  // ---------------------------------------------------------------------------
  // Target selection

  /** One candidate speed target: its name, speed and acceleration. */
  datatype Target = Target(key: string, v: real, a: real)

  /** The index Python's `min` over an insertion-ordered dictionary picks:
      a target of least speed, the first one among equals. */
  function FirstMinIndex(targets: seq<Target>): (i: nat)
    requires |targets| > 0
    ensures i < |targets|
    ensures forall j :: 0 <= j < |targets| ==> targets[i].v <= targets[j].v
    ensures forall j :: 0 <= j < i ==> targets[i].v < targets[j].v
    decreases |targets|
  {
    if |targets| == 1 then 0
    else
      var k := 1 + FirstMinIndex(targets[1..]);
      if targets[0].v <= targets[k].v then 0 else k
  }

  /** `update_targets` once the controllers have run: the cruise speed capped by the
      speed-limit controller, against the vision turn controller's target. */
  function UpdateTargets(vCruise: real, vCruiseSlc: real, aEgo: real, sccVTarget: real, sccATarget: real): (r: Target)
    ensures r.v <= vCruise && r.v <= vCruiseSlc && r.v <= sccVTarget
    ensures r.key == CruiseKey <==> Min(vCruise, vCruiseSlc) <= sccVTarget
    ensures r.key == CruiseKey ==> r == Target(CruiseKey, Min(vCruise, vCruiseSlc), aEgo)
    ensures r.key != CruiseKey ==> r == Target(SccVisionKey, sccVTarget, sccATarget)
  {
    var vCruiseFinal := Min(vCruise, vCruiseSlc);
    var targets := [Target(CruiseKey, vCruiseFinal, aEgo), Target(SccVisionKey, sccVTarget, sccATarget)];
    targets[FirstMinIndex(targets)]
  }

  // ---------------------------------------------------------------------------
  // Transition state machine

  /** The transition state: the blend counter and the last mode seen. */
  datatype Transition = Transition(counter: int, lastMode: string)

  const InitialTransition := Transition(0, AccMode)

  /** `handle_mode_transition`: remembers the mode, and restarts the blend only on
      entering the blended mode. */
  function ModeTransition(t: Transition, mode: string): (r: Transition)
    ensures r.lastMode == mode
    ensures r.counter == 0 || r.counter == t.counter
    ensures r.counter != t.counter ==> t.lastMode != mode && mode == BlendedMode
    ensures t.lastMode != mode && mode == BlendedMode ==> r.counter == 0
  {
    if t.lastMode != mode then
      Transition(if mode == BlendedMode then 0 else t.counter, mode)
    else t
  }

  /** Handling the same mode twice is handling it once. */
  lemma ModeTransitionIdempotent(t: Transition, mode: string)
    ensures ModeTransition(ModeTransition(t, mode), mode) == ModeTransition(t, mode)
  {
  }

  /** The counter after `blend_accel_transition`: one more while dynamic experimental
      control is enabled and the blend is unfinished, otherwise unchanged. */
  function BlendCounter(counter: int, decEnabled: bool): (c: int)
    ensures counter <= TransitionSteps ==> c <= TransitionSteps
    ensures c == counter || c == counter + 1
    ensures c == counter + 1 <==> decEnabled && counter < TransitionSteps
  {
    if decEnabled && counter < TransitionSteps then counter + 1 else counter
  }

  /** The acceleration `blend_accel_transition` returns, given the counter before the
      call; `sigmoid` stands for the logistic weight of the end-to-end deceleration. */
  function BlendAccel(counter: int, decEnabled: bool, mpcAccel: real, e2eAccel: real, vEgo: real, sigmoid: real): (a: real)
    ensures !(decEnabled && counter < TransitionSteps) ==> a == Min(mpcAccel, e2eAccel)
    ensures !(vEgo > BlendMinSpeed && e2eAccel < 0.0) ==> a == Min(mpcAccel, e2eAccel)
    ensures vEgo > BlendMinSpeed && e2eAccel < 0.0 && mpcAccel < 0.0 && e2eAccel > mpcAccel ==> a == mpcAccel
  {
    if decEnabled && counter < TransitionSteps && vEgo > BlendMinSpeed && e2eAccel < 0.0 then
      if mpcAccel < 0.0 && e2eAccel > mpcAccel then mpcAccel
      else
        var progress := (counter + 1) as real / TransitionSteps as real;
        var blendFactor := 1.0 - (1.0 - progress) * (1.0 - sigmoid);
        mpcAccel + (e2eAccel - mpcAccel) * blendFactor
    else Min(mpcAccel, e2eAccel)
  }

  /** While blending, the result lies between the MPC and the end-to-end accelerations. */
  lemma BlendWithinBounds(counter: int, decEnabled: bool, mpcAccel: real, e2eAccel: real, vEgo: real, sigmoid: real)
    requires 0 <= counter && 0.0 <= sigmoid <= 1.0
    ensures Min(mpcAccel, e2eAccel) <= BlendAccel(counter, decEnabled, mpcAccel, e2eAccel, vEgo, sigmoid)
                                    <= Max(mpcAccel, e2eAccel)
  {
    if decEnabled && counter < TransitionSteps && vEgo > BlendMinSpeed && e2eAccel < 0.0
       && !(mpcAccel < 0.0 && e2eAccel > mpcAccel) {
      var progress := (counter + 1) as real / TransitionSteps as real;
      assert 0.0 <= progress <= 1.0;
      var remaining, weight := 1.0 - progress, 1.0 - sigmoid;
      NonNegProduct(remaining, weight);
      NonNegProduct(remaining, sigmoid);
      assert remaining * weight + remaining * sigmoid == remaining;
      var blendFactor := 1.0 - remaining * weight;
      assert 0.0 <= blendFactor <= 1.0;
      ScaleBetween(mpcAccel, e2eAccel, blendFactor);
    }
  }

  /** On the last step of a transition the hand-over is complete: the end-to-end
      acceleration is returned unchanged. */
  lemma LastStepReturnsE2e(decEnabled: bool, mpcAccel: real, e2eAccel: real, vEgo: real, sigmoid: real)
    requires decEnabled && vEgo > BlendMinSpeed && e2eAccel < 0.0
    requires !(mpcAccel < 0.0 && e2eAccel > mpcAccel)
    ensures BlendAccel(TransitionSteps - 1, decEnabled, mpcAccel, e2eAccel, vEgo, sigmoid) == e2eAccel
  {
  }

  lemma NonNegProduct(a: real, b: real)
    requires 0.0 <= a && 0.0 <= b
    ensures 0.0 <= a * b
  {
  }

  /** Moving from `m` towards `e` by a fraction in [0, 1] stays between the two. */
  lemma ScaleBetween(m: real, e: real, f: real)
    requires 0.0 <= f <= 1.0
    ensures m <= e ==> m <= m + (e - m) * f <= e
    ensures e <= m ==> e <= m + (e - m) * f <= m
  {
    var g := 1.0 - f;
    assert (e - m) * f + (e - m) * g == e - m;
    if m <= e {
      NonNegProduct(e - m, f);
      NonNegProduct(e - m, g);
    } else {
      NonNegProduct(m - e, f);
      NonNegProduct(m - e, g);
      assert (m - e) * f == -((e - m) * f);
      assert (m - e) * g == -((e - m) * g);
    }
  }

  /** What happens to the transition state in one planner step. */
  datatype PlannerEvent = ModeUpdate(mode: string) | BlendCall(decEnabled: bool)

  function Step(t: Transition, e: PlannerEvent): Transition
  {
    match e
    case ModeUpdate(mode) => ModeTransition(t, mode)
    case BlendCall(decEnabled) => Transition(BlendCounter(t.counter, decEnabled), t.lastMode)
  }

  function Run(t: Transition, events: seq<PlannerEvent>): Transition
    decreases |events|
  {
    if events == [] then t else Run(Step(t, events[0]), events[1..])
  }

  /** The counter never leaves `[0, TransitionSteps]`, whatever the planner does. */
  lemma {:induction false} RunKeepsCounterBounded(t: Transition, events: seq<PlannerEvent>)
    requires 0 <= t.counter <= TransitionSteps
    ensures 0 <= Run(t, events).counter <= TransitionSteps
    decreases |events|
  {
    if events != [] {
      RunKeepsCounterBounded(Step(t, events[0]), events[1..]);
    }
  }

  /** Running a prefix one event longer is taking that event first. */
  lemma RunPrefixFirst(t: Transition, events: seq<PlannerEvent>, i: nat)
    requires i < |events|
    ensures Run(t, events[..i + 1]) == Run(Step(t, events[0]), events[1..][..i])
  {
    assert events[..i + 1][1..] == events[1..][..i];
  }

  /** The counter only goes down by entering the blended mode from another mode:
      some step handles `'blended'` while the last mode seen before it was different. */
  lemma {:induction false} CounterDropsOnlyOnBlendedEntry(t: Transition, events: seq<PlannerEvent>)
    requires Run(t, events).counter < t.counter
    ensures exists i :: 0 <= i < |events| && events[i] == ModeUpdate(BlendedMode)
                        && Run(t, events[..i]).lastMode != BlendedMode
    decreases |events|
  {
    assert events != [];
    var next := Step(t, events[0]);
    if next.counter < t.counter {
      assert events[0] == ModeUpdate(BlendedMode) && t.lastMode != BlendedMode;
      assert events[..0] == [];
    } else {
      CounterDropsOnlyOnBlendedEntry(next, events[1..]);
      var i :| 0 <= i < |events[1..]| && events[1..][i] == ModeUpdate(BlendedMode)
               && Run(next, events[1..][..i]).lastMode != BlendedMode;
      RunPrefixFirst(t, events, i);
      assert events[i + 1] == ModeUpdate(BlendedMode);
    }
  }

  /** With dynamic experimental control enabled, `k` planner steps advance the counter
      by `k`, saturating at the step count. */
  lemma {:induction false} EnabledBlendsSaturate(t: Transition, k: nat)
    requires 0 <= t.counter <= TransitionSteps
    ensures Run(t, seq(k, _ => BlendCall(true))).counter
            == if t.counter + k <= TransitionSteps then t.counter + k else TransitionSteps
    decreases k
  {
    var events := seq(k, _ => BlendCall(true));
    if k > 0 {
      assert events[1..] == seq(k - 1, _ => BlendCall(true));
      EnabledBlendsSaturate(Step(t, events[0]), k - 1);
    }
  }

  /** The planner extension's state the source keeps in fields. */
  class LongitudinalPlannerSP {
    var transitionCounter: int
    var transitionSteps: int
    var lastMode: string
    /** Generation of the active model bundle, if any. */
    const generation: Option<int>

    ghost predicate Valid()
      reads this
    {
      transitionSteps == TransitionSteps && 0 <= transitionCounter <= transitionSteps
    }

    function TransitionState(): Transition
      reads this
    {
      Transition(transitionCounter, lastMode)
    }

    constructor (generation: Option<int>)
      ensures Valid()
      ensures TransitionState() == InitialTransition
      ensures this.generation == generation
    {
      this.generation := generation;
      new;
      TransitionInit();
    }

    /** Whether the active model is of the `mlsim` kind: an unknown generation counts
        as the default model, which is; a known one is from generation 11 on. */
    function Mlsim(): (r: bool)
      ensures generation.None? ==> r
      ensures generation.Some? ==> (r <==> MlsimGeneration <= generation.value)
    {
      generation.None? || generation.value >= MlsimGeneration
    }

    /** `transition_init`: no transition under way, in the ACC mode. */
    method TransitionInit()
      modifies this`transitionCounter, this`transitionSteps, this`lastMode
      ensures Valid()
      ensures transitionCounter == 0 && transitionSteps == 20 && lastMode == AccMode
    {
      transitionCounter := 0;
      transitionSteps := 20;
      lastMode := AccMode;
    }

    method HandleModeTransition(mode: string)
      requires Valid()
      modifies this`transitionCounter, this`lastMode
      ensures Valid()
      ensures TransitionState() == ModeTransition(old(TransitionState()), mode)
    {
      if lastMode != mode {
        if mode == BlendedMode {
          transitionCounter := 0;
        }
        lastMode := mode;
      }
    }

    method BlendAccelTransition(mpcAccel: real, e2eAccel: real, vEgo: real, decEnabled: bool, sigmoid: real)
      returns (accel: real)
      requires Valid()
      modifies this`transitionCounter
      ensures Valid()
      ensures transitionCounter == BlendCounter(old(transitionCounter), decEnabled)
      ensures accel == BlendAccel(old(transitionCounter), decEnabled, mpcAccel, e2eAccel, vEgo, sigmoid)
    {
      if decEnabled {
        if transitionCounter < transitionSteps {
          transitionCounter := transitionCounter + 1;
          var progress := transitionCounter as real / transitionSteps as real;
          if vEgo > BlendMinSpeed && e2eAccel < 0.0 {
            if mpcAccel < 0.0 && e2eAccel > mpcAccel {
              return mpcAccel;
            }
            var blendFactor := 1.0 - (1.0 - progress) * (1.0 - sigmoid);
            var blended := mpcAccel + (e2eAccel - mpcAccel) * blendFactor;
            return blended;
          }
        }
      }
      return Min(mpcAccel, e2eAccel);
    }
  }
}
