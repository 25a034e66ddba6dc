/** The on-road experimental-mode button: whether a click may flip the persisted
    `ExperimentalMode` flag, the edge-triggered cache of the control state, the
    rotation angle of the wheel icon, the one-shot icon refresh, and what is drawn. */
module Buttons {
  import opened Settings
  import opened ButtonGeometry

  const ExperimentalModeKey := "ExperimentalMode"
  const ExperimentalModeConfirmedKey := "ExperimentalModeConfirmed"
  const CustomStockLongPlannerKey := "CustomStockLongPlanner"
  /** Ephemeral key in the in-memory store asking for the wheel image to be reloaded. */
  const UpdateWheelImageKey := "UpdateWheelImage"

  /** Opacity of the round background, whatever the state. */
  const BackgroundOpacity: real := 0.6
  /** Icon opacity when the button is idle and engageable. */
  const IconOpacity: real := 0.6
  /** Icon opacity when the button is held down or not engageable. */
  const DimmedIconOpacity: real := 0.5
  /** Alpha of the black background brush. */
  const BackgroundAlpha: int := 166

  /** The parts of `carParams` the click handler reads; `hasLongitudinalControl`
      stands for the result of the helper of that name. */
  datatype CarParams = CarParams(hasLongitudinalControl: bool, pcmCruiseSpeed: bool)

  /** The parts of `controlsState` the button reads. */
  datatype ControlsState = ControlsState(engageable: bool, enabled: bool, experimentalMode: bool)

  /** The parts of the UI scene the button reads. */
  datatype Scene = Scene(steeringAngleDeg: real, rotatingWheel: bool)

  /** Whether a click may change the experimental-mode flag: the car must be under
      openpilot longitudinal control, or use the stock planner with the custom option
      while cruise speed is not PCM-controlled; and the user must have confirmed the mode. */
  function CanChange(cp: CarParams, params: Store): (r: bool)
    ensures r ==> GetBool(params, ExperimentalModeConfirmedKey)
    ensures cp.hasLongitudinalControl ==> (r <==> GetBool(params, ExperimentalModeConfirmedKey))
    ensures !cp.hasLongitudinalControl && cp.pcmCruiseSpeed ==> !r
    ensures !cp.hasLongitudinalControl && !cp.pcmCruiseSpeed ==>
              (r <==> GetBool(params, CustomStockLongPlannerKey) && GetBool(params, ExperimentalModeConfirmedKey))
  {
    (cp.hasLongitudinalControl || (!cp.pcmCruiseSpeed && GetBool(params, CustomStockLongPlannerKey)))
      && GetBool(params, ExperimentalModeConfirmedKey)
  }

  /** The settings store after a click: when the click is allowed, the flag is set to
      the negation of the button's cached mode (not of the stored flag); otherwise,
      and for every other key in any case, the store is left as it was. */
  function ChangeModeStore(params: Store, cp: CarParams, cachedExperimentalMode: bool): (r: Store)
    ensures !CanChange(cp, params) ==> r == params
    ensures CanChange(cp, params) ==> GetBool(r, ExperimentalModeKey) == !cachedExperimentalMode
    ensures r - {ExperimentalModeKey} == params - {ExperimentalModeKey}
  {
    if CanChange(cp, params) then PutBool(params, ExperimentalModeKey, !cachedExperimentalMode) else params
  }

  /** A click while the cached mode agrees with the stored flag flips the stored flag. */
  lemma ClickTogglesSyncedFlag(params: Store, cp: CarParams, cachedExperimentalMode: bool)
    requires CanChange(cp, params)
    requires GetBool(params, ExperimentalModeKey) == cachedExperimentalMode
    ensures GetBool(ChangeModeStore(params, cp, cachedExperimentalMode), ExperimentalModeKey)
            == !GetBool(params, ExperimentalModeKey)
  {
  }

  /** A click that lands after the stored flag changed but before the cache caught up
      writes back the value already stored: the flag does not flip. */
  lemma ClickBeforeSyncKeepsFlag(params: Store, cp: CarParams, cachedExperimentalMode: bool)
    requires CanChange(cp, params)
    requires GetBool(params, ExperimentalModeKey) != cachedExperimentalMode
    ensures GetBool(ChangeModeStore(params, cp, cachedExperimentalMode), ExperimentalModeKey)
            == GetBool(params, ExperimentalModeKey)
  {
  }

  /** What `updateState` reads and writes, as a value. */
  datatype ButtonState = ButtonState(
    experimentalMode: bool,
    engageable: bool,
    rotatingWheel: bool,
    steeringAngleDeg: real,
    paramsMemory: Store)

  /** One `updateState` tick: the new state, how many repaints were requested,
      and whether the icon was reloaded. */
  datatype TickOutcome = TickOutcome(next: ButtonState, repaints: nat, iconUpdated: bool)

  /** The mode pair differs from the one the control state yields. */
  predicate ModeChanged(s: ButtonState, cs: ControlsState) {
    cs.experimentalMode != s.experimentalMode || (cs.engageable || cs.enabled) != s.engageable
  }

  /** The edge trigger looks at the two cached booleans and nothing else: two states
      that agree on them see the same change. */
  lemma ModeEdgeComparesOnlyModePair(s: ButtonState, s': ButtonState, cs: ControlsState)
    requires s.experimentalMode == s'.experimentalMode && s.engageable == s'.engageable
    ensures ModeChanged(s, cs) == ModeChanged(s', cs)
    ensures !ModeChanged(s, cs) <==> s.experimentalMode == cs.experimentalMode && s.engageable == (cs.engageable || cs.enabled)
  {
  }

  /** The wheel rotates and the scene's angle differs from the tracked one. */
  predicate AngleChanged(s: ButtonState, scene: Scene) {
    scene.rotatingWheel && s.steeringAngleDeg != scene.steeringAngleDeg
  }

  /** The specification of `updateState`. */
  function Tick(s: ButtonState, cs: ControlsState, scene: Scene): (o: TickOutcome)
    // the mode pair always ends up equal to the control state's
    ensures o.next.engageable == (cs.engageable || cs.enabled)
    ensures o.next.experimentalMode == cs.experimentalMode
    // the angle tracks the scene when the wheel rotates, and is 0 otherwise
    ensures o.next.rotatingWheel == scene.rotatingWheel
    ensures o.next.steeringAngleDeg == if scene.rotatingWheel then scene.steeringAngleDeg else 0.0
    // one repaint per changed block, none when nothing the picture shows changed
    ensures o.repaints <= 2
    ensures o.repaints == 0 <==> !ModeChanged(s, cs) && !AngleChanged(s, scene)
    ensures o.repaints == 2 <==> ModeChanged(s, cs) && AngleChanged(s, scene)
    // the icon is reloaded exactly when the refresh flag was set
    ensures o.iconUpdated <==> GetBool(s.paramsMemory, UpdateWheelImageKey)
  {
    var eng := cs.engageable || cs.enabled;
    var modeRepaint := if ModeChanged(s, cs) then 1 else 0;
    var angleRepaint := if AngleChanged(s, scene) then 1 else 0;
    var angle :=
      if AngleChanged(s, scene) then scene.steeringAngleDeg
      else if !scene.rotatingWheel then 0.0
      else s.steeringAngleDeg;
    var refresh := GetBool(s.paramsMemory, UpdateWheelImageKey);
    var memory := if refresh then Remove(s.paramsMemory, UpdateWheelImageKey) else s.paramsMemory;
    TickOutcome(
      ButtonState(cs.experimentalMode, eng, scene.rotatingWheel, angle, memory),
      modeRepaint + angleRepaint,
      refresh)
  }

  /** The refresh flag is consumed exactly when it was set, so it reads as unset
      afterwards; every other key of the in-memory store is left as it was. */
  lemma TickConsumesRefreshFlag(s: ButtonState, cs: ControlsState, scene: Scene)
    ensures !GetBool(Tick(s, cs, scene).next.paramsMemory, UpdateWheelImageKey)
    ensures Tick(s, cs, scene).next.paramsMemory - {UpdateWheelImageKey} == s.paramsMemory - {UpdateWheelImageKey}
    ensures !GetBool(s.paramsMemory, UpdateWheelImageKey) ==> Tick(s, cs, scene).next.paramsMemory == s.paramsMemory
  {
  }

  /** A second tick with the same inputs (nobody having set the refresh flag in between)
      changes nothing, requests no repaint and does not reload the icon. */
  lemma SecondTickIsQuiet(s: ButtonState, cs: ControlsState, scene: Scene)
    ensures var first := Tick(s, cs, scene).next;
            Tick(first, cs, scene) == TickOutcome(first, 0, false)
  {
  }

  /** Switching the rotating wheel off resets the angle without asking for a repaint
      of its own: the icon is drawn upright only at the next repaint. */
  lemma WheelOffResetsAngleSilently(s: ButtonState, cs: ControlsState, scene: Scene)
    requires !scene.rotatingWheel && !ModeChanged(s, cs)
    ensures Tick(s, cs, scene).next.steeringAngleDeg == 0.0
    ensures Tick(s, cs, scene).repaints == 0
  {
  }

  /** Totals over a run of ticks that all see the same inputs. */
  datatype RunOutcome = RunOutcome(last: ButtonState, repaints: nat, iconUpdates: nat)

  function RunTicks(s: ButtonState, cs: ControlsState, scene: Scene, n: nat): RunOutcome
    decreases n
  {
    if n == 0 then RunOutcome(s, 0, 0)
    else
      var o := Tick(s, cs, scene);
      var rest := RunTicks(o.next, cs, scene, n - 1);
      RunOutcome(rest.last, o.repaints + rest.repaints, (if o.iconUpdated then 1 else 0) + rest.iconUpdates)
  }

  /** From a state a tick leaves unchanged, any number of ticks does nothing. */
  lemma {:induction false} SettledRunIsQuiet(s: ButtonState, cs: ControlsState, scene: Scene, n: nat)
    requires Tick(s, cs, scene) == TickOutcome(s, 0, false)
    ensures RunTicks(s, cs, scene, n) == RunOutcome(s, 0, 0)
    decreases n
  {
    if n > 0 {
      SettledRunIsQuiet(s, cs, scene, n - 1);
    }
  }

  /** Edge triggering over time: however many ticks see the same inputs, every repaint
      and the icon reload happen at the first one, so at most two repaints and one reload. */
  lemma {:induction false} SteadyInputsRepaintOnlyFirstTick(s: ButtonState, cs: ControlsState, scene: Scene, n: nat)
    requires n > 0
    ensures RunTicks(s, cs, scene, n).repaints == Tick(s, cs, scene).repaints <= 2
    ensures RunTicks(s, cs, scene, n).iconUpdates == (if Tick(s, cs, scene).iconUpdated then 1 else 0)
    ensures RunTicks(s, cs, scene, n).last == Tick(s, cs, scene).next
  {
    var first := Tick(s, cs, scene).next;
    SecondTickIsQuiet(s, cs, scene);
    SettledRunIsQuiet(first, cs, scene, n - 1);
  }

  /** C++'s conversion of a float to `int`: truncation toward zero. */
  function TruncateToInt(x: real): (n: int)
    ensures 0.0 <= x ==> 0 <= n && n as real <= x < n as real + 1.0
    ensures x < 0.0 ==> n <= 0 && n as real - 1.0 < x <= n as real
  {
    if x >= 0.0 then x.Floor else -((-x).Floor)
  }

  datatype Image = EngageImage | ExperimentalImage

  /** The two strokes of `drawIcon`: the round background, then the rotated icon. */
  datatype IconDrawing = IconDrawing(
    centerX: int, centerY: int, radius: int, backgroundAlpha: int, backgroundOpacity: real,
    image: Image, imageOffset: int, angle: int, iconOpacity: real)

  /** `drawIcon`: the background circle, filled with the given brush at a fixed opacity,
      then the icon centred on the same point, rotated by `angle`, at the opacity it is given. */
  function DrawIcon(centerX: int, centerY: int, img: Image, bgAlpha: int, opacity: real, angle: int): (d: IconDrawing)
    ensures d.backgroundOpacity == BackgroundOpacity && d.backgroundAlpha == bgAlpha
    ensures d.radius == BtnSize / 2 && d.imageOffset == -(ImgSize / 2)
    ensures d.image == img && d.iconOpacity == opacity && d.angle == angle
    ensures d.centerX == centerX && d.centerY == centerY
  {
    IconDrawing(centerX, centerY, BtnSize / 2, bgAlpha, BackgroundOpacity, img, -(ImgSize / 2), angle, opacity)
  }

  class ExperimentalButton {
    var experimentalMode: bool
    var engageable: bool
    var rotatingWheel: bool
    var steeringAngleDeg: real
    /** The persistent settings store. */
    var params: Store
    /** The in-memory store shared with other processes. */
    var paramsMemory: Store
    /** Number of `update()` calls, each asking the toolkit for a repaint. */
    ghost var repaintRequests: nat
    /** Number of `updateIcon()` calls. */
    ghost var iconUpdates: nat

    function State(): ButtonState
      reads this
    {
      ButtonState(experimentalMode, engageable, rotatingWheel, steeringAngleDeg, paramsMemory)
    }

    /** A new button shows neither experimental mode nor engageability. */
    constructor (params: Store, paramsMemory: Store)
      ensures !experimentalMode && !engageable
      ensures this.params == params && this.paramsMemory == paramsMemory
      ensures repaintRequests == 0 && iconUpdates == 0
    {
      experimentalMode := false;
      engageable := false;
      this.params := params;
      this.paramsMemory := paramsMemory;
      repaintRequests := 0;
      iconUpdates := 0;
    }

    /** The click handler: writes the negated cached mode when the click is allowed. */
    method ChangeMode(cp: CarParams)
      modifies this`params
      ensures params == ChangeModeStore(old(params), cp, experimentalMode)
      ensures CanChange(cp, old(params)) ==> GetBool(params, ExperimentalModeKey) == !experimentalMode
      ensures !CanChange(cp, old(params)) ==> params == old(params)
    {
      var canChange := (cp.hasLongitudinalControl || (!cp.pcmCruiseSpeed && GetBool(params, CustomStockLongPlannerKey)))
                       && GetBool(params, ExperimentalModeConfirmedKey);
      if canChange {
        params := PutBool(params, ExperimentalModeKey, !experimentalMode);
      }
    }

    /** One tick of state sampling. */
    method UpdateState(cs: ControlsState, scene: Scene)
      modifies this`experimentalMode, this`engageable, this`rotatingWheel, this`steeringAngleDeg,
               this`paramsMemory, this`repaintRequests, this`iconUpdates
      ensures State() == Tick(old(State()), cs, scene).next
      ensures repaintRequests == old(repaintRequests) + Tick(old(State()), cs, scene).repaints
      ensures iconUpdates == old(iconUpdates) + if Tick(old(State()), cs, scene).iconUpdated then 1 else 0
      ensures engageable == (cs.engageable || cs.enabled) && experimentalMode == cs.experimentalMode
      ensures steeringAngleDeg == if scene.rotatingWheel then scene.steeringAngleDeg else 0.0
    {
      ghost var o := Tick(State(), cs, scene);
      var eng := cs.engageable || cs.enabled;
      if cs.experimentalMode != experimentalMode || eng != engageable {
        engageable := eng;
        experimentalMode := cs.experimentalMode;
        repaintRequests := repaintRequests + 1;  // update()
      }

      rotatingWheel := scene.rotatingWheel;

      if rotatingWheel && steeringAngleDeg != scene.steeringAngleDeg {
        steeringAngleDeg := scene.steeringAngleDeg;
        repaintRequests := repaintRequests + 1;  // update()
      } else if !rotatingWheel {
        steeringAngleDeg := 0.0;
      }

      if GetBool(paramsMemory, UpdateWheelImageKey) {
        iconUpdates := iconUpdates + 1;  // updateIcon()
        paramsMemory := Remove(paramsMemory, UpdateWheelImageKey);
      }
      assert State() == o.next;
    }

    /** `paintEvent`: the experimental image exactly in experimental mode, dimmed when
        held down or not engageable, over a background whose opacity never changes. */
    method Paint(isDown: bool) returns (d: IconDrawing)
      ensures d.image == ExperimentalImage <==> experimentalMode
      ensures d.iconOpacity == (if isDown || !engageable then DimmedIconOpacity else IconOpacity)
      ensures d.iconOpacity <= d.backgroundOpacity
      ensures d.iconOpacity < d.backgroundOpacity <==> isDown || !engageable
      ensures d.backgroundOpacity == BackgroundOpacity && d.backgroundAlpha == BackgroundAlpha
      ensures d.centerX == BtnSize / 2 && d.centerY == BtnSize / 2 && d.radius == BtnSize / 2
      ensures d.angle == TruncateToInt(steeringAngleDeg)
    {
      var img := if experimentalMode then ExperimentalImage else EngageImage;
      var opacity := if isDown || !engageable then DimmedIconOpacity else IconOpacity;
      d := DrawIcon(BtnSize / 2, BtnSize / 2, img, BackgroundAlpha, opacity, TruncateToInt(steeringAngleDeg));
    }
  }
}
