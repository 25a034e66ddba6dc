# Experimental-mode button and longitudinal transition logic

A Dafny model of two small pieces of decision logic from a driver-assistance stack.

- **The on-road experimental-mode button** (`ExperimentalButton`, module `Buttons`). A click may flip the persisted
  `ExperimentalMode` setting only under an eligibility rule. Once per UI tick the button
  caches `experimental_mode` and `engageable` from the control state and asks for a repaint only on a change. It tracks the
  steering angle while the rotating-wheel option is on, and otherwise holds 0. It consumes the one-shot `UpdateWheelImage`
  flag of the in-memory store. When painted, it picks the image and the opacities. The settings stores are
  `map<string, bool>`, where a missing key reads as false (module `Settings`). The toolkit's `update()` and the
  not-shown `updateIcon()` are counted by the ghost fields `repaintRequests` and `iconUpdates`. The sizes from the
  header are in module `ButtonGeometry`.
- **The longitudinal planner extension** (`LongitudinalPlannerSP`, module `Planner`). It holds the transition state machine: a
  mode string and a blend counter capped at 20. It covers the acceleration hand-over in `blend_accel_transition`, the choice of speed
  target in `update_targets` (Python's `min` over an insertion-ordered dict: the first minimal entry wins, so ties go to
  `'cruise'`), and the `mlsim` and `get_mpc_mode` predicates. The sub-controllers (dynamic experimental control,
  vision turn control, speed-limit controller and resolver) are inputs. Python floats are modelled as reals.

Each operation that changes state is a method on a class. Its `ensures` ties the new fields to a pure function
(`Tick`, `ChangeModeStore`, `ModeTransition`, `BlendCounter`, `BlendAccel`). The lemmas state what the source
promises about those functions, over one call and over runs of calls (`RunTicks`, `Run`).

## Model

| member | source | states |
|---|---|---|
| ButtonGeometry.IconFitsInButton | selfdrive/ui/qt/onroad/buttons.h:11-12 | `img_size` is `(192 / 4) * 3 = 144`, below `btn_size`; half the icon (72) is less than the button radius (96) |
| Buttons.CanChange | selfdrive/ui/qt/onroad/buttons.cc:33-34 | click eligibility as a truth table: never without `ExperimentalModeConfirmed`; with longitudinal control iff confirmed; PCM cruise speed without longitudinal control never; otherwise iff `CustomStockLongPlanner` and confirmed |
| Buttons.ChangeModeStore | selfdrive/ui/qt/onroad/buttons.cc:31-38 | a denied click leaves the store unchanged; an allowed one makes `ExperimentalMode` read as the negation of the cached mode; no other key changes |
| Buttons.ClickTogglesSyncedFlag | selfdrive/ui/qt/onroad/buttons.cc:36 | when the cache agrees with the stored flag, an allowed click flips the stored flag |
| Buttons.ClickBeforeSyncKeepsFlag | selfdrive/ui/qt/onroad/buttons.cc:36 | the value written is the negated cache, not the negated stored flag: when the two disagree, the stored flag keeps its value |
| Buttons.ModeEdgeComparesOnlyModePair | selfdrive/ui/qt/onroad/buttons.h:22-23 | the edge trigger depends only on the two cached booleans `experimental_mode` and `engageable`, and fires iff either differs from the control state |
| Buttons.Tick | selfdrive/ui/qt/onroad/buttons.cc:40-64 | afterwards `engageable == cs.engageable or cs.enabled` and `experimental_mode == cs.experimentalMode`; the angle is the scene's while the wheel rotates, else 0; no repaint iff neither the mode pair nor (rotating and) the angle changed; two iff both did; the icon reloads iff the refresh flag was set |
| Buttons.TickConsumesRefreshFlag | selfdrive/ui/qt/onroad/buttons.cc:60-63 | after a tick the refresh flag reads as unset; every other key of the in-memory store is unchanged, and the whole store is unchanged when the flag was not set |
| Buttons.SecondTickIsQuiet | selfdrive/ui/qt/onroad/buttons.cc:43-63 | a second tick with identical inputs changes nothing, requests no repaint and does not reload the icon |
| Buttons.WheelOffResetsAngleSilently | selfdrive/ui/qt/onroad/buttons.cc:56-58 | with the rotating wheel off and the mode unchanged, the angle becomes 0 and no repaint is requested |
| Buttons.SettledRunIsQuiet | selfdrive/ui/qt/onroad/buttons.cc:40-64 | from a state a tick leaves unchanged, any number of further ticks requests nothing |
| Buttons.SteadyInputsRepaintOnlyFirstTick | selfdrive/ui/qt/onroad/buttons.cc:40-64 | over any run of ticks with the same inputs, all repaints (at most two) and the one possible icon reload happen at the first tick |
| Buttons.TruncateToInt | selfdrive/ui/qt/onroad/buttons.cc:7 | the float angle passed to `drawIcon`'s `int` parameter is truncated toward zero: never further than 1 from the angle, and never beyond it |
| Buttons.DrawIcon | selfdrive/ui/qt/onroad/buttons.cc:7-20 | the background circle of radius `btn_size / 2` is drawn with the given brush at opacity 0.6 whatever the icon opacity; the icon is centred (offset `-img_size / 2`) with the given image, angle and opacity |
| Buttons.ExperimentalButton.constructor | selfdrive/ui/qt/onroad/buttons.cc:23 | a new button starts with `experimental_mode` and `engageable` false, and no repaint requested |
| Buttons.ExperimentalButton.ChangeMode | selfdrive/ui/qt/onroad/buttons.cc:31-38 | the settings store afterwards is `ChangeModeStore` of the old one and the cached mode |
| Buttons.ExperimentalButton.UpdateState | selfdrive/ui/qt/onroad/buttons.cc:40-64 | the new fields are `Tick` of the old; the repaint and icon-reload counters grow by what `Tick` reports; the persistent store is outside its frame |
| Buttons.ExperimentalButton.Paint | selfdrive/ui/qt/onroad/buttons.cc:66-70 | the image is the experimental one iff `experimental_mode`, whatever `engageable` is; icon opacity is 0.5 when pressed or not engageable and 0.6 otherwise; the background is at 0.6 and alpha 166; centre and radius are `btn_size / 2` |
| Planner.GetMpcMode | sunnypilot/selfdrive/controls/lib/longitudinal_planner.py:44-48 | None iff dynamic experimental control is inactive, otherwise its mode |
| Planner.FirstMinIndex | sunnypilot/selfdrive/controls/lib/longitudinal_planner.py:67 | the entry `min` with a key picks has the least speed, and every entry before it is strictly faster |
| Planner.UpdateTargets | sunnypilot/selfdrive/controls/lib/longitudinal_planner.py:60-70 | the target speed is at most `v_cruise`, the speed-limit cruise and the vision target; the source is `'cruise'` iff the capped cruise speed is at most the vision target (ties go to `'cruise'`), and the pair returned is that source's |
| Planner.ModeTransition | sunnypilot/selfdrive/controls/lib/longitudinal_planner.py:77-81 | afterwards the last mode is `mode`; the counter is reset to 0 exactly when the mode changed into `'blended'`, and is unchanged otherwise |
| Planner.ModeTransitionIdempotent | sunnypilot/selfdrive/controls/lib/longitudinal_planner.py:77-81 | handling the same mode twice gives the state of handling it once |
| Planner.BlendCounter | sunnypilot/selfdrive/controls/lib/longitudinal_planner.py:84-86 | the counter grows by exactly 1 iff dynamic experimental control is enabled and the counter is below the step count, whichever branch follows; it never passes the step count |
| Planner.BlendAccel | sunnypilot/selfdrive/controls/lib/longitudinal_planner.py:83-96 | when disabled, when the blend is done, at or below 5 m/s, or without end-to-end braking, the result is `min(mpc_accel, e2e_accel)`; when both brake and the end-to-end braking is weaker, the result is `mpc_accel` |
| Planner.BlendWithinBounds | sunnypilot/selfdrive/controls/lib/longitudinal_planner.py:87-96 | for a sigmoid weight in [0, 1] the result always lies between `mpc_accel` and `e2e_accel` |
| Planner.LastStepReturnsE2e | sunnypilot/selfdrive/controls/lib/longitudinal_planner.py:87-95 | on the step that completes the transition (progress 1) the blend returns `e2e_accel` exactly |
| Planner.RunKeepsCounterBounded | sunnypilot/selfdrive/controls/lib/longitudinal_planner.py:72-86 | over any sequence of mode changes and blend calls, the counter stays within 0 and the step count |
| Planner.CounterDropsOnlyOnBlendedEntry | sunnypilot/selfdrive/controls/lib/longitudinal_planner.py:78-80 | if a sequence of steps lowers the counter, one of them handles `'blended'` while the last mode seen before it (the state after the preceding steps) was different, so it really entered the blended mode |
| Planner.EnabledBlendsSaturate | sunnypilot/selfdrive/controls/lib/longitudinal_planner.py:84-86 | `k` blend calls with control enabled raise the counter by `k`, saturating at 20 |
| Planner.LongitudinalPlannerSP.constructor | sunnypilot/selfdrive/controls/lib/longitudinal_planner.py:27-37 | a new planner keeps the model generation it is given and starts in the initial transition state |
| Planner.LongitudinalPlannerSP.Mlsim | sunnypilot/selfdrive/controls/lib/longitudinal_planner.py:39-42 | the planner's `mlsim` property: true when its model generation is unknown, and for a known one iff it is at least 11 |
| Planner.LongitudinalPlannerSP.TransitionInit | sunnypilot/selfdrive/controls/lib/longitudinal_planner.py:72-75 | counter 0, step count 20, last mode `'acc'` |
| Planner.LongitudinalPlannerSP.HandleModeTransition | sunnypilot/selfdrive/controls/lib/longitudinal_planner.py:77-81 | the new transition state is `ModeTransition` of the old; the counter stays within bounds |
| Planner.LongitudinalPlannerSP.BlendAccelTransition | sunnypilot/selfdrive/controls/lib/longitudinal_planner.py:83-96 | the new counter is `BlendCounter` of the old and the result is `BlendAccel`; the counter stays within bounds |

## Left out

- `hasLongitudinalControl(cp)` is defined outside the modelled files; its result is an input field of `CarParams`.
- `updateIcon()` is not among the modelled files; it is an event counted by `iconUpdates`.
- The declaration of the button's `steering_angle_deg` is not among the modelled files. It is modelled as a real and truncated toward zero where `drawIcon` takes an `int`.
- The initial values of `rotating_wheel` and `steering_angle_deg` are not set by the constructor shown, so the model leaves them unconstrained.
- Qt painting mechanics (antialiasing, pen, save/translate/rotate/restore, the opacity restore after the icon), pixmap loading and the click signal wiring are out of scope. Only the chosen image, angle, opacities and geometry are kept.
- Buttons.ExperimentalButton.Paint: opacities are exact reals. In the program the icon opacity passes through `drawIcon`'s `float` parameter (0.6f, about 0.60000002), while the background uses the double 0.6. So the stated `icon opacity <= background opacity` holds for the modelled values, not bit for bit in the program.
- Buttons.DrawIcon: the icon offset is `-(img_size / 2)`. This assumes the loaded pixmap is exactly `img_size` wide and high, whereas the program uses `img.width() / 2` and `img.height() / 2` of whatever was loaded.
- NaN and other floating-point effects are not modelled. A NaN steering angle would compare unequal every tick, and a NaN target would upset `min`.
- BlendAccel: the sigmoid `1 / (1 + exp(-3 (|e2e_accel / ACCEL_MIN| - 0.5)))` is a real parameter, because `math.exp` and `ACCEL_MIN` are floating-point numerics. The bounds lemma assumes it lies in [0, 1], as a logistic value does.
- The sub-controllers (dynamic experimental control, vision turn control, speed-limit controller and resolver, personality controller), the `events_sp` list and `publish_longitudinal_plan_sp` (message building and publishing) are external components or transport. Their outputs are parameters.
- `update` (the sub-controllers' per-tick update) calls only external components and has no logic of its own.
- The HUD renderer (`hud.h`, declarations only) and device registration (`registration.py`, HTTP and file I/O) are not part of this model.
