# Stages front-panel controller, modelled in Dafny

This project models the user-interface controller of the Stages module
(`stages/ui.cc`). The controller is an object that the firmware polls once
per millisecond. On each tick it does four things, in this order:

1. **Render.** It draws one frame of channel LEDs and slider LEDs from the
   state as it stood at the start of the tick. The frame comes from one of
   six branches, tried in priority order:
   - factory test;
   - the chain-discovery ping-pong sweep;
   - the "mode changed" overlay;
   - the Stages/Ouroboros palette with PWM dimming and the colour-blind
     variant;
   - six-EG pass-through;
   - all off.

   Outside factory test and discovery, rendering also counts down the
   overlay and the slider LED counters.
2. **Bank A** (Ouroboros modes only). On release, a tap cycles the
   Ouroboros segment type. A long press flips the waveshape high bit.
   Both save the settings.
3. **Forward the switches.** The bitmask of pressed switches goes to the
   chain.
4. **Bank B** (every mode). A very long press fires `MultiModeToggle` once
   per hold, then freezes its timer at -1 until release. The toggle:
   - looks the target mode up in the table of modes;
   - when the mode changes, freezes every Bank A timer, suspends the
     chain's switches, stores the mode and saves;
   - always starts a 1000-render overlay on the switch's channel.

`Init` zeroes both timer banks, the slider counters and the overlay.
Holding switch 0 at boot toggles colour-blind rendering and saves.

The model has seven files.

- **`ui.dfy`** (module `Controller`) is the imperative part. `Ui` is a class
  whose timers, slider counters and LED frame are arrays updated in place.
  The settings and the chain state are collaborator objects that `Ui`
  holds:
  - `Settings` holds the segment configuration array, the mode, the
    colour-blind flag and a count of saves;
  - `ChainState` holds a count of `SuspendSwitches` calls and the last
    forwarded bitmask.

  Every top-level method (`Init`, `Poll`, `PollOuroborosPresses`,
  `PollModeToggles`, `UpdateLeds`, `UpdateNormalLeds`) is proved against a
  function of `UiSpec`, through the ghost snapshot `State()` and the frame
  `Leds()`. The per-switch and per-branch helpers are proved against
  element-wise statements over the `PressTimers` and `Render` functions.
- **`ui_spec.dfy`** (module `UiSpec`) states the whole controller as a
  value, `UiState`:
  - `RenderFrame` and `RenderState` give the render pass;
  - `BankA`, `MaskOf` and `BankB` give the three press steps;
  - `PollState` composes them in the firmware's order;
  - `InitState` gives `Init`.

  Its lemmas state what a tick promises.
- **`press_timers.dfy`** gives one tick of one switch of either bank, plus
  the lemmas about taps, long presses and holds.
- **`segment_config.dfy`** covers the bit fields of a segment configuration
  byte and the two Ouroboros edits.
- **`fade.dfy`** contains `FadePattern`, the triangle wave.
- **`render.dfy`** contains the pure per-channel colour and brightness, the
  discovery sweep and the factory-test pattern.
- **`ui_types.dfy`** holds the enumerations, `LongPressDuration` (500), the
  overlay length (1000) and the two tables:
  - `Multimodes`, which gives the mode of each switch;
  - `Palette`, which gives the colour of each segment type.

Per-tick inputs are:
- the clock value after `system_clock.Tick()`;
- the debounced switches;
- what the chain reports (discovering, size, index, loop status);
- the six-EG colours.

Three compile-time constants are parameters of the model:
`kNumSwitches`, `kNumChannels` and `kLongPressDurationForMultiModeToggle`.
The parameters must satisfy four conditions:
- `kNumSwitches <= 6`, because the mode table has six entries;
- `kNumSwitches <= kNumChannels`, because Bank A indexes the configuration
  by switch;
- `kNumChannels >= 2`, which keeps the discovery sweep's period
  `2 * n - 2` (`stages/ui.cc:203`) nonzero;
- the toggle threshold is above 500.

The LED count `kNumLEDs` is taken equal to `kNumChannels`.

Three facts about `stages/ui.cc` that are easy to misread:
- **Toggle threshold.** The mode toggle fires once the Bank B count
  *exceeds* the threshold (`stages/ui.cc:140`), so on the tick after the
  threshold is reached (`PressTimers.HoldFromReleaseFires`).
- **A hold of exactly the threshold does nothing.** Its release is too long
  for Bank A (`stages/ui.cc:106-107`) and Bank B has not fired yet
  (`PressTimers.HoldLength`).
- **Bank A timers outside Ouroboros.** Outside the Ouroboros modes, Bank A
  never counts, but a mode toggle in the same tick still sets every Bank A
  timer to -1 (`stages/ui.cc:155-158`, `UiSpec.PollOutsideOuroboros`).

`Render.DiscoveryOffset` works through one instance of the sweep arithmetic
of `stages/ui.cc:201-210`: two modules of four channels, this one at index
1, clock 160.

## Model

| member | source | states |
|---|---|---|
| Controller.Ui.Init | stages/ui.cc:61-87 | Both timer banks and the slider counters read 0, the overlay is off and the mode is normal. Holding switch 0 at boot toggles the colour-blind flag and saves once. The configuration and mode are untouched. The arrays are fresh and the invariant holds. |
| Controller.Ui.Poll | stages/ui.cc:89-149 | One tick moves the state to `PollState` of the old state: render, Bank A, forward, Bank B. The LED frame equals `RenderFrame` of the state as it stood before the tick. |
| Controller.Ui.PollOuroborosPresses | stages/ui.cc:97-121 | The new state is `BankA` of the old one. In the Ouroboros modes every timer advances and every release is classified, saving once per edit. In other modes nothing changes. |
| Controller.Ui.OuroborosSwitchTick | stages/ui.cc:101-118 | Switch i's timer advances. Its configuration byte becomes `BankAConfig` of the old byte and timer. Saves grow by one iff the release edits. Other switches are untouched. |
| Controller.Ui.ForwardPresses | stages/ui.cc:123-132 | The chain's bitmask becomes `MaskOf` of the pressed switches. |
| Controller.Ui.PressedMask | stages/ui.cc:124-131 | The accumulated mask equals `MaskOf(pressed)`. Bit i is set iff i is a switch and it is pressed. |
| Controller.Ui.PollModeToggles | stages/ui.cc:134-147 | The new state is `BankB` of the old one. Each Bank B timer takes its tick. The toggles fired, in switch order, decide the mode, the suspends, the saves, the overlay and whether Bank A is frozen. |
| Controller.Ui.ModeToggleSwitchTick | stages/ui.cc:136-146 | Switch i's Bank B timer becomes `BankBTimer`, so -1 once it fires. The toggle state becomes `ApplyToggle(·, i)` exactly when the switch fires. Other timers are kept. |
| Controller.Ui.MultiModeToggle | stages/ui.cc:151-168 | If the table mode of switch i differs from the current mode: every Bank A timer becomes -1, suspends and saves grow by one, and the mode becomes the table entry. Otherwise those stay. Either way the overlay channel is i and the countdown is 1000. |
| Controller.Ui.ClearLeds | stages/ui.cc:178 | Every channel and slider LED is off. |
| Controller.Ui.UpdateLeds | stages/ui.cc:177-300 | The frame equals `RenderFrame` of the old state. The new state is `RenderState`: overlay and slider counters decay only outside factory test and discovery. |
| Controller.Ui.UpdateNormalLeds | stages/ui.cc:215-296 | On a cleared frame, each LED equals `UiLed`/`SliderLed` of the old state: overlay, stage family, six-EG, or off. The countdown and slider counters then decay. |
| Controller.Ui.ShowFactoryTest | stages/ui.cc:182-197 | Each channel shows the factory pattern of its slider counter at this clock. |
| Controller.Ui.ShowOverlay | stages/ui.cc:221-223 | Only the overlay channel is lit, in yellow. |
| Controller.Ui.ShowSegments | stages/ui.cc:238-269 | Each channel LED shows `ChannelLed` of its own configuration, loop status and index. Each slider LED is green iff its counter is nonzero. |
| Controller.Ui.ShowSixEg | stages/ui.cc:274-277 | Channel LEDs copy the six-EG colours. Slider LEDs are green iff their counter is nonzero. |
| Controller.Ui.DecaySliderCounters | stages/ui.cc:290-294 | Every slider counter drops by one, stopping at 0. |
| SegmentConfig.CycleOuroborosType | stages/ui.cc:112-114 | The Ouroboros type (bits 4-5) becomes (old + 1) mod 3. Every bit outside bits 4-5 is kept. |
| SegmentConfig.FlipWaveshapeMsb | stages/ui.cc:108 | The waveshape bit is negated and every other bit is kept. |
| SegmentConfig.ThreeTapsRestore | stages/ui.cc:111-115 | From an Ouroboros type in {0,1,2}, three taps give back the original byte. |
| SegmentConfig.TapFromTypeThree | stages/ui.cc:112-114 | From type 3, a tap gives type 1, and three taps do not restore the byte. |
| SegmentConfig.FlipTwiceRestores | stages/ui.cc:108 | Two long presses give back the original byte. |
| SegmentConfig.OuroborosEditsKeepOtherFields | stages/ui.cc:108-114 | Neither edit changes the Stages segment type (bits 0-1). A tap keeps the waveshape bit. A long press keeps the Ouroboros type. |
| SegmentConfig.FieldsDetermineByte | stages/ui.cc:112-114 | Two bytes with the same Ouroboros type and the same other bits are equal. |
| Fade.Triangle | stages/ui.cc:174 | The fold maps positions 0..16 to themselves and 17..31 to 31 - x, always within 0..16. |
| Fade.FadePosition | stages/ui.cc:171-173 | The position is below 32. |
| Fade.FadePattern | stages/ui.cc:170-175 | The 8-bit computation equals `Triangle` of the position ((ms >> shift) + phase) mod 32 on the full clock word, and lies in 0..16. |
| Fade.TriangleShape | stages/ui.cc:174 | The pattern is non-decreasing up to position 16 and non-increasing from 16 on. |
| Fade.FadePeriodic | stages/ui.cc:171-173 | The position is periodic in the clock with period 32 << shift, across the 32-bit wrap-around. |
| Fade.PositionStep | stages/ui.cc:171-173 | At shifts 4 and 6, one millisecond keeps the position or advances it by one modulo 32. |
| Fade.FadeContinuous | stages/ui.cc:170-175 | At shifts 4 and 6, one millisecond changes the pattern by at most 2, including at the clock wrap-around. |
| PressTimers.Advance | stages/ui.cc:101-104 | One tick of either timer: 0 after a release, one more while held from a counting value, and a reachable value (-1 or a count) stays reachable. |
| PressTimers.ClassifyRelease | stages/ui.cc:106-116 | The release action of a Bank A timer: a cycle only for 1..500, a waveshape flip only from 501 up to below the threshold, and nothing only for a timer ≤ 0 or ≥ the threshold. |
| PressTimers.BankAConfig | stages/ui.cc:101-118 | One Bank A tick of a switch's byte: held keeps it; any change comes with a save; the Stages type (bits 0-1) is never changed. |
| PressTimers.BankBFires | stages/ui.cc:136-145 | Bank B fires only while held with a timer at or past the threshold, and always once a held counting timer has reached the threshold. |
| PressTimers.BankBTimer | stages/ui.cc:136-145 | The Bank B timer after a tick is 0 after a release, -1 after firing or else the plain tick, and never exceeds the threshold. |
| PressTimers.ReleaseIntervals | stages/ui.cc:106-116 | A release cycles the type iff the timer is 1..500. It flips the waveshape iff the timer is 501 up to below the threshold. It does nothing iff the timer is ≤ 0 or ≥ the threshold. |
| PressTimers.TapRelease | stages/ui.cc:111-117 | After a tap, the release sets bits 4-5 to (old + 1) mod 3, keeps every other bit, saves, and resets the timer to 0. |
| PressTimers.LongPressRelease | stages/ui.cc:106-117 | After a long press, the release flips exactly bit 6, saves, and resets the timer to 0. |
| PressTimers.InertRelease | stages/ui.cc:105-118 | Releasing an idle timer (0), a frozen one (-1) or one at or past the threshold changes nothing and does not save. The timer still resets. |
| PressTimers.HeldIsInert | stages/ui.cc:101-104 | While held, the configuration does not change and nothing is saved. |
| PressTimers.HeldTimerValue | stages/ui.cc:101-104 | Over k held ticks a frozen timer stays -1 and a counting one gains exactly k. |
| PressTimers.HoldFiresOnce | stages/ui.cc:136-143 | Over any continuous hold, the toggle fires at most once: exactly when a counting timer is pushed past the threshold. The timer then reads -1 for the rest of the hold. |
| PressTimers.HoldFromReleaseFires | stages/ui.cc:135-147 | From a released switch, a hold of k ticks fires the toggle iff k exceeds the threshold, and then once. |
| PressTimers.HoldLength | stages/ui.cc:101-143 | A hold of k ticks from release, then a release: 1..500 cycles the type; 501 up to below the threshold flips bit 6; neither fires the toggle. Exactly the threshold does nothing and saves nothing. Longer fires the toggle once, and the release edits nothing whether or not Bank A was frozen. |
| Render.FactoryUiLed | stages/ui.cc:184-196 | In factory test a channel LED is never off, and it is green while its counter is nonzero. |
| Render.FactorySliderLed | stages/ui.cc:184-196 | In factory test a slider LED is only off or green, and green from counter 2 on. |
| Render.FadePatterns | stages/ui.cc:232-237 | Four intensities, the first a steady 0xf, all within 0..16. |
| Render.Pwm | stages/ui.cc:231 | The PWM reference is within 0..15. |
| Render.SegmentType | stages/ui.cc:239-243 | The type is the Ouroboros field (bits 4-5) in the Ouroboros modes and the Stages field (bits 0-1) otherwise. |
| Render.BaseBrightness | stages/ui.cc:244-248 | The brightness lies within 0..16. |
| Render.OuroborosBrightness | stages/ui.cc:240-248 | In the Ouroboros modes, brightness is the self-loop fade when the waveshape bit is set and a steady 0xf otherwise. |
| Render.StagesBrightness | stages/ui.cc:244-248 | In the Stages modes, brightness is the fade pattern of the channel's loop status. |
| Render.ChannelShade | stages/ui.cc:249-262 | The colour before PWM is always the palette colour of the channel's segment type. Without colour-blind the brightness is the plain `BaseBrightness`. |
| Render.ChannelLed | stages/ui.cc:263-265 | A channel LED is either off or the palette colour of its segment type. |
| Render.ChannelHue | stages/ui.cc:249-265 | A lit channel always shows the palette colour of its type, with or without colour-blind. Type 3 is never lit. |
| Render.ChannelLitNormal | stages/ui.cc:263-265 | Without colour-blind, a channel is lit iff its type is not 3, its brightness is nonzero and its brightness is at least the PWM reference. |
| Render.ChannelLitColorBlind | stages/ui.cc:250-262 | With colour-blind: type 1 is lit iff brightness ≥ 8; type 2 iff brightness ≥ 12 and PWM ≤ 1; type 0 is dimmed, never brighter than the plain brightness. |
| Render.ScaledBrightness | stages/ui.cc:254 | The colour-blind scaling keeps the brightness within 0..b. |
| Render.PingPong | stages/ui.cc:203-206 | The folded counter is a position below n. |
| Render.PingPongStep | stages/ui.cc:201-206 | Consecutive counters move the sweep by exactly one LED, also across the period's wrap. |
| Render.SweepPosition | stages/ui.cc:201-206 | The sweep position lies in [0, n - 1]. |
| Render.DiscoveryChannel | stages/ui.cc:201-213 | A local channel is lit iff the sweep lies in this module's window. It is then the channel at sweep position minus the window start. |
| Render.DiscoveryOffset | stages/ui.cc:201-213 | With two modules of four channels, index 1 and clock 160, the sweep is at position 5 and lights local channel 1. |
| Render.FactoryColorIndex | stages/ui.cc:184 | The factory colour index is below 3. |
| Render.FactoryLeds | stages/ui.cc:184-196 | A channel with counter 0 shows the lit palette colour of the moment, its slider green exactly while that colour is green. A busy channel is green, its slider lit from counter 2 on. |
| UiSpec.UiLed | stages/ui.cc:182-287 | The channel LED of the frame, branch by branch. In normal mode, during discovery or the overlay it is only off or yellow; with no discovery, no overlay and a mode outside the Stages, Ouroboros and six-EG families it is off. |
| UiSpec.SliderLed | stages/ui.cc:182-287 | The slider LED of the frame. In normal mode it is only off or green. It is off during the overlay and in the fallback (a mode outside the Stages, Ouroboros and six-EG families); outside discovery it is green only while its counter is nonzero. |
| UiSpec.RenderFrame | stages/ui.cc:177-300 | The frame has one channel LED and one slider LED per channel. In normal mode every slider LED is off or green. |
| UiSpec.Decay | stages/ui.cc:290-294 | A decremented counter never grows, and reaches 0 exactly from 0 or 1. |
| UiSpec.RenderState | stages/ui.cc:177-296 | The render pass changes only the overlay countdown and the slider counters, and keeps every array length. |
| UiSpec.BankA | stages/ui.cc:97-121 | Bank A changes only the Bank A timers, the configuration bytes and the save count, and keeps every array length. |
| UiSpec.BankB | stages/ui.cc:134-147 | Bank B keeps the configuration, the slider counters, the UI mode, the colour-blind flag and the forwarded mask, and every array length. |
| UiSpec.ApplyToggles | stages/ui.cc:134-147 | The toggles fired by the first n switches, in switch order: the overlay countdown either stays or restarts at 1000, and the overlay channel either stays or is one of those n switches. |
| UiSpec.MaskOf | stages/ui.cc:124-131 | The bitmask forwarded to the chain; with no switch pressed it is 0 (`UiSpec.MaskBits` gives every bit). |
| UiSpec.ToggleColorBlind | stages/ui.cc:78-82 | The boot toggle always changes the colour-blind flag and leaves it 0 or 1. |
| UiSpec.ApplyToggle | stages/ui.cc:151-168 | One toggle: the mode becomes the table entry of switch i, the overlay runs on channel i for 1000 renders. Bank A ends frozen iff it was or the mode changed. Suspends grow by one iff the mode changed, and saves grow exactly as much. |
| UiSpec.PollState | stages/ui.cc:89-147 | One tick keeps the UI mode, the colour-blind flag and every array length. The chain's bitmask becomes `MaskOf` of the pressed switches. |
| UiSpec.InitState | stages/ui.cc:66-86 | After Init: the mode is normal, the overlay is off, configuration and mode are those stored. Colour-blind changes iff switch 0 is held at boot, which also saves exactly once. The lengths are those of the parameters. |
| UiSpec.MaskBits | stages/ui.cc:124-130 | Bit i of the built mask is set iff i is a switch and switch i is pressed. |
| UiSpec.ForwardedMask | stages/ui.cc:123-132 | After a tick, the chain's bitmask has bit i set iff switch i is pressed, in every mode. |
| UiSpec.InitColorBlind | stages/ui.cc:76-84 | Init turns colour-blind on iff it was off and switch 0 is held, or it was on and switch 0 is not held. It saves once iff the switch is held. Two toggles restore a 0/1 flag. |
| UiSpec.InitIsIdle | stages/ui.cc:61-87 | After Init: every timer and slider counter is 0, the overlay is off, the mode is normal, and configuration and mode are those stored. |
| UiSpec.PollKeepsShape | stages/ui.cc:89-149 | A tick keeps every array at its length and never changes the UI mode. |
| UiSpec.TogglesFreezeOnChange | stages/ui.cc:151-162 | A mode that ends differently has frozen Bank A and suspended the chain's switches. Bank A is frozen iff some toggle suspended. Suspends grow by at most one per switch and exactly as much as saves. |
| UiSpec.NoFiresNoToggle | stages/ui.cc:134-147 | With no toggle fired, mode, counters and overlay are untouched. |
| UiSpec.LastToggleShown | stages/ui.cc:164-166 | The last switch to fire owns the overlay, and the countdown restarts at 1000. |
| UiSpec.ModeChangeFreezesBankA | stages/ui.cc:155-162 | A tick that changes the mode has suspended the chain's switches, saved, and left every Bank A timer at -1. |
| UiSpec.PollOutsideOuroboros | stages/ui.cc:97-121 | Outside the Ouroboros modes, a tick never changes a configuration byte. The Bank A timers are either unchanged or all -1 after a toggle. |
| UiSpec.PollReleasedNoToggle | stages/ui.cc:134-147 | With no switch pressed, mode, suspends and overlay channel stay, the countdown only decays, and every Bank B timer reads 0. |
| UiSpec.OuroborosRelease | stages/ui.cc:105-118 | In an Ouroboros mode, a whole tick that releases switch i: a tap cycles the type and saves; a long press flips bit 6 and saves; an idle, frozen or over-threshold timer keeps the byte. The timer ends at 0, or -1 if a toggle froze it. |
| UiSpec.BankARelease | stages/ui.cc:105-118 | Bank A for a released switch i applies the release classification to its byte, resets its timer, and counts its save. |
| UiSpec.SaveCountAtLeast | stages/ui.cc:106-116 | A switch whose release edits contributes a save to the tick's count. |
| UiSpec.BankBKeepsConfig | stages/ui.cc:134-147 | Bank B never touches the configuration and never lowers the saves. It keeps each Bank A timer or freezes it. |
| UiSpec.DiscoveryFrame | stages/ui.cc:199-213 | While discovering, channel LEDs are only off or yellow. LED i is yellow iff the window start plus i is the sweep position, so at most one is lit. A slider LED is green exactly where its channel LED is yellow. Counters are untouched. |
| UiSpec.OverlayFrame | stages/ui.cc:217-224 | While the overlay runs, only its channel is lit, in yellow, and every slider LED is off. The countdown drops by one and the slider counters decay. |
| UiSpec.StageFamilyFrame | stages/ui.cc:225-269 | With no overlay in a Stages or Ouroboros mode, each channel shows its own `ChannelLed`. Each slider LED is green iff its counter is nonzero. |
| UiSpec.SixEgFrame | stages/ui.cc:270-276 | With no overlay in the six-EG mode, each channel LED copies the engine's colour and each slider LED is green iff its counter is nonzero. |
| UiSpec.SliderCountersDecay | stages/ui.cc:289-294 | Every render outside factory test and discovery decrements each nonzero slider counter. The other two branches keep them. |
| UiSpec.FrozenHoldsAreQuiet | stages/ui.cc:136-140 | A switch held with its Bank B timer at -1 cannot fire again, so a tick holding only such switches fires no toggle. |
| UiSpec.OverlayTick | stages/ui.cc:217-220 | A tick with no discovery and no toggle fired, switches held or not, keeps the mode and the overlay channel and lowers the countdown by one (not below 0). |
| UiSpec.OverlayCountsDown | stages/ui.cc:217-220 | Over k ticks with no discovery and no new toggle (the switch that started the overlay may still be held), the overlay countdown falls by k (not below 0), so it ends after exactly its length. |
| UiSpec.FactoryLockStep | stages/ui.cc:182-197 | In factory test, any two channels with counter 0 show the same lit colour, each slider green exactly while that colour is green; a busy channel is green, its slider lit from counter 2 on. |

## Left out

- The LED driver (`leds_.Init`, `Clear`, `set`, `Write`) is not modelled. The frame is the two output arrays `uiLeds` and `sliderLeds`.
- Switch debouncing and `pressed_immediate` are not modelled. The debounced switches are a per-tick input and the boot reading of switch 0 is a parameter of `Init`.
- The system clock hardware is not modelled. The millisecond value after `Tick()` is a per-tick 32-bit input.
- `Settings::SaveState` is recorded as a count of calls. Flash persistence is not modelled.
- The internals of `ChainState` are external. Discovery, size, index and loop status are inputs; `SuspendSwitches` is counted and the forwarded bitmask is recorded.
- How the six-EG engine computes `led_color_` is not modelled. The colours are a per-tick input.
- The byte encoding of the modes lives in a header that is not part of this model. Every unknown byte is the single value `Unrecognized`, which renders all off.
- Entering factory test is not modelled: nothing in `stages/ui.cc` sets it. The branch is modelled, and the mode stays what `Init` set.
- The Bank A timers are unbounded integers. The 32-bit wrap-around after 2^31 held ticks in an Ouroboros mode is not modelled. Bank B never passes the threshold plus one.
- Discovery requires a chain size of at least 1. With size 0 the firmware's `2 * n - 2` would wrap around in `size_t`.
- The widths of `slider_led_counter_` and the overlay countdown are declared in a header that is not part of this model. Both are natural numbers, and only decremented here.
- Fade.FadePeriodic: the statement is about the position, and the pattern follows through `FadePattern`'s contract. It is stated for shifts up to 27, so that the period fits in the 32-bit clock.
- Fade.PositionStep: stated only for the two shifts the controller uses, 4 and 6.
- Fade.FadeContinuous: stated only for the two shifts the controller uses, 4 and 6.
- Render.ChannelLitColorBlind: for type 0 it bounds the dimmed brightness by the plain one rather than giving its exact value.
- PressTimers.HoldLength: the outcome of a whole hold and release is stated for one switch's two timers, not as a run of whole ticks of the controller, where other switches can toggle the mode in between.
