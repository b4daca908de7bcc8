/**
  The front-panel controller as the firmware runs it: an object whose timer
  arrays, overlay countdown and slider counters are updated in place by
  Init and by Poll (called once per millisecond), and which edits the
  settings and informs the chain state through the two collaborator
  objects it holds. Every top-level method is proved against the functions
  of UiSpec through the snapshot `State()` of everything it can change; the
  per-switch and per-branch helpers against element-wise statements.
 */
module Controller {
  import opened UiTypes
  import opened SegmentConfig
  import opened PressTimers
  import opened Render
  import opened UiSpec

  /** The persisted settings the controller edits. Saving to flash is
      recorded as a count of SaveState calls. */
  class Settings {
    const segmentConfiguration: array<bv8>
    var multimode: MultiMode
    var colorBlind: bv8
    var saves: nat

    constructor (segmentConfiguration: array<bv8>, multimode: MultiMode, colorBlind: bv8)
      ensures this.segmentConfiguration == segmentConfiguration
      ensures this.multimode == multimode && this.colorBlind == colorBlind && saves == 0
    {
      this.segmentConfiguration := segmentConfiguration;
      this.multimode := multimode;
      this.colorBlind := colorBlind;
      saves := 0;
    }

    method SaveState()
      modifies this`saves
      ensures saves == old(saves) + 1
    {
      saves := saves + 1;
    }
  }

  /** The part of the chain state the controller writes to: the bitmask of
      locally pressed switches and the requests to ignore presses while the
      mode changes (recorded as a count). */
  class ChainState {
    var suspends: nat
    var localSwitchPressed: bv8

    constructor ()
      ensures suspends == 0 && localSwitchPressed == 0
    {
      suspends := 0;
      localSwitchPressed := 0;
    }

    method SuspendSwitches()
      modifies this`suspends
      ensures suspends == old(suspends) + 1
    {
      suspends := suspends + 1;
    }

    method SetLocalSwitchPressed(mask: bv8)
      modifies this`localSwitchPressed
      ensures localSwitchPressed == mask
    {
      localSwitchPressed := mask;
    }
  }

  class Ui {
    const numSwitches: nat
    const numChannels: nat
    const toggleThreshold: int
    const settings: Settings
    const chain: ChainState

    var mode: UiMode
    const pressTime: array<int>
    const pressTimeToggle: array<int>
    const sliderLedCounter: array<nat>
    var displayingMultimodeToggle: nat
    var displayingMultimodeTogglePressed: nat

    /** The frame handed to the LED driver: channel LEDs and slider LEDs. */
    const uiLeds: array<LedColor>
    const sliderLeds: array<LedColor>

    /** Two references name different objects. Dafny does not conclude this
        from the objects' types, and the frames of the methods below need it
        for every pair of collaborators and arrays; `Valid()` states it. */
    static predicate Distinct(a: object, b: object) {
      a != b
    }

    function Constants(): (p: Params) {
      Params(numSwitches, numChannels, toggleThreshold)
    }

    ghost predicate Valid()
      reads this, settings
    {
      && ValidParams(Constants())
      && pressTime.Length == numSwitches && pressTimeToggle.Length == numSwitches
      && sliderLedCounter.Length == numChannels
      && uiLeds.Length == numChannels && sliderLeds.Length == numChannels
      && settings.segmentConfiguration.Length == numChannels
      // the collaborators and the six arrays are distinct objects
      && Distinct(this, settings) && Distinct(this, chain) && Distinct(settings, chain)
      && pressTime != pressTimeToggle && uiLeds != sliderLeds
      && Distinct(settings.segmentConfiguration, pressTime) && Distinct(settings.segmentConfiguration, pressTimeToggle)
      && Distinct(settings.segmentConfiguration, sliderLedCounter)
      && Distinct(settings.segmentConfiguration, uiLeds) && Distinct(settings.segmentConfiguration, sliderLeds)
      && Distinct(sliderLedCounter, pressTime) && Distinct(sliderLedCounter, pressTimeToggle)
      && Distinct(sliderLedCounter, uiLeds) && Distinct(sliderLedCounter, sliderLeds)
      && Distinct(pressTime, uiLeds) && Distinct(pressTime, sliderLeds)
      && Distinct(pressTimeToggle, uiLeds) && Distinct(pressTimeToggle, sliderLeds)
    }

    /** Everything the controller's methods can change, as a value. */
    ghost function State(): UiState
      reads this, settings, chain, pressTime, pressTimeToggle, sliderLedCounter, settings.segmentConfiguration
    {
      UiState(mode, pressTime[..], pressTimeToggle[..], sliderLedCounter[..],
              displayingMultimodeToggle, displayingMultimodeTogglePressed,
              settings.segmentConfiguration[..], settings.multimode, settings.colorBlind, settings.saves,
              chain.suspends, chain.localSwitchPressed)
    }

    ghost function Leds(): Frame
      reads this, uiLeds, sliderLeds
    {
      Frame(uiLeds[..], sliderLeds[..])
    }

    /** Init: both timer banks and the slider counters start at 0, the
        overlay is off, and holding switch 0 at boot toggles colour-blind
        rendering and saves the settings. */
    constructor Init(p: Params, settings: Settings, chain: ChainState, pressedImmediate0: bool)
      requires ValidParams(p) && settings.segmentConfiguration.Length == p.numChannels
      modifies settings`colorBlind, settings`saves
      ensures Valid() && Constants() == p && this.settings == settings && this.chain == chain
      ensures fresh(pressTime) && fresh(pressTimeToggle) && fresh(sliderLedCounter)
      ensures fresh(uiLeds) && fresh(sliderLeds)
      ensures State() == InitState(p, UiState(Normal, [], [], [], 0, 0,
                                              settings.segmentConfiguration[..], settings.multimode,
                                              old(settings.colorBlind), old(settings.saves),
                                              chain.suspends, chain.localSwitchPressed),
                                   pressedImmediate0)
    {
      numSwitches := p.numSwitches;
      numChannels := p.numChannels;
      toggleThreshold := p.toggleThreshold;
      this.settings := settings;
      this.chain := chain;
      pressTime := new int[p.numSwitches](_ => 0);
      pressTimeToggle := new int[p.numSwitches](_ => 0);
      sliderLedCounter := new nat[p.numChannels](_ => 0);
      uiLeds := new LedColor[p.numChannels](_ => Off);
      sliderLeds := new LedColor[p.numChannels](_ => Off);
      mode := Normal;
      displayingMultimodeToggle := 0;
      displayingMultimodeTogglePressed := 0;
      new;
      assert settings as object != this;
      if pressedImmediate0 {
        if settings.colorBlind == 1 {
          settings.colorBlind := 0;
        } else {
          settings.colorBlind := 1;
        }
        settings.SaveState();
      }
      assert pressTime[..] == seq(p.numSwitches, i => 0);
      assert pressTimeToggle[..] == seq(p.numSwitches, i => 0);
      assert sliderLedCounter[..] == seq(p.numChannels, i => 0);
    }

    /** One tick: render the frame from the state as it stood, then handle
        the Ouroboros presses, forward the pressed switches to the chain, and
        detect the very long presses that toggle the mode. */
    method Poll(input: TickInput)
      requires Valid() && ValidInput(Constants(), input)
      modifies this`displayingMultimodeToggle, this`displayingMultimodeTogglePressed
      modifies pressTime, pressTimeToggle, sliderLedCounter, uiLeds, sliderLeds
      modifies settings`multimode, settings`saves, settings.segmentConfiguration
      modifies chain`suspends, chain`localSwitchPressed
      ensures Valid()
      ensures State() == PollState(Constants(), old(State()), input)
      ensures Leds() == RenderFrame(Constants(), old(State()), input)
    {
      UpdateLeds(input);
      PollOuroborosPresses(input.pressed);
      ghost var bankA := State();
      ForwardPresses(input.pressed);
      assert State() == bankA.(localPressed := MaskOf(input.pressed));
      PollModeToggles(input.pressed);
    }

    /** Bank A: in the Ouroboros modes, count each held switch and classify
        each release (tap: cycle the Ouroboros type; long press: flip the
        waveshape bit; both save). */
    method PollOuroborosPresses(pressed: seq<bool>)
      requires Valid() && |pressed| == numSwitches
      modifies pressTime, settings.segmentConfiguration, settings`saves
      ensures Valid()
      ensures State() == BankA(Constants(), old(State()), pressed)
    {
      if IsOuroboros(settings.multimode) {
        ghost var s := State();
        for i := 0 to numSwitches
          invariant forall j :: 0 <= j < i ==> pressTime[j] == Advance(pressed[j], s.pressTime[j])
          invariant forall j :: i <= j < numSwitches ==> pressTime[j] == s.pressTime[j]
          invariant forall j :: 0 <= j < i ==>
                      settings.segmentConfiguration[j] ==
                        BankAConfig(pressed[j], s.pressTime[j], s.segmentConfiguration[j], toggleThreshold)
          invariant forall j :: i <= j < numChannels ==> settings.segmentConfiguration[j] == s.segmentConfiguration[j]
          invariant settings.saves == s.saves + SaveCount(pressed, s.pressTime, toggleThreshold, i)
        {
          OuroborosSwitchTick(i, pressed[i]);
        }
        assert pressTime[..] == BankA(Constants(), s, pressed).pressTime;
        assert settings.segmentConfiguration[..] == BankA(Constants(), s, pressed).segmentConfiguration;
      }
    }

    /** Bank A for switch i alone. */
    method OuroborosSwitchTick(i: nat, pressed: bool)
      requires Valid() && i < numSwitches
      modifies pressTime, settings.segmentConfiguration, settings`saves
      ensures pressTime[i] == Advance(pressed, old(pressTime[i]))
      ensures settings.segmentConfiguration[i] ==
                BankAConfig(pressed, old(pressTime[i]), old(settings.segmentConfiguration[i]), toggleThreshold)
      ensures settings.saves == old(settings.saves) + if BankASaves(pressed, old(pressTime[i]), toggleThreshold) then 1 else 0
      ensures forall j :: 0 <= j < numSwitches && j != i ==> pressTime[j] == old(pressTime[j])
      ensures forall j :: 0 <= j < numChannels && j != i ==>
                settings.segmentConfiguration[j] == old(settings.segmentConfiguration[j])
    {
      var configuration := settings.segmentConfiguration;
      if pressed {
        if pressTime[i] != Frozen {
          pressTime[i] := pressTime[i] + 1;
        }
      } else {
        if pressTime[i] > LongPressDuration {
          if pressTime[i] < toggleThreshold {
            configuration[i] := FlipWaveshapeMsb(configuration[i]);
            settings.SaveState();
          }
        } else if pressTime[i] > 0 {
          configuration[i] := CycleOuroborosType(configuration[i]);
          settings.SaveState();
        }
        pressTime[i] := 0;
      }
    }

    /** Hands the bitmask of pressed switches to the chain state. */
    method ForwardPresses(pressed: seq<bool>)
      requires Valid() && |pressed| == numSwitches
      modifies chain`localSwitchPressed
      ensures chain.localSwitchPressed == MaskOf(pressed)
    {
      var mask := PressedMask(pressed);
      chain.SetLocalSwitchPressed(mask);
    }

    /** The bitmask of pressed switches: bit i set iff switch i is pressed. */
    static method PressedMask(pressed: seq<bool>) returns (mask: bv8)
      requires |pressed| <= 8
      ensures mask == MaskOf(pressed)
      ensures forall i :: 0 <= i < 8 ==> (Bit(mask, i) <==> i < |pressed| && pressed[i])
    {
      mask := 0;
      for i := 0 to |pressed|
        invariant mask == MaskOf(pressed[..i])
      {
        assert pressed[..i + 1][..i] == pressed[..i];
        if pressed[i] {
          mask := mask | ((1 as bv8) << i);
        }
      }
      assert pressed[..|pressed|] == pressed;
      MaskBits(pressed);
    }

    /** Bank B: in every mode, count each held switch; once a count passes
        the threshold, toggle the mode of that switch and freeze the count
        until the switch is released. */
    method PollModeToggles(pressed: seq<bool>)
      requires Valid() && |pressed| == numSwitches
      modifies this`displayingMultimodeToggle, this`displayingMultimodeTogglePressed
      modifies pressTime, pressTimeToggle, settings`multimode, settings`saves, chain`suspends
      ensures Valid()
      ensures State() == BankB(Constants(), old(State()), pressed)
    {
      ghost var s := State();
      ghost var fires := Fires(Constants(), s, pressed);
      for i := 0 to numSwitches
        invariant Valid()
        invariant forall j :: 0 <= j < i ==>
                    pressTimeToggle[j] == BankBTimer(pressed[j], s.pressTimeToggle[j], toggleThreshold)
        invariant forall j :: i <= j < numSwitches ==> pressTimeToggle[j] == s.pressTimeToggle[j]
        invariant var t := ApplyToggles(ToggleStateOf(s), fires, i);
                  && settings.multimode == t.multimode && chain.suspends == t.suspends
                  && settings.saves == t.saves
                  && displayingMultimodeToggle == t.countdown && displayingMultimodeTogglePressed == t.channel
                  && forall j :: 0 <= j < numSwitches ==> pressTime[j] == if t.froze then Frozen else s.pressTime[j]
      {
        ghost var before := ApplyToggles(ToggleStateOf(s), fires, i);
        ModeToggleSwitchTick(i, pressed[i]);
        assert ApplyToggles(ToggleStateOf(s), fires, i + 1) == if fires[i] then ApplyToggle(before, i) else before;
      }
      ghost var r := BankB(Constants(), s, pressed);
      assert pressTimeToggle[..] == r.pressTimeToggle;
      assert pressTime[..] == r.pressTime;
      assert settings.multimode == r.multimode && chain.suspends == r.suspends && settings.saves == r.saves;
    }

    /** Bank B for switch i alone. */
    method ModeToggleSwitchTick(i: nat, pressed: bool)
      requires Valid() && i < numSwitches
      modifies this`displayingMultimodeToggle, this`displayingMultimodeTogglePressed
      modifies pressTime, pressTimeToggle, settings`multimode, settings`saves, chain`suspends
      ensures Valid()
      ensures pressTimeToggle[i] == BankBTimer(pressed, old(pressTimeToggle[i]), toggleThreshold)
      ensures forall j :: 0 <= j < numSwitches && j != i ==> pressTimeToggle[j] == old(pressTimeToggle[j])
      ensures var t := ToggleState(old(settings.multimode), false, old(chain.suspends), old(settings.saves),
                                   old(displayingMultimodeToggle), old(displayingMultimodeTogglePressed));
              var r := if BankBFires(pressed, old(pressTimeToggle[i]), toggleThreshold) then ApplyToggle(t, i) else t;
              && settings.multimode == r.multimode && chain.suspends == r.suspends && settings.saves == r.saves
              && displayingMultimodeToggle == r.countdown && displayingMultimodeTogglePressed == r.channel
              && forall j :: 0 <= j < numSwitches ==> pressTime[j] == if r.froze then Frozen else old(pressTime[j])
    {
      if pressed {
        if pressTimeToggle[i] != Frozen {
          pressTimeToggle[i] := pressTimeToggle[i] + 1;
        }
        if pressTimeToggle[i] > toggleThreshold {
          MultiModeToggle(i);
          pressTimeToggle[i] := Frozen;
        }
      } else {
        pressTimeToggle[i] := 0;
      }
    }

    /** MultiModeToggle(i): if the mode of switch i differs from the current
        one, freeze every Bank A timer, suspend the chain's switches, store
        the new mode and save; in every case show the overlay on channel i. */
    method MultiModeToggle(i: nat)
      requires Valid() && i < numSwitches
      modifies this`displayingMultimodeToggle, this`displayingMultimodeTogglePressed
      modifies pressTime, settings`multimode, settings`saves, chain`suspends
      ensures Valid()
      ensures var t := ApplyToggle(ToggleState(old(settings.multimode), false, old(chain.suspends), old(settings.saves),
                                               old(displayingMultimodeToggle), old(displayingMultimodeTogglePressed)), i);
              && settings.multimode == t.multimode && chain.suspends == t.suspends && settings.saves == t.saves
              && displayingMultimodeToggle == t.countdown && displayingMultimodeTogglePressed == t.channel
              && forall j :: 0 <= j < numSwitches ==> pressTime[j] == if t.froze then Frozen else old(pressTime[j])
    {
      if settings.multimode != Multimodes[i] {
        for j := 0 to numSwitches
          invariant forall k :: 0 <= k < j ==> pressTime[k] == Frozen
          invariant forall k :: j <= k < numSwitches ==> pressTime[k] == old(pressTime[k])
          modifies pressTime
        {
          pressTime[j] := Frozen;
        }
        chain.SuspendSwitches();
        settings.multimode := Multimodes[i];
        settings.SaveState();
      }
      displayingMultimodeTogglePressed := i;
      displayingMultimodeToggle := ToggleDisplayDuration;
    }

    /** All LEDs off, as at the start of every render. */
    method ClearLeds()
      requires Valid()
      modifies uiLeds, sliderLeds
      ensures forall j :: 0 <= j < numChannels ==> uiLeds[j] == Off && sliderLeds[j] == Off
    {
      for i := 0 to numChannels
        invariant forall j :: 0 <= j < i ==> uiLeds[j] == Off && sliderLeds[j] == Off
      {
        uiLeds[i] := Off;
        sliderLeds[i] := Off;
      }
    }

    /** The render pass: factory test, discovery sweep, or the normal
        display; the frame is built from the state as it stood. */
    method UpdateLeds(input: TickInput)
      requires Valid() && ValidInput(Constants(), input)
      modifies this`displayingMultimodeToggle, sliderLedCounter, uiLeds, sliderLeds
      ensures Valid()
      ensures State() == RenderState(Constants(), old(State()), input)
      ensures Leds() == RenderFrame(Constants(), old(State()), input)
    {
      ghost var s := State();
      ghost var p := Constants();
      ClearLeds();
      if mode == FactoryTest {
        ShowFactoryTest(input.ms);
        assert forall j :: 0 <= j < numChannels ==>
                 uiLeds[j] == UiLed(p, s, input, j) && sliderLeds[j] == SliderLed(p, s, input, j);
      } else if input.chain.discovering {
        var lit := DiscoveryChannel(input.ms, input.chain.size, input.chain.index, numChannels);
        if lit.Some? {
          uiLeds[lit.value] := Yellow;
          sliderLeds[lit.value] := Green;
        }
        assert forall j :: 0 <= j < numChannels ==>
                 uiLeds[j] == UiLed(p, s, input, j) && sliderLeds[j] == SliderLed(p, s, input, j);
      } else {
        UpdateNormalLeds(input);
      }
      assert uiLeds[..] == RenderFrame(p, s, input).ui;
      assert sliderLeds[..] == RenderFrame(p, s, input).slider;
    }

    /** The normal display (neither factory test nor discovery), drawn on a
        cleared frame: the mode-change overlay while it runs, otherwise the
        colours of the current mode; then the slider counters count down. */
    method UpdateNormalLeds(input: TickInput)
      requires Valid() && ValidInput(Constants(), input)
      requires mode == Normal && !input.chain.discovering
      requires forall j :: 0 <= j < numChannels ==> uiLeds[j] == Off && sliderLeds[j] == Off
      modifies this`displayingMultimodeToggle, sliderLedCounter, uiLeds, sliderLeds
      ensures Valid()
      ensures State() == RenderState(Constants(), old(State()), input)
      ensures forall j :: 0 <= j < numChannels ==>
                && uiLeds[j] == UiLed(Constants(), old(State()), input, j)
                && sliderLeds[j] == SliderLed(Constants(), old(State()), input, j)
    {
      ghost var s := State();
      ghost var p := Constants();
      var multimode := settings.multimode;
      if displayingMultimodeToggle > 0 {
        displayingMultimodeToggle := displayingMultimodeToggle - 1;
        ShowOverlay();
      } else if IsStageFamily(multimode) {
        ShowSegments(input);
      } else if multimode == SixEg {
        ShowSixEg(input.ledColor);
      } else {
        ClearLeds();
      }
      DecaySliderCounters();
      assert sliderLedCounter[..] == RenderState(p, s, input).sliderLedCounter;
      assert State() == s.(toggleCountdown := Decay(s.toggleCountdown), sliderLedCounter := sliderLedCounter[..]);
    }

    /** Factory test: the palette colour of the moment on idle channels, a
        pattern keyed by the slider counter on the others. */
    method ShowFactoryTest(ms: bv32)
      requires Valid()
      modifies uiLeds, sliderLeds
      ensures forall j :: 0 <= j < numChannels ==>
                && uiLeds[j] == FactoryUiLed(ms, sliderLedCounter[j])
                && sliderLeds[j] == FactorySliderLed(ms, sliderLedCounter[j])
    {
      for i := 0 to numChannels
        invariant forall j :: 0 <= j < i ==>
                    && uiLeds[j] == FactoryUiLed(ms, sliderLedCounter[j])
                    && sliderLeds[j] == FactorySliderLed(ms, sliderLedCounter[j])
      {
        uiLeds[i] := FactoryUiLed(ms, sliderLedCounter[i]);
        sliderLeds[i] := FactorySliderLed(ms, sliderLedCounter[i]);
      }
    }

    /** The mode-change overlay: only the channel of the switch that asked
        for the mode is lit, in yellow. */
    method ShowOverlay()
      requires Valid()
      modifies uiLeds
      ensures forall j :: 0 <= j < numChannels ==>
                uiLeds[j] == if displayingMultimodeTogglePressed == j then Yellow else Off
    {
      for i := 0 to numChannels
        invariant forall j :: 0 <= j < i ==>
                    uiLeds[j] == if displayingMultimodeTogglePressed == j then Yellow else Off
      {
        uiLeds[i] := if displayingMultimodeTogglePressed == i then Yellow else Off;
      }
    }

    /** The Stages and Ouroboros modes: each channel's own colour and
        brightness; a slider LED is lit while its counter runs. */
    method ShowSegments(input: TickInput)
      requires Valid() && ValidInput(Constants(), input)
      modifies uiLeds, sliderLeds
      ensures forall j :: 0 <= j < numChannels ==>
                && uiLeds[j] == ChannelLed(settings.multimode, settings.segmentConfiguration[j],
                                           input.chain.loopStatus[j], settings.colorBlind, input.ms, j)
                && sliderLeds[j] == if sliderLedCounter[j] != 0 then Green else Off
    {
      for i := 0 to numChannels
        invariant forall j :: 0 <= j < i ==>
                    && uiLeds[j] == ChannelLed(settings.multimode, settings.segmentConfiguration[j],
                                               input.chain.loopStatus[j], settings.colorBlind, input.ms, j)
                    && sliderLeds[j] == if sliderLedCounter[j] != 0 then Green else Off
      {
        uiLeds[i] := ChannelLed(settings.multimode, settings.segmentConfiguration[i],
                                input.chain.loopStatus[i], settings.colorBlind, input.ms, i);
        sliderLeds[i] := if sliderLedCounter[i] != 0 then Green else Off;
      }
    }

    /** The six-EG mode: the colours the envelope engine asks for. */
    method ShowSixEg(ledColor: seq<LedColor>)
      requires Valid() && |ledColor| == numChannels
      modifies uiLeds, sliderLeds
      ensures forall j :: 0 <= j < numChannels ==>
                uiLeds[j] == ledColor[j] && sliderLeds[j] == if sliderLedCounter[j] != 0 then Green else Off
    {
      for i := 0 to numChannels
        invariant forall j :: 0 <= j < i ==>
                    uiLeds[j] == ledColor[j] && sliderLeds[j] == if sliderLedCounter[j] != 0 then Green else Off
      {
        uiLeds[i] := ledColor[i];
        sliderLeds[i] := if sliderLedCounter[i] != 0 then Green else Off;
      }
    }

    /** Every slider counter that is running drops by one. */
    method DecaySliderCounters()
      requires Valid()
      modifies sliderLedCounter
      ensures forall j :: 0 <= j < numChannels ==> sliderLedCounter[j] == Decay(old(sliderLedCounter[j]))
    {
      for i := 0 to numChannels
        invariant forall j :: 0 <= j < i ==> sliderLedCounter[j] == Decay(old(sliderLedCounter[j]))
        invariant forall j :: i <= j < numChannels ==> sliderLedCounter[j] == old(sliderLedCounter[j])
      {
        if sliderLedCounter[i] > 0 {
          sliderLedCounter[i] := sliderLedCounter[i] - 1;
        }
      }
    }
  }
}
