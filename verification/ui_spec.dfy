/**
  The controller's whole state as a value, and one tick of it as functions:
  the render pass (which reads the state as it was at the start of the
  tick), Bank A, the bitmask forwarded to the chain, and Bank B with its
  mode toggles, in that order. The class `Ui` is proved against these
  functions; the lemmas here state what a tick promises.
 */
module UiSpec {
  import opened UiTypes
  import opened SegmentConfig
  import opened PressTimers
  import opened Render

  /** Compile-time constants: kNumSwitches, kNumChannels (also the number of
      LEDs of each group) and kLongPressDurationForMultiModeToggle. */
  datatype Params = Params(numSwitches: nat, numChannels: nat, toggleThreshold: int)

  /** The mode table has one entry per switch; the very-long threshold lies
      above the long-press one; the chain-wide sweep needs two LEDs or more. */
  predicate ValidParams(p: Params) {
    && p.numSwitches <= |Multimodes|
    && p.numSwitches <= p.numChannels
    && 2 <= p.numChannels
    && p.toggleThreshold > LongPressDuration
  }

  /** What the chain state reports during one render. */
  datatype ChainView = ChainView(discovering: bool, size: nat, index: nat, loopStatus: seq<LoopStatus>)

  /** Everything a tick reads from its collaborators: the clock (after its
      tick), the debounced switches, the chain state, and the colours the
      six-EG engine asks for. */
  datatype TickInput = TickInput(ms: bv32, pressed: seq<bool>, chain: ChainView, ledColor: seq<LedColor>)

  predicate ValidInput(p: Params, input: TickInput) {
    && |input.pressed| == p.numSwitches
    && |input.chain.loopStatus| == p.numChannels
    && |input.ledColor| == p.numChannels
    && (input.chain.discovering ==> input.chain.size >= 1)
  }

  datatype UiState = UiState(
    mode: UiMode,
    pressTime: seq<int>,          // Bank A timers
    pressTimeToggle: seq<int>,    // Bank B timers
    sliderLedCounter: seq<nat>,
    toggleCountdown: nat,         // renders left of the mode-change overlay
    toggleChannel: nat,           // switch that started the overlay
    segmentConfiguration: seq<bv8>,
    multimode: MultiMode,
    colorBlind: bv8,
    saves: nat,                   // calls of SaveState so far
    suspends: nat,                // calls of SuspendSwitches so far
    localPressed: bv8)            // last bitmask forwarded to the chain

  predicate ValidState(p: Params, s: UiState) {
    && |s.pressTime| == p.numSwitches
    && |s.pressTimeToggle| == p.numSwitches
    && |s.sliderLedCounter| == p.numChannels
    && |s.segmentConfiguration| == p.numChannels
  }

  datatype Frame = Frame(ui: seq<LedColor>, slider: seq<LedColor>)

  predicate Ready(p: Params, s: UiState, input: TickInput) {
    ValidParams(p) && ValidState(p, s) && ValidInput(p, input)
  }

  // ---------------------------------------------------------------- render

  /** Channel LED i of the frame rendered from `s`. */
  function UiLed(p: Params, s: UiState, input: TickInput, i: nat): (led: LedColor)
    requires Ready(p, s, input) && i < p.numChannels
    ensures s.mode == Normal && (input.chain.discovering || s.toggleCountdown > 0) ==> led == Off || led == Yellow
    ensures (&& s.mode == Normal && !input.chain.discovering && s.toggleCountdown == 0
             && !IsStageFamily(s.multimode) && s.multimode != SixEg) ==> led == Off
  {
    if s.mode == FactoryTest then
      FactoryUiLed(input.ms, s.sliderLedCounter[i])
    else if input.chain.discovering then
      if DiscoveryChannel(input.ms, input.chain.size, input.chain.index, p.numChannels) == Some(i)
      then Yellow else Off
    else if s.toggleCountdown > 0 then
      if s.toggleChannel == i then Yellow else Off
    else if IsStageFamily(s.multimode) then
      ChannelLed(s.multimode, s.segmentConfiguration[i], input.chain.loopStatus[i], s.colorBlind, input.ms, i)
    else if s.multimode == SixEg then
      input.ledColor[i]
    else
      Off
  }

  /** Slider LED i of the frame rendered from `s`. */
  function SliderLed(p: Params, s: UiState, input: TickInput, i: nat): (led: LedColor)
    requires Ready(p, s, input) && i < p.numChannels
    ensures s.mode == Normal ==> led == Off || led == Green
    ensures s.mode == Normal && !input.chain.discovering && s.toggleCountdown > 0 ==> led == Off
    ensures s.mode == Normal && !input.chain.discovering && led == Green ==> s.sliderLedCounter[i] != 0
    ensures (&& s.mode == Normal && !input.chain.discovering && s.toggleCountdown == 0
             && !IsStageFamily(s.multimode) && s.multimode != SixEg) ==> led == Off
  {
    if s.mode == FactoryTest then
      FactorySliderLed(input.ms, s.sliderLedCounter[i])
    else if input.chain.discovering then
      if DiscoveryChannel(input.ms, input.chain.size, input.chain.index, p.numChannels) == Some(i)
      then Green else Off
    else if s.toggleCountdown > 0 then
      Off
    else if IsStageFamily(s.multimode) || s.multimode == SixEg then
      if s.sliderLedCounter[i] != 0 then Green else Off
    else
      Off
  }

  function RenderFrame(p: Params, s: UiState, input: TickInput): (f: Frame)
    requires Ready(p, s, input)
    ensures |f.ui| == p.numChannels && |f.slider| == p.numChannels
    ensures s.mode == Normal ==> forall i :: 0 <= i < p.numChannels ==> f.slider[i] == Off || f.slider[i] == Green
  {
    Frame(seq(p.numChannels, i requires 0 <= i < p.numChannels => UiLed(p, s, input, i)),
          seq(p.numChannels, i requires 0 <= i < p.numChannels => SliderLed(p, s, input, i)))
  }

  /** One slider counter after a render that decrements it. */
  function Decay(n: nat): (r: nat)
    ensures r <= n
    ensures r == 0 <==> n <= 1
  {
    if n > 0 then n - 1 else 0
  }

  /** The state after the render pass: outside factory test and discovery
      the overlay countdown and the slider counters decrease, stopping at 0. */
  function RenderState(p: Params, s: UiState, input: TickInput): (r: UiState)
    requires Ready(p, s, input)
    ensures ValidState(p, r)
    ensures r.(toggleCountdown := s.toggleCountdown, sliderLedCounter := s.sliderLedCounter) == s
  {
    if s.mode == FactoryTest || input.chain.discovering then s
    else
      s.(toggleCountdown := Decay(s.toggleCountdown),
         sliderLedCounter := seq(p.numChannels, i requires 0 <= i < p.numChannels => Decay(s.sliderLedCounter[i])))
  }

  // ---------------------------------------------------------------- Bank A

  /** Number of switches among the first n whose Bank A tick saves. */
  function SaveCount(pressed: seq<bool>, times: seq<int>, toggleThreshold: int, n: nat): (count: nat)
    requires n <= |pressed| && n <= |times|
  {
    if n == 0 then 0
    else SaveCount(pressed, times, toggleThreshold, n - 1)
         + if BankASaves(pressed[n - 1], times[n - 1], toggleThreshold) then 1 else 0
  }

  /** Bank A: only in the Ouroboros modes, every switch's timer advances and
      its release is classified. */
  function BankA(p: Params, s: UiState, pressed: seq<bool>): (r: UiState)
    requires ValidParams(p) && ValidState(p, s) && |pressed| == p.numSwitches
    ensures ValidState(p, r)
    ensures r.(pressTime := s.pressTime, segmentConfiguration := s.segmentConfiguration, saves := s.saves) == s
  {
    if !IsOuroboros(s.multimode) then s
    else
      s.(pressTime := seq(p.numSwitches, i requires 0 <= i < p.numSwitches => Advance(pressed[i], s.pressTime[i])),
         segmentConfiguration := seq(p.numChannels, i requires 0 <= i < p.numChannels =>
           if i < p.numSwitches
           then BankAConfig(pressed[i], s.pressTime[i], s.segmentConfiguration[i], p.toggleThreshold)
           else s.segmentConfiguration[i]),
         saves := s.saves + SaveCount(pressed, s.pressTime, p.toggleThreshold, p.numSwitches))
  }

  // ---------------------------------------------------------------- chain

  predicate Bit(m: bv8, i: nat)
    requires i < 8
  {
    (m >> i) & 1 == 1
  }

  /** The bitmask forwarded to the chain, built up switch by switch. */
  function MaskOf(pressed: seq<bool>): (mask: bv8)
    requires |pressed| <= 8
    ensures (forall i :: 0 <= i < |pressed| ==> !pressed[i]) ==> mask == 0
  {
    if |pressed| == 0 then 0
    else
      var k := |pressed| - 1;
      MaskOf(pressed[..k]) | if pressed[k] then (1 as bv8) << k else 0
  }

  /** Bit i of the forwarded bitmask is set iff switch i is pressed. */
  lemma {:induction false} MaskBits(pressed: seq<bool>)
    requires |pressed| <= 8
    ensures forall i :: 0 <= i < 8 ==> (Bit(MaskOf(pressed), i) <==> i < |pressed| && pressed[i])
  {
    if |pressed| > 0 {
      var k := |pressed| - 1;
      var rest := MaskOf(pressed[..k]);
      MaskBits(pressed[..k]);
      var single: bv8 := if pressed[k] then (1 as bv8) << k else 0;
      assert MaskOf(pressed) == rest | single;
      forall i | 0 <= i < 8
        ensures Bit(rest | single, i) <==> i < |pressed| && pressed[i]
      {
        OrBit(rest, single, i);
        SingleBit(k, i);
        assert i < k ==> pressed[..k][i] == pressed[i];
      }
    }
  }

  lemma OrBit(a: bv8, b: bv8, i: nat)
    requires i < 8
    ensures Bit(a | b, i) <==> Bit(a, i) || Bit(b, i)
  {
    if i == 0 {} else if i == 1 {} else if i == 2 {} else if i == 3 {}
    else if i == 4 {} else if i == 5 {} else if i == 6 {} else {}
  }

  lemma SingleBit(k: nat, i: nat)
    requires k < 8 && i < 8
    ensures Bit((1 as bv8) << k, i) <==> i == k
    ensures !Bit(0, i)
  {
    if i == 0 {} else if i == 1 {} else if i == 2 {} else if i == 3 {}
    else if i == 4 {} else if i == 5 {} else if i == 6 {} else {}
  }

  // ---------------------------------------------------------------- Bank B

  /** The part of the state a mode toggle touches; `froze` records that the
      Bank A timers were all set to `Frozen`. */
  datatype ToggleState = ToggleState(
    multimode: MultiMode, froze: bool, suspends: nat, saves: nat, countdown: nat, channel: nat)

  /** MultiModeToggle(i): switch to the mode of switch i if it differs,
      freezing Bank A, suspending the chain's switches and saving; in every
      case start the confirmation overlay on channel i. */
  function ApplyToggle(t: ToggleState, i: nat): (r: ToggleState)
    requires i < |Multimodes|
    ensures r.multimode == Multimodes[i] && r.channel == i && r.countdown == ToggleDisplayDuration
    ensures r.froze <==> t.froze || t.multimode != Multimodes[i]
    ensures r.suspends == t.suspends + (if t.multimode != Multimodes[i] then 1 else 0)
    ensures r.saves - t.saves == r.suspends - t.suspends
  {
    var target := Multimodes[i];
    var changed :=
      if t.multimode != target
      then t.(multimode := target, froze := true, suspends := t.suspends + 1, saves := t.saves + 1)
      else t;
    changed.(countdown := ToggleDisplayDuration, channel := i)
  }

  /** The toggles fired by the first n switches, in switch order. */
  function ApplyToggles(t: ToggleState, fires: seq<bool>, n: nat): (r: ToggleState)
    requires n <= |fires| <= |Multimodes|
    ensures r.countdown == t.countdown || r.countdown == ToggleDisplayDuration
    ensures r.channel == t.channel || r.channel < n
  {
    if n == 0 then t
    else
      var before := ApplyToggles(t, fires, n - 1);
      if fires[n - 1] then ApplyToggle(before, n - 1) else before
  }

  function Fires(p: Params, s: UiState, pressed: seq<bool>): (fires: seq<bool>)
    requires ValidParams(p) && ValidState(p, s) && |pressed| == p.numSwitches
    ensures |fires| == p.numSwitches
  {
    seq(p.numSwitches, i requires 0 <= i < p.numSwitches =>
      BankBFires(pressed[i], s.pressTimeToggle[i], p.toggleThreshold))
  }

  function ToggleStateOf(s: UiState): (t: ToggleState) {
    ToggleState(s.multimode, false, s.suspends, s.saves, s.toggleCountdown, s.toggleChannel)
  }

  /** Bank B: every switch's very-long-press timer advances; each that
      crosses the threshold fires the mode toggle and freezes. */
  function BankB(p: Params, s: UiState, pressed: seq<bool>): (r: UiState)
    requires ValidParams(p) && ValidState(p, s) && |pressed| == p.numSwitches
    ensures ValidState(p, r)
    ensures r.segmentConfiguration == s.segmentConfiguration && r.sliderLedCounter == s.sliderLedCounter
    ensures r.mode == s.mode && r.colorBlind == s.colorBlind && r.localPressed == s.localPressed
  {
    var t := ApplyToggles(ToggleStateOf(s), Fires(p, s, pressed), p.numSwitches);
    s.(pressTimeToggle := seq(p.numSwitches, i requires 0 <= i < p.numSwitches =>
         BankBTimer(pressed[i], s.pressTimeToggle[i], p.toggleThreshold)),
       pressTime := if t.froze then seq(p.numSwitches, i => Frozen) else s.pressTime,
       multimode := t.multimode,
       suspends := t.suspends,
       saves := t.saves,
       toggleCountdown := t.countdown,
       toggleChannel := t.channel)
  }

  // ---------------------------------------------------------------- a tick

  /** The state after one call of Poll. */
  function PollState(p: Params, s: UiState, input: TickInput): (r: UiState)
    requires Ready(p, s, input)
    ensures ValidState(p, r) && r.mode == s.mode && r.colorBlind == s.colorBlind
    ensures r.localPressed == MaskOf(input.pressed)
  {
    var rendered := RenderState(p, s, input);
    var bankA := BankA(p, rendered, input.pressed);
    BankB(p, bankA.(localPressed := MaskOf(input.pressed)), input.pressed)
  }

  /** The state after Init, from the persisted settings and chain record
      as they were before (`before`; its other fields are ignored) and the
      immediate (undebounced) reading of switch 0. */
  function InitState(p: Params, before: UiState, pressedAtBoot: bool): (s: UiState)
    ensures |before.segmentConfiguration| == p.numChannels ==> ValidState(p, s)
    ensures s.mode == Normal && s.toggleCountdown == 0
    ensures s.segmentConfiguration == before.segmentConfiguration && s.multimode == before.multimode
    ensures s.saves - before.saves == (if pressedAtBoot then 1 else 0)
    ensures s.colorBlind != before.colorBlind <==> pressedAtBoot
  {
    UiState(Normal, seq(p.numSwitches, i => 0), seq(p.numSwitches, i => 0), seq(p.numChannels, i => 0),
            0, 0, before.segmentConfiguration, before.multimode,
            if pressedAtBoot then ToggleColorBlind(before.colorBlind) else before.colorBlind,
            if pressedAtBoot then before.saves + 1 else before.saves,
            before.suspends, before.localPressed)
  }

  function ToggleColorBlind(c: bv8): (r: bv8)
    ensures r != c
    ensures r == 0 || r == 1
  {
    if c == 1 then 0 else 1
  }

  // ---------------------------------------------------------------- lemmas

  /** Holding switch 0 at boot flips colour-blind rendering on or off and
      saves once; holding it at two boots in a row restores the setting. */
  lemma InitColorBlind(p: Params, before: UiState, pressedAtBoot: bool)
    ensures var s := InitState(p, before, pressedAtBoot);
            && (s.colorBlind == 1 <==> (if pressedAtBoot then before.colorBlind != 1 else before.colorBlind == 1))
            && s.saves == before.saves + (if pressedAtBoot then 1 else 0)
    ensures before.colorBlind == 0 || before.colorBlind == 1 ==>
              ToggleColorBlind(ToggleColorBlind(before.colorBlind)) == before.colorBlind
  {
  }

  /** Init leaves every timer idle, the overlay off, normal mode, and the
      settings as they were apart from the colour-blind flag. */
  lemma InitIsIdle(p: Params, before: UiState, pressedAtBoot: bool)
    requires ValidParams(p) && |before.segmentConfiguration| == p.numChannels
    ensures var s := InitState(p, before, pressedAtBoot);
            && ValidState(p, s) && s.mode == Normal
            && (forall i :: 0 <= i < p.numSwitches ==> s.pressTime[i] == 0 && s.pressTimeToggle[i] == 0)
            && (forall i :: 0 <= i < p.numChannels ==> s.sliderLedCounter[i] == 0)
            && s.toggleCountdown == 0
            && s.segmentConfiguration == before.segmentConfiguration && s.multimode == before.multimode
  {
  }

  /** A tick keeps the shape of the state and never leaves normal mode. */
  lemma PollKeepsShape(p: Params, s: UiState, input: TickInput)
    requires Ready(p, s, input)
    ensures ValidState(p, PollState(p, s, input))
    ensures PollState(p, s, input).mode == s.mode
  {
  }

  /** The toggles of one tick: a mode that ends different from where it
      started has frozen Bank A and suspended the chain's switches at least
      once; a tick that changes nothing else leaves the counters alone. */
  lemma {:induction false} TogglesFreezeOnChange(t: ToggleState, fires: seq<bool>, n: nat)
    requires n <= |fires| <= |Multimodes| && !t.froze
    ensures var r := ApplyToggles(t, fires, n);
            && (r.multimode != t.multimode ==> r.froze && r.suspends > t.suspends)
            && (r.froze <==> r.suspends > t.suspends)
            && t.suspends <= r.suspends <= t.suspends + n
            && r.suspends - t.suspends == r.saves - t.saves
  {
    if n > 0 {
      TogglesFreezeOnChange(t, fires, n - 1);
    }
  }

  /** With no toggle fired, the toggle state is untouched. */
  lemma {:induction false} NoFiresNoToggle(t: ToggleState, fires: seq<bool>, n: nat)
    requires n <= |fires| <= |Multimodes|
    requires forall i :: 0 <= i < n ==> !fires[i]
    ensures ApplyToggles(t, fires, n) == t
  {
    if n > 0 {
      NoFiresNoToggle(t, fires, n - 1);
    }
  }

  /** The last toggle fired decides the overlay's channel and restarts its
      countdown at 1000. */
  lemma {:induction false} LastToggleShown(t: ToggleState, fires: seq<bool>, n: nat, i: nat)
    requires n <= |fires| <= |Multimodes| && i < n && fires[i]
    requires forall j :: i < j < n ==> !fires[j]
    ensures ApplyToggles(t, fires, n).channel == i
    ensures ApplyToggles(t, fires, n).countdown == ToggleDisplayDuration
  {
    if n - 1 > i {
      LastToggleShown(t, fires, n - 1, i);
    }
  }

  /** A tick that changes the mode has frozen every Bank A timer, called
      SuspendSwitches and saved. */
  lemma ModeChangeFreezesBankA(p: Params, s: UiState, input: TickInput)
    requires Ready(p, s, input)
    ensures var r := PollState(p, s, input);
            r.multimode != s.multimode ==>
              && r.suspends > s.suspends
              && r.saves > s.saves
              && forall i :: 0 <= i < p.numSwitches ==> r.pressTime[i] == Frozen
  {
    var rendered := RenderState(p, s, input);
    var bankA := BankA(p, rendered, input.pressed);
    var m := bankA.(localPressed := MaskOf(input.pressed));
    TogglesFreezeOnChange(ToggleStateOf(m), Fires(p, m, input.pressed), p.numSwitches);
  }

  /** Outside the Ouroboros modes a tick never changes a segment
      configuration; the Bank A timers either stay as they were or are all
      frozen by a mode toggle. */
  lemma PollOutsideOuroboros(p: Params, s: UiState, input: TickInput)
    requires Ready(p, s, input) && !IsOuroboros(s.multimode)
    ensures var r := PollState(p, s, input);
            && r.segmentConfiguration == s.segmentConfiguration
            && (r.pressTime == s.pressTime || forall i :: 0 <= i < p.numSwitches ==> r.pressTime[i] == Frozen)
  {
  }

  /** With no switch pressed no toggle fires: mode, suspends and overlay
      channel stay, and the Bank B timers all read 0. */
  lemma PollReleasedNoToggle(p: Params, s: UiState, input: TickInput)
    requires Ready(p, s, input)
    requires forall i :: 0 <= i < p.numSwitches ==> !input.pressed[i]
    ensures var r := PollState(p, s, input);
            && r.multimode == s.multimode && r.suspends == s.suspends
            && r.toggleChannel == s.toggleChannel
            && r.toggleCountdown == RenderState(p, s, input).toggleCountdown
            && forall i :: 0 <= i < p.numSwitches ==> r.pressTimeToggle[i] == 0
  {
    var rendered := RenderState(p, s, input);
    var bankA := BankA(p, rendered, input.pressed);
    var m := bankA.(localPressed := MaskOf(input.pressed));
    NoFiresNoToggle(ToggleStateOf(m), Fires(p, m, input.pressed), p.numSwitches);
  }

  /** In an Ouroboros mode, releasing switch i after a tap cycles its
      Ouroboros type and keeps every other bit; after a long press it flips
      exactly the waveshape bit. Either way the timer restarts from 0 (or
      from `Frozen` if another switch changed the mode in the same tick). */
  lemma OuroborosRelease(p: Params, s: UiState, input: TickInput, i: nat)
    requires Ready(p, s, input) && IsOuroboros(s.multimode)
    requires i < p.numSwitches && !input.pressed[i]
    ensures var r := PollState(p, s, input);
            var t, c := s.pressTime[i], s.segmentConfiguration[i];
            && ValidState(p, r)
            && (0 < t <= LongPressDuration ==>
                  r.segmentConfiguration[i] == CycleOuroborosType(c) && r.saves > s.saves)
            && (LongPressDuration < t < p.toggleThreshold ==>
                  r.segmentConfiguration[i] == c ^ WaveshapeMsbMask && r.saves > s.saves)
            && (t <= 0 || t >= p.toggleThreshold ==> r.segmentConfiguration[i] == c)
            && r.pressTime[i] == if r.suspends > s.suspends then Frozen else 0
  {
    PollKeepsShape(p, s, input);
    var t, c := s.pressTime[i], s.segmentConfiguration[i];
    var rendered := RenderState(p, s, input);
    assert rendered.pressTime == s.pressTime && rendered.segmentConfiguration == s.segmentConfiguration;
    assert rendered.multimode == s.multimode && rendered.saves == s.saves;
    BankARelease(p, rendered, input.pressed, i);
    var bankA := BankA(p, rendered, input.pressed);
    var m := bankA.(localPressed := MaskOf(input.pressed));
    BankBKeepsConfig(p, m, input.pressed, i);
    var r := PollState(p, s, input);
    assert r == BankB(p, m, input.pressed);
    assert r.segmentConfiguration[i] == BankAConfig(false, t, c, p.toggleThreshold);
    assert r.saves >= s.saves + (if BankASaves(false, t, p.toggleThreshold) then 1 else 0);
    ReleaseIntervals(t, p.toggleThreshold);
    if 0 < t <= LongPressDuration {
      assert r.segmentConfiguration[i] == CycleOuroborosType(c);
    } else if LongPressDuration < t < p.toggleThreshold {
      assert r.segmentConfiguration[i] == c ^ WaveshapeMsbMask;
    } else {
      assert r.segmentConfiguration[i] == c;
    }
    TogglesFreezeOnChange(ToggleStateOf(m), Fires(p, m, input.pressed), p.numSwitches);
  }

  /** Bank A in an Ouroboros mode, for a released switch i. */
  lemma BankARelease(p: Params, s: UiState, pressed: seq<bool>, i: nat)
    requires ValidParams(p) && ValidState(p, s) && |pressed| == p.numSwitches
    requires IsOuroboros(s.multimode) && i < p.numSwitches && !pressed[i]
    ensures var r := BankA(p, s, pressed);
            && ValidState(p, r)
            && r.segmentConfiguration[i] == BankAConfig(false, s.pressTime[i], s.segmentConfiguration[i], p.toggleThreshold)
            && r.pressTime[i] == 0
            && r.saves >= s.saves + (if BankASaves(false, s.pressTime[i], p.toggleThreshold) then 1 else 0)
  {
    if BankASaves(false, s.pressTime[i], p.toggleThreshold) {
      SaveCountAtLeast(pressed, s.pressTime, p.toggleThreshold, p.numSwitches, i);
    }
  }

  /** Bank B never touches a segment configuration, never lowers the save
      count, and either keeps a Bank A timer or freezes it. */
  lemma BankBKeepsConfig(p: Params, s: UiState, pressed: seq<bool>, i: nat)
    requires ValidParams(p) && ValidState(p, s) && |pressed| == p.numSwitches && i < p.numSwitches
    ensures var r := BankB(p, s, pressed);
            && ValidState(p, r)
            && r.segmentConfiguration == s.segmentConfiguration
            && r.saves >= s.saves
            && (r.pressTime[i] == s.pressTime[i] || r.pressTime[i] == Frozen)
  {
    TogglesFreezeOnChange(ToggleStateOf(s), Fires(p, s, pressed), p.numSwitches);
  }

  /** A switch whose Bank A tick saves adds one to the save count. */
  lemma {:induction false} SaveCountAtLeast(pressed: seq<bool>, times: seq<int>, toggleThreshold: int, n: nat, i: nat)
    requires n <= |pressed| && n <= |times| && i < n
    requires BankASaves(pressed[i], times[i], toggleThreshold)
    ensures SaveCount(pressed, times, toggleThreshold, n) >= 1
  {
    if i < n - 1 {
      SaveCountAtLeast(pressed, times, toggleThreshold, n - 1, i);
    }
  }

  /** The forwarded bitmask has bit i set iff switch i is pressed, in every
      mode. */
  lemma ForwardedMask(p: Params, s: UiState, input: TickInput)
    requires Ready(p, s, input)
    ensures forall i :: 0 <= i < 8 ==>
              (Bit(PollState(p, s, input).localPressed, i) <==> i < p.numSwitches && input.pressed[i])
  {
    MaskBits(input.pressed);
  }

  /** While the chain discovers, at most one channel LED is lit, in yellow,
      exactly where the chain-wide sweep crosses this module's window; the
      counters are left alone. */
  lemma DiscoveryFrame(p: Params, s: UiState, input: TickInput)
    requires Ready(p, s, input) && s.mode == Normal && input.chain.discovering
    ensures var f := RenderFrame(p, s, input);
            var n := input.chain.size * p.numChannels;
            var base := input.chain.index * p.numChannels;
            && n >= 2
            && (forall i :: 0 <= i < p.numChannels ==> f.ui[i] == Off || f.ui[i] == Yellow)
            && (forall i :: 0 <= i < p.numChannels ==> (f.ui[i] == Yellow <==> base + i == SweepPosition(input.ms, n)))
            && (forall i, j :: 0 <= i < j < p.numChannels ==> f.ui[i] == Off || f.ui[j] == Off)
            && (forall i :: 0 <= i < p.numChannels ==> (f.slider[i] == Green <==> f.ui[i] == Yellow))
    ensures RenderState(p, s, input) == s
  {
    var f := RenderFrame(p, s, input);
    var n := input.chain.size * p.numChannels;
    var base := input.chain.index * p.numChannels;
    var d := DiscoveryChannel(input.ms, input.chain.size, input.chain.index, p.numChannels);
    forall i | 0 <= i < p.numChannels
      ensures f.ui[i] == Yellow <==> base + i == SweepPosition(input.ms, n)
    {
      assert f.ui[i] == UiLed(p, s, input, i);
    }
  }

  /** While the overlay runs, only the channel of the switch that changed the
      mode is lit (yellow), the sliders are dark, and the countdown drops by
      one; the slider counters keep decaying. */
  lemma OverlayFrame(p: Params, s: UiState, input: TickInput)
    requires Ready(p, s, input) && s.mode == Normal && !input.chain.discovering
    requires s.toggleCountdown > 0
    ensures var f := RenderFrame(p, s, input);
            && (forall i :: 0 <= i < p.numChannels ==> f.ui[i] == if i == s.toggleChannel then Yellow else Off)
            && (forall i :: 0 <= i < p.numChannels ==> f.slider[i] == Off)
    ensures RenderState(p, s, input).toggleCountdown == s.toggleCountdown - 1
    ensures forall i :: 0 <= i < p.numChannels ==>
              RenderState(p, s, input).sliderLedCounter[i] == Decay(s.sliderLedCounter[i])
  {
  }

  /** Without the overlay, the Stages and Ouroboros modes show each channel's
      own colour and brightness, and a slider LED is lit while its counter
      is nonzero. */
  lemma StageFamilyFrame(p: Params, s: UiState, input: TickInput)
    requires Ready(p, s, input) && s.mode == Normal && !input.chain.discovering
    requires s.toggleCountdown == 0 && IsStageFamily(s.multimode)
    ensures var f := RenderFrame(p, s, input);
            forall i :: 0 <= i < p.numChannels ==>
              && f.ui[i] == ChannelLed(s.multimode, s.segmentConfiguration[i], input.chain.loopStatus[i],
                                       s.colorBlind, input.ms, i)
              && (f.slider[i] == Green <==> s.sliderLedCounter[i] != 0)
  {
  }

  /** Without the overlay, the six-EG mode copies the engine's colours to the
      channel LEDs, and a slider LED is lit while its counter is nonzero. */
  lemma SixEgFrame(p: Params, s: UiState, input: TickInput)
    requires Ready(p, s, input) && s.mode == Normal && !input.chain.discovering
    requires s.toggleCountdown == 0 && s.multimode == SixEg
    ensures var f := RenderFrame(p, s, input);
            forall i :: 0 <= i < p.numChannels ==>
              && f.ui[i] == input.ledColor[i]
              && (f.slider[i] == Green <==> s.sliderLedCounter[i] != 0)
  {
  }

  /** Every render outside factory test and discovery decrements the slider
      counters, stopping at 0; the other two branches leave them alone. */
  lemma SliderCountersDecay(p: Params, s: UiState, input: TickInput)
    requires Ready(p, s, input)
    ensures var r := RenderState(p, s, input);
            forall i :: 0 <= i < p.numChannels ==>
              r.sliderLedCounter[i] ==
                if s.mode == FactoryTest || input.chain.discovering then s.sliderLedCounter[i]
                else if s.sliderLedCounter[i] > 0 then s.sliderLedCounter[i] - 1 else 0
  {
  }

  /** The state after a run of ticks. */
  function PollMany(p: Params, s: UiState, inputs: seq<TickInput>): (r: UiState)
    requires ValidParams(p) && ValidState(p, s)
    requires forall k :: 0 <= k < |inputs| ==> ValidInput(p, inputs[k])
    decreases |inputs|
  {
    if |inputs| == 0 then s
    else
      PollKeepsShape(p, s, inputs[0]);
      PollMany(p, PollState(p, s, inputs[0]), inputs[1..])
  }

  /** Whether a tick fires no mode toggle: no switch pushes its Bank B
      timer past the threshold. Switches may be held, such as the one that
      started the overlay, whose timer stays frozen. */
  predicate NoToggleFires(p: Params, s: UiState, pressed: seq<bool>)
    requires |pressed| == p.numSwitches && |s.pressTimeToggle| == p.numSwitches
  {
    forall i :: 0 <= i < p.numSwitches ==> !BankBFires(pressed[i], s.pressTimeToggle[i], p.toggleThreshold)
  }

  /** A switch held with its Bank B timer frozen cannot fire again, so a
      tick in which only such switches are held fires no toggle. */
  lemma FrozenHoldsAreQuiet(p: Params, s: UiState, pressed: seq<bool>)
    requires ValidParams(p) && ValidState(p, s) && |pressed| == p.numSwitches
    requires forall i :: 0 <= i < p.numSwitches && pressed[i] ==> s.pressTimeToggle[i] == Frozen
    ensures NoToggleFires(p, s, pressed)
  {
  }

  /** A tick with no discovery that fires no toggle keeps the mode and the
      overlay channel and counts the overlay down by one render. */
  lemma OverlayTick(p: Params, s: UiState, input: TickInput)
    requires Ready(p, s, input) && s.mode == Normal && !input.chain.discovering
    requires NoToggleFires(p, s, input.pressed)
    ensures var r := PollState(p, s, input);
            && r.toggleCountdown == Decay(s.toggleCountdown)
            && r.toggleChannel == s.toggleChannel
            && r.multimode == s.multimode && r.mode == Normal
  {
    var rendered := RenderState(p, s, input);
    var bankA := BankA(p, rendered, input.pressed);
    var m := bankA.(localPressed := MaskOf(input.pressed));
    var fires := Fires(p, m, input.pressed);
    assert m.pressTimeToggle == s.pressTimeToggle;
    assert forall i :: 0 <= i < p.numSwitches ==> !fires[i];
    NoFiresNoToggle(ToggleStateOf(m), fires, p.numSwitches);
  }

  /** A run of ticks with no discovery in which no tick fires a toggle. */
  predicate QuietRun(p: Params, s: UiState, inputs: seq<TickInput>)
    requires ValidParams(p) && ValidState(p, s)
    requires forall k :: 0 <= k < |inputs| ==> ValidInput(p, inputs[k])
    decreases |inputs|
  {
    |inputs| == 0 ||
    (assert ValidInput(p, inputs[0]);
     && !inputs[0].chain.discovering
     && NoToggleFires(p, s, inputs[0].pressed)
     && (PollKeepsShape(p, s, inputs[0]);
         QuietRun(p, PollState(p, s, inputs[0]), inputs[1..])))
  }

  /** Once started, the overlay counts down one render at a time: after k
      ticks with no discovery and no further toggle (the switch that started
      it may still be held), k fewer renders are left (never below 0), so
      it ends after exactly its duration. */
  lemma {:induction false} OverlayCountsDown(p: Params, s: UiState, inputs: seq<TickInput>)
    requires ValidParams(p) && ValidState(p, s) && s.mode == Normal
    requires forall k :: 0 <= k < |inputs| ==> ValidInput(p, inputs[k])
    requires QuietRun(p, s, inputs)
    ensures PollMany(p, s, inputs).toggleCountdown ==
              if s.toggleCountdown > |inputs| then s.toggleCountdown - |inputs| else 0
    ensures PollMany(p, s, inputs).mode == Normal
    decreases |inputs|
  {
    if |inputs| > 0 {
      PollKeepsShape(p, s, inputs[0]);
      OverlayTick(p, s, inputs[0]);
      var next := PollState(p, s, inputs[0]);
      OverlayCountsDown(p, next, inputs[1..]);
    }
  }

  /** Factory test: channels whose slider counter is 0 show one and the
      same lit colour, each with its slider LED green exactly while that
      colour is green; the other channels are green. */
  lemma FactoryLockStep(p: Params, s: UiState, input: TickInput, i: nat, j: nat)
    requires Ready(p, s, input) && s.mode == FactoryTest
    requires i < p.numChannels && j < p.numChannels
    ensures s.sliderLedCounter[i] == 0 && s.sliderLedCounter[j] == 0 ==>
              && UiLed(p, s, input, i) == UiLed(p, s, input, j) != Off
              && (SliderLed(p, s, input, i) == Green <==> UiLed(p, s, input, i) == Green)
    ensures s.sliderLedCounter[i] != 0 ==>
              && UiLed(p, s, input, i) == Green
              && (SliderLed(p, s, input, i) == Green <==> s.sliderLedCounter[i] >= 2)
  {
    FactoryLeds(input.ms, s.sliderLedCounter[i]);
    FactoryLeds(input.ms, s.sliderLedCounter[j]);
  }
}
