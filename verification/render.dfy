/**
  Pure pieces of the LED renderer: the colour and brightness of one channel
  in the Stages and Ouroboros modes (with the colour-blind variant), the
  ping-pong sweep shown while the chain discovers its neighbours, and the
  factory-test pattern.
 */
module Render {
  import opened UiTypes
  import opened SegmentConfig
  import opened Fade

  /** The four brightness shapes, indexed like the loop status: steady,
      loop start, loop end, self loop. All are read from one clock value. */
  function FadePatterns(ms: bv32): (p: seq<int>)
    ensures |p| == 4 && p[0] == 0xf
    ensures forall k :: 0 <= k < 4 ==> 0 <= p[k] <= 16
  {
    [0xf, FadePattern(ms, 4, 0) as int, FadePattern(ms, 4, 0x0f) as int, FadePattern(ms, 4, 0x08) as int]
  }

  /** The PWM reference: the low four bits of the clock. */
  function Pwm(ms: bv32): (r: int)
    ensures 0 <= r < 16
  {
    ((ms & 0xf) as bv8) as int
  }

  /** Segment type shown by a channel: the Stages read path (bits 0-1) or
      the Ouroboros read path (bits 4-5) of the same byte. */
  function SegmentType(mode: MultiMode, c: bv8): (t: nat)
    ensures t < 4
    ensures t == if IsOuroboros(mode) then OuroborosType(c) as int else PrimaryType(c) as int
  {
    var configuration := if IsOuroboros(mode) then c >> 4 else c;
    (configuration & 0x3) as int
  }

  /** Brightness before the colour-blind adjustment: chosen by the waveshape
      bit in the Ouroboros modes, by the loop status in the Stages modes. */
  function BaseBrightness(mode: MultiMode, c: bv8, loop: LoopStatus, ms: bv32): (b: int)
    ensures 0 <= b <= 16
  {
    var patterns := FadePatterns(ms);
    var configuration := if IsOuroboros(mode) then c >> 4 else c;
    patterns[if IsOuroboros(mode) then (if configuration & 0x4 != 0 then 3 else 0) else LoopIndex(loop)]
  }

  /** Phase of the colour-blind modulation of channel i, as a uint8_t. */
  function ColorBlindPhase(i: nat): (phase: bv8) {
    ((13 - 2 * i) % 256) as bv8
  }

  datatype Shade = Shade(color: LedColor, brightness: int)

  /** Colour and brightness of a channel before the PWM comparison. */
  function ChannelShade(mode: MultiMode, c: bv8, loop: LoopStatus, colorBlind: bv8, ms: bv32, i: nat): (shade: Shade)
    ensures shade.color == Palette[SegmentType(mode, c)]
    ensures colorBlind != 1 ==> shade.brightness == BaseBrightness(mode, c, loop, ms)
  {
    var t := SegmentType(mode, c);
    var b := BaseBrightness(mode, c, loop, ms);
    if colorBlind == 1 && t == 0 then
      var modulation := (FadePattern(ms, 6, ColorBlindPhase(i)) >> 1) as int;
      Shade(Green, b * (7 + modulation) / 16)
    else if colorBlind == 1 && t == 1 then
      Shade(Yellow, if b >= 0x8 then 0xf else 0)
    else if colorBlind == 1 && t == 2 then
      Shade(Red, if b >= 0xc then 0x1 else 0)
    else
      Shade(Palette[t], b)
  }

  /** The LED of a channel in the Stages and Ouroboros modes. */
  function ChannelLed(mode: MultiMode, c: bv8, loop: LoopStatus, colorBlind: bv8, ms: bv32, i: nat): (led: LedColor)
    ensures led == Off || led == Palette[SegmentType(mode, c)]
  {
    var shade := ChannelShade(mode, c, loop, colorBlind, ms, i);
    if shade.brightness >= Pwm(ms) && shade.brightness != 0 then shade.color else Off
  }

  /** In the Ouroboros modes the brightness is steady (0xf) unless the
      waveshape bit is set, in which case it follows the self-loop fade. */
  lemma OuroborosBrightness(mode: MultiMode, c: bv8, loop: LoopStatus, ms: bv32)
    requires IsOuroboros(mode)
    ensures BaseBrightness(mode, c, loop, ms) ==
              if WaveshapeMsb(c) then FadePattern(ms, 4, 0x08) as int else 0xf
  {
    assert ((c >> 4) & 0x4 != 0) == WaveshapeMsb(c);
  }

  /** In the Stages modes the brightness is the fade shape of the loop status. */
  lemma StagesBrightness(mode: MultiMode, c: bv8, loop: LoopStatus, ms: bv32)
    requires !IsOuroboros(mode)
    ensures BaseBrightness(mode, c, loop, ms) == FadePatterns(ms)[LoopIndex(loop)]
  {
  }

  /** Whatever the colour-blind setting, a lit LED shows the palette colour
      of its segment type, so type 3 is never lit. */
  lemma ChannelHue(mode: MultiMode, c: bv8, loop: LoopStatus, colorBlind: bv8, ms: bv32, i: nat)
    ensures var led := ChannelLed(mode, c, loop, colorBlind, ms, i);
            led == Off || led == Palette[SegmentType(mode, c)]
    ensures SegmentType(mode, c) == 3 ==> ChannelLed(mode, c, loop, colorBlind, ms, i) == Off
  {
  }

  /** Without the colour-blind setting a channel is lit iff its brightness is
      nonzero and at least the PWM reference. */
  lemma ChannelLitNormal(mode: MultiMode, c: bv8, loop: LoopStatus, colorBlind: bv8, ms: bv32, i: nat)
    requires colorBlind != 1
    ensures var b := BaseBrightness(mode, c, loop, ms);
            var lit := ChannelLed(mode, c, loop, colorBlind, ms, i) != Off;
            lit <==> SegmentType(mode, c) != 3 && b >= Pwm(ms) && b != 0
  {
  }

  /** With the colour-blind setting, type 1 blinks yellow at full duty while
      the brightness is at least 8, type 2 shows a short red flash only while
      it is at least 12, and type 0 is a dimmed green. */
  lemma ChannelLitColorBlind(mode: MultiMode, c: bv8, loop: LoopStatus, ms: bv32, i: nat)
    ensures var b := BaseBrightness(mode, c, loop, ms);
            var led := ChannelLed(mode, c, loop, 1, ms, i);
            && (SegmentType(mode, c) == 1 ==> (led != Off <==> b >= 8))
            && (SegmentType(mode, c) == 2 ==> (led != Off <==> b >= 12 && Pwm(ms) <= 1))
            && (SegmentType(mode, c) == 0 ==>
                  ChannelShade(mode, c, loop, 1, ms, i).brightness <= b && (led != Off ==> b != 0))
  {
    var b := BaseBrightness(mode, c, loop, ms);
    if SegmentType(mode, c) == 0 {
      var modulation := (FadePattern(ms, 6, ColorBlindPhase(i)) >> 1) as int;
      assert 0 <= modulation <= 8;
      ScaledBrightness(b, modulation);
    }
  }

  lemma ScaledBrightness(b: int, modulation: int)
    requires 0 <= b <= 16 && 0 <= modulation <= 8
    ensures 0 <= b * (7 + modulation) / 16 <= b
  {
    assert b * (7 + modulation) <= b * 16;
  }

  /** The ping-pong walk over n positions: up 0..n-1, then back down. */
  function PingPong(counter: nat, n: nat): (pos: nat)
    requires n >= 2 && counter < 2 * n - 2
    ensures pos < n
  {
    if counter >= n then 2 * n - 2 - counter else counter
  }

  /** Consecutive counters move the highlight by exactly one LED, also when
      the counter wraps around the period 2n - 2. */
  lemma PingPongStep(counter: nat, n: nat)
    requires n >= 2 && counter < 2 * n - 2
    ensures var next := PingPong((counter + 1) % (2 * n - 2), n);
            next == PingPong(counter, n) + 1 || next + 1 == PingPong(counter, n)
  {
    var period := 2 * n - 2;
    if counter + 1 < period {
      ModOfSmaller(counter + 1, period);
    } else {
      ModOfSelf(period);
    }
  }

  lemma ModOfSmaller(a: nat, m: nat)
    requires a < m
    ensures a % m == a
  {
  }

  lemma ModOfSelf(m: nat)
    requires m > 0
    ensures m % m == 0
  {
  }

  /** Position of the discovery sweep among the n LEDs of the whole chain. */
  function SweepPosition(ms: bv32, n: nat): (pos: nat)
    requires n >= 2
    ensures pos < n
  {
    PingPong(((ms >> 5) as int) % (2 * n - 2), n)
  }

  /** The local channel lit by the discovery sweep, if the sweep is inside
      this module's window of the chain. */
  function DiscoveryChannel(ms: bv32, size: nat, index: nat, numChannels: nat): (r: Option<nat>)
    requires size >= 1 && numChannels >= 2
    ensures size * numChannels >= 2
    ensures var pos := SweepPosition(ms, size * numChannels);
            r.Some? <==> index * numChannels <= pos < index * numChannels + numChannels
    ensures r.Some? ==>
              && r.value < numChannels
              && index * numChannels + r.value == SweepPosition(ms, size * numChannels)
  {
    ChainLength(size, numChannels);
    var counter := SweepPosition(ms, size * numChannels);
    if counter >= index * numChannels then
      var local := counter - index * numChannels;
      if local < numChannels then Some(local) else None
    else None
  }

  /** Two modules of four channels, this one second in the chain: at clock
      160 the sweep is at chain position 5, which is local channel 1. */
  lemma DiscoveryOffset()
    ensures SweepPosition(160, 8) == 5
    ensures DiscoveryChannel(160, 2, 1, 4) == Some(1)
  {
    assert (160 as bv32) >> 5 == 5;
  }

  lemma ChainLength(size: nat, numChannels: nat)
    requires size >= 1 && numChannels >= 2
    ensures size * numChannels >= numChannels >= 2
  {
  }

  /** Factory test: the palette entry shown by every idle channel. */
  function FactoryColorIndex(ms: bv32): (k: nat)
    ensures k < 3
  {
    ((ms >> 8) as int) % 3
  }

  function FactoryUiLed(ms: bv32, counter: nat): (led: LedColor)
    ensures led != Off
    ensures counter != 0 ==> led == Green
  {
    if counter == 0 then Palette[FactoryColorIndex(ms)] else Green
  }

  function FactorySliderLed(ms: bv32, counter: nat): (led: LedColor)
    ensures led == Off || led == Green
    ensures counter >= 2 ==> led == Green
  {
    if counter == 0 then (if FactoryColorIndex(ms) == 0 then Green else Off)
    else if counter == 1 then Off
    else Green
  }

  /** Factory test: an idle channel (counter 0) shows the lit palette
      colour of the moment, with its slider LED green exactly while that
      colour is green; a busy channel is green, its slider LED lit from a
      counter of 2 on. */
  lemma FactoryLeds(ms: bv32, counter: nat)
    ensures counter == 0 ==>
              && FactoryUiLed(ms, counter) == Palette[FactoryColorIndex(ms)] != Off
              && (FactorySliderLed(ms, counter) == Green <==> FactoryUiLed(ms, counter) == Green)
    ensures counter != 0 ==>
              && FactoryUiLed(ms, counter) == Green
              && (FactorySliderLed(ms, counter) == Green <==> counter >= 2)
  {
  }
}
