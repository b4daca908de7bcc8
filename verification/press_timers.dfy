/**
  The two per-switch press timers, one tick at a time.

  Bank A (Ouroboros modes only) classifies a press when the switch is
  released: a tap cycles the Ouroboros segment type, a long press flips the
  waveshape high bit. Bank B (every mode) fires the mode toggle while the
  switch is still held, once the very-long threshold is passed, and then
  freezes itself so that it fires once per hold. Both timers count held
  ticks, stay put at the `Frozen` sentinel and return to 0 on release.
 */
module PressTimers {
  import opened UiTypes
  import opened SegmentConfig

  /** Sentinel of a timer that must not count until its switch is released. */
  const Frozen: int := -1

  /** One tick of either timer: count while held unless frozen, 0 on release. */
  function Advance(pressed: bool, t: int): (next: int)
    ensures !pressed ==> next == 0
    ensures pressed && 0 <= t ==> next == t + 1
    ensures t == Frozen || 0 <= t ==> next == Frozen || 0 <= next
  {
    if !pressed then 0 else if t != Frozen then t + 1 else t
  }

  datatype ReleaseAction = NoAction | CycleType | FlipWaveshape

  /** What releasing a switch whose Bank A timer reads `t` does. */
  function ClassifyRelease(t: int, toggleThreshold: int): (a: ReleaseAction)
    ensures a == CycleType ==> 0 < t <= LongPressDuration
    ensures a == FlipWaveshape ==> LongPressDuration < t < toggleThreshold
    ensures a == NoAction ==> t <= 0 || t >= toggleThreshold
  {
    if t > LongPressDuration then
      if t < toggleThreshold then FlipWaveshape else NoAction
    else if t > 0 then CycleType
    else NoAction
  }

  function ApplyRelease(a: ReleaseAction, c: bv8): (r: bv8) {
    match a
    case NoAction => c
    case CycleType => CycleOuroborosType(c)
    case FlipWaveshape => FlipWaveshapeMsb(c)
  }

  /** Segment configuration after one Bank A tick of one switch. */
  function BankAConfig(pressed: bool, t: int, c: bv8, toggleThreshold: int): (r: bv8)
    ensures pressed ==> r == c
    ensures r != c ==> BankASaves(pressed, t, toggleThreshold)
    ensures PrimaryType(r) == PrimaryType(c)
  {
    if pressed then c else ApplyRelease(ClassifyRelease(t, toggleThreshold), c)
  }

  /** Whether one Bank A tick of one switch saves the settings. */
  predicate BankASaves(pressed: bool, t: int, toggleThreshold: int) {
    !pressed && ClassifyRelease(t, toggleThreshold) != NoAction
  }

  /** Whether one Bank B tick of one switch fires the mode toggle. */
  predicate BankBFires(pressed: bool, t: int, toggleThreshold: int)
    ensures BankBFires(pressed, t, toggleThreshold) ==> pressed && t >= toggleThreshold
    ensures pressed && 0 <= toggleThreshold <= t ==> BankBFires(pressed, t, toggleThreshold)
  {
    pressed && Advance(pressed, t) > toggleThreshold
  }

  /** Bank B timer after one tick: frozen once it has fired. */
  function BankBTimer(pressed: bool, t: int, toggleThreshold: int): (next: int)
    ensures !pressed ==> next == 0
    ensures next == Frozen || next == Advance(pressed, t)
    ensures 0 <= toggleThreshold ==> next <= toggleThreshold
  {
    if BankBFires(pressed, t, toggleThreshold) then Frozen else Advance(pressed, t)
  }

  /** The release classification by press length: taps are 1..500 ticks,
      long presses 501 ticks up to the toggle threshold (excluded); an idle
      timer, a frozen one and a press that reached the toggle threshold do
      nothing. */
  lemma ReleaseIntervals(t: int, toggleThreshold: int)
    requires toggleThreshold > LongPressDuration
    ensures ClassifyRelease(t, toggleThreshold) == CycleType <==> 0 < t <= LongPressDuration
    ensures ClassifyRelease(t, toggleThreshold) == FlipWaveshape <==> LongPressDuration < t < toggleThreshold
    ensures ClassifyRelease(t, toggleThreshold) == NoAction <==> t <= 0 || t >= toggleThreshold
  {
  }

  /** Releasing after a tap sets bits 4-5 to (old + 1) mod 3, keeps every
      other bit, saves, and resets the timer. */
  lemma TapRelease(t: int, c: bv8, toggleThreshold: int)
    requires toggleThreshold > LongPressDuration && 0 < t <= LongPressDuration
    ensures var r := BankAConfig(false, t, c, toggleThreshold);
            && OuroborosType(r) as int == (OuroborosType(c) as int + 1) % 3
            && r & !OuroborosTypeMask == c & !OuroborosTypeMask
    ensures BankASaves(false, t, toggleThreshold) && Advance(false, t) == 0
  {
  }

  /** Releasing after a long press flips exactly bit 6, saves, and resets the
      timer. */
  lemma LongPressRelease(t: int, c: bv8, toggleThreshold: int)
    requires LongPressDuration < t < toggleThreshold
    ensures BankAConfig(false, t, c, toggleThreshold) == c ^ 0x40
    ensures BankASaves(false, t, toggleThreshold) && Advance(false, t) == 0
  {
  }

  /** Releasing an idle or frozen timer, or one that reached the toggle
      threshold, changes nothing and does not save; the timer still resets. */
  lemma InertRelease(t: int, c: bv8, toggleThreshold: int)
    requires toggleThreshold > LongPressDuration
    requires t == 0 || t == Frozen || t >= toggleThreshold
    ensures BankAConfig(false, t, c, toggleThreshold) == c
    ensures !BankASaves(false, t, toggleThreshold) && Advance(false, t) == 0
  {
  }

  /** Holding a switch never changes its configuration nor saves. */
  lemma HeldIsInert(t: int, c: bv8, toggleThreshold: int)
    ensures BankAConfig(true, t, c, toggleThreshold) == c
    ensures !BankASaves(true, t, toggleThreshold)
  {
  }

  /** A timer after `k` more ticks of a continuous hold. */
  function HeldTimer(t: int, k: nat): (r: int)
    decreases k
  {
    if k == 0 then t else Advance(true, HeldTimer(t, k - 1))
  }

  /** A frozen Bank A timer stays frozen for the rest of the hold; otherwise
      it counts the held ticks. */
  lemma {:induction false} HeldTimerValue(t: int, k: nat)
    requires t == Frozen || 0 <= t
    ensures HeldTimer(t, k) == if t == Frozen then Frozen else t + k
  {
    if k > 0 {
      HeldTimerValue(t, k - 1);
    }
  }

  datatype HoldOutcome = HoldOutcome(timer: int, fires: nat)

  /** Bank B after `k` more ticks of a continuous hold: its timer and how
      many times it fired the mode toggle. */
  function HoldB(t: int, k: nat, toggleThreshold: int): (h: HoldOutcome)
    decreases k
  {
    if k == 0 then HoldOutcome(t, 0)
    else
      var h := HoldB(t, k - 1, toggleThreshold);
      HoldOutcome(BankBTimer(true, h.timer, toggleThreshold),
                  h.fires + if BankBFires(true, h.timer, toggleThreshold) then 1 else 0)
  }

  /** Over any continuous hold the mode toggle fires at most once: exactly
      when the hold pushes a counting timer past the threshold. From then on
      the timer reads `Frozen` until the release resets it to 0. */
  lemma {:induction false} HoldFiresOnce(t: int, k: nat, toggleThreshold: int)
    requires 0 <= toggleThreshold
    requires t == Frozen || 0 <= t <= toggleThreshold
    ensures HoldB(t, k, toggleThreshold).fires == if t != Frozen && t + k > toggleThreshold then 1 else 0
    ensures HoldB(t, k, toggleThreshold).timer ==
              if t == Frozen || t + k > toggleThreshold then Frozen else t + k
  {
    if k > 0 {
      HoldFiresOnce(t, k - 1, toggleThreshold);
    }
  }

  /** From a released switch, a hold fires the toggle iff it lasts more than
      `toggleThreshold` ticks, and then exactly once. */
  lemma HoldFromReleaseFires(k: nat, toggleThreshold: int)
    requires 0 <= toggleThreshold
    ensures HoldB(0, k, toggleThreshold).fires == if k > toggleThreshold then 1 else 0
    ensures HoldB(0, k, toggleThreshold).fires <= 1
  {
    HoldFiresOnce(0, k, toggleThreshold);
  }

  /** One switch, from released, held for k ticks and then released: by
      the hold length alone, 1..500 ticks cycle the Ouroboros type, 501 up to
      below the threshold flip the waveshape bit, and neither fires the mode
      toggle; a hold of exactly the threshold does nothing at all; a longer
      hold fires the toggle once and its release edits nothing, whether or
      not the toggle froze the Bank A timer. */
  lemma HoldLength(k: nat, c: bv8, toggleThreshold: int)
    requires toggleThreshold > LongPressDuration
    ensures var t, fires := HeldTimer(0, k), HoldB(0, k, toggleThreshold).fires;
            && (1 <= k <= LongPressDuration ==>
                  BankAConfig(false, t, c, toggleThreshold) == CycleOuroborosType(c) && fires == 0)
            && (LongPressDuration < k < toggleThreshold ==>
                  BankAConfig(false, t, c, toggleThreshold) == c ^ 0x40 && fires == 0)
            && (k == toggleThreshold ==>
                  BankAConfig(false, t, c, toggleThreshold) == c && !BankASaves(false, t, toggleThreshold)
                  && fires == 0)
            && (k > toggleThreshold ==>
                  && fires == 1
                  && BankAConfig(false, t, c, toggleThreshold) == c
                  && BankAConfig(false, Frozen, c, toggleThreshold) == c)
  {
    HeldTimerValue(0, k);
    HoldFromReleaseFires(k, toggleThreshold);
    ReleaseIntervals(k, toggleThreshold);
  }
}
