/**
  The per-channel segment configuration byte. One byte carries three fields
  at once:
    bits 0-1  segment type read by the Stages modes,
    bits 4-5  segment type read by the Ouroboros modes,
    bit  6    waveshape high bit read by the Ouroboros modes.
  The Ouroboros press gestures edit bits 4-6 only; the lemmas below show that
  the Stages read path never sees those edits.
 */
module SegmentConfig {

  const OuroborosTypeMask: bv8 := 0x30
  const WaveshapeMsbMask: bv8 := 0x40

  /** Segment type as read by the Stages modes. */
  function PrimaryType(c: bv8): (t: bv8) {
    c & 0x03
  }

  /** Segment type as read by the Ouroboros modes. */
  function OuroborosType(c: bv8): (t: bv8) {
    (c >> 4) & 0x03
  }

  function WaveshapeMsb(c: bv8): (isSet: bool) {
    c & WaveshapeMsbMask != 0
  }

  /** A short tap: cycles bits 4-5 through 0, 1, 2 and keeps every other bit. */
  function CycleOuroborosType(c: bv8): (r: bv8)
    ensures OuroborosType(r) == (OuroborosType(c) + 1) % 3
    ensures r & !OuroborosTypeMask == c & !OuroborosTypeMask
  {
    var typeBits := (c & 0x30) >> 4;
    (c & !0x30) | (((typeBits + 1) % 3) << 4)
  }

  /** A long press: flips the waveshape high bit and keeps every other bit. */
  function FlipWaveshapeMsb(c: bv8): (r: bv8)
    ensures WaveshapeMsb(r) == !WaveshapeMsb(c)
    ensures r & !WaveshapeMsbMask == c & !WaveshapeMsbMask
  {
    c ^ 0x40
  }

  /** Three taps restore a byte whose Ouroboros type is one of 0, 1, 2. */
  lemma ThreeTapsRestore(c: bv8)
    requires OuroborosType(c) < 3
    ensures CycleOuroborosType(CycleOuroborosType(CycleOuroborosType(c))) == c
  {
    var c1 := CycleOuroborosType(c);
    var c2 := CycleOuroborosType(c1);
    var c3 := CycleOuroborosType(c2);
    assert OuroborosType(c3) == OuroborosType(c);
    assert c3 & !OuroborosTypeMask == c & !OuroborosTypeMask;
    FieldsDetermineByte(c3, c);
  }

  /** A tap always leaves the Ouroboros type in 0, 1, 2, so from a byte with
      type 3 three taps give type 0 rather than the original byte. */
  lemma TapFromTypeThree(c: bv8)
    requires OuroborosType(c) == 3
    ensures OuroborosType(CycleOuroborosType(c)) == 1
    ensures CycleOuroborosType(CycleOuroborosType(CycleOuroborosType(c))) != c
  {
    var c3 := CycleOuroborosType(CycleOuroborosType(CycleOuroborosType(c)));
    assert OuroborosType(c3) == 0;
  }

  /** Two long presses restore the byte. */
  lemma FlipTwiceRestores(c: bv8)
    ensures FlipWaveshapeMsb(FlipWaveshapeMsb(c)) == c
  {
  }

  /** The Ouroboros gestures never change what the Stages modes read, and a
      tap never changes the waveshape bit nor a long press the Ouroboros type. */
  lemma OuroborosEditsKeepOtherFields(c: bv8)
    ensures PrimaryType(CycleOuroborosType(c)) == PrimaryType(c)
    ensures WaveshapeMsb(CycleOuroborosType(c)) == WaveshapeMsb(c)
    ensures PrimaryType(FlipWaveshapeMsb(c)) == PrimaryType(c)
    ensures OuroborosType(FlipWaveshapeMsb(c)) == OuroborosType(c)
  {
    var r := CycleOuroborosType(c);
    assert r & !OuroborosTypeMask == c & !OuroborosTypeMask;
    var f := FlipWaveshapeMsb(c);
    assert f & !WaveshapeMsbMask == c & !WaveshapeMsbMask;
  }

  /** A byte is determined by its Ouroboros type and the bits outside it. */
  lemma FieldsDetermineByte(a: bv8, b: bv8)
    requires OuroborosType(a) == OuroborosType(b)
    requires a & !OuroborosTypeMask == b & !OuroborosTypeMask
    ensures a == b
  {
  }
}
