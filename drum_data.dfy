/**
 * Decoding of the six-byte report of the Guitar Hero World Tour drum
 * extension into an optional drum strike (DrumData.java).  Bytes 0, 1, 4
 * and 5 are read but not used; byte 2 carries the "no velocity" flag in
 * bit 6 and the pad index in bits 1-5, byte 3 the softness in bits 5-7.
 */
module DrumData {
  import opened JavaTypes

  /** The six pads of the drum kit (ControlType). */
  datatype ControlType = Orange | Red | Blue | Yellow | Green | Pedal

  /** A hit on a pad; softness 0 is the hardest hit the controller reports. */
  datatype DrumStrike = DrumStrike(drumPad: ControlType, softness: int)

  /**
   * A Java reference of static type Object, as `DrumStrike.equals` receives it:
   * null, a drum strike, or an object of some other class.
   */
  datatype ObjectRef = Null | StrikeRef(strike: DrumStrike) | OtherRef(id: nat)

  /** The pad indices that name a pad; every other index is ignored. */
  const PadIndices: set<int> := {27, 25, 17, 15, 14, 18}

  /** The pad index the report uses for `pad`. */
  function IndexOf(pad: ControlType): (which: int)
    ensures which in PadIndices
  {
    match pad
    case Pedal => 27
    case Red => 25
    case Orange => 17
    case Blue => 15
    case Yellow => 14
    case Green => 18
  }

  /** The `switch` of getDrumOperation: the pad a pad index names, if any. */
  function PadOf(which: int): (pad: Option<ControlType>)
    ensures pad.Some? <==> which in PadIndices
    ensures pad.Some? ==> IndexOf(pad.value) == which
  {
    if which == 27 then Some(Pedal)
    else if which == 25 then Some(Red)
    else if which == 17 then Some(Orange)
    else if which == 15 then Some(Blue)
    else if which == 14 then Some(Yellow)
    else if which == 18 then Some(Green)
    else None
  }

  /** `(p_Data2 & 64) == 0`: the report carries a hit with a velocity. */
  predicate GotVelocity(d2: byte) {
    d2 & 64 == 0
  }

  /** `(p_Data3 & 224) >> 5`: the softness field, bits 5-7 of byte 3. */
  function SoftnessField(d3: byte): (softness: int)
    ensures 0 <= softness <= 7
  {
    ((d3 & 224) >> 5) as int
  }

  /** `(p_Data2 & 62) >> 1`: the pad index field, bits 1-5 of byte 2. */
  function PadIndexField(d2: byte): (which: int)
    ensures 0 <= which <= 31
  {
    ((d2 & 62) >> 1) as int
  }

  /**
   * getDrumOperation: a strike exactly when bit 6 of byte 2 is clear and the
   * pad index names a pad; its pad is the one with that index and its
   * softness is bits 5-7 of byte 3.  Java masks the sign-extended byte with a
   * constant below 256, so the sign of the byte plays no part.
   */
  function GetDrumOperation(d0: byte, d1: byte, d2: byte, d3: byte, d4: byte, d5: byte): (r: Option<DrumStrike>)
    ensures !GotVelocity(d2) ==> r.None?
    ensures r.Some? <==> GotVelocity(d2) && PadIndexField(d2) in PadIndices
    ensures r.Some? ==> IndexOf(r.value.drumPad) == PadIndexField(d2)
    ensures r.Some? ==> r.value.softness == SoftnessField(d3) && 0 <= r.value.softness <= 7
  {
    if GotVelocity(d2) then
      var softness := SoftnessField(d3);
      var which := PadIndexField(d2);
      match PadOf(which)
      case Some(pad) => Some(DrumStrike(pad, softness))
      case None => None
    else
      None
  }

  /** Two pad indices that name the same pad are the same index. */
  lemma PadOfIsInjective(w1: int, w2: int)
    requires PadOf(w1).Some? && PadOf(w1) == PadOf(w2)
    ensures w1 == w2
  {
  }

  /**
   * The decoder reads nothing but bits 1-6 of byte 2 and bits 5-7 of byte 3:
   * two reports that agree on those bits decode alike, whatever their other
   * bits and bytes.
   */
  lemma OnlyPadAndSoftnessBitsMatter(a0: byte, a1: byte, a2: byte, a3: byte, a4: byte, a5: byte,
                                     b0: byte, b1: byte, b2: byte, b3: byte, b4: byte, b5: byte)
    requires a2 & 126 == b2 & 126
    requires a3 & 224 == b3 & 224
    ensures GetDrumOperation(a0, a1, a2, a3, a4, a5) == GetDrumOperation(b0, b1, b2, b3, b4, b5)
  {
  }

  /** Byte 2 of a report of a hit on `pad`: its index in bits 1-5, bit 6 clear. */
  function PadByte(pad: ControlType): byte {
    (IndexOf(pad) as byte) << 1
  }

  /** Byte 3 of a report of a hit of the given softness: bits 5-7. */
  function SoftnessByte(softness: int): byte
    requires 0 <= softness <= 7
  {
    (softness as byte) << 5
  }

  /**
   * Every pad with every softness 0..7 is reported by some input: the
   * encoding PadByte/SoftnessByte is decoded back to the strike.
   */
  lemma EveryStrikeIsDecodable(strike: DrumStrike)
    requires 0 <= strike.softness <= 7
    ensures GetDrumOperation(0, 0, PadByte(strike.drumPad), SoftnessByte(strike.softness), 0, 0) == Some(strike)
  {
  }

  /**
   * DrumStrike.equals: true exactly when the other reference is a drum strike
   * with the same pad and the same softness.
   */
  function Equals(self: DrumStrike, other: ObjectRef): (b: bool)
    ensures b <==> other == StrikeRef(self)
  {
    if !other.StrikeRef? then false
    else other.strike.softness == self.softness && other.strike.drumPad == self.drumPad
  }

  /** equals is reflexive, symmetric and transitive on strikes, and false for null and for other classes. */
  lemma EqualsIsAnEquivalence(a: DrumStrike, b: DrumStrike, c: DrumStrike, id: nat)
    ensures Equals(a, StrikeRef(a))
    ensures Equals(a, StrikeRef(b)) == Equals(b, StrikeRef(a))
    ensures Equals(a, StrikeRef(b)) && Equals(b, StrikeRef(c)) ==> Equals(a, StrikeRef(c))
    ensures !Equals(a, Null) && !Equals(a, OtherRef(id))
  {
  }
}
