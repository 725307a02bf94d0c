/**
 * Event shaping in I2CHandler.java: the pad-to-MIDI-note table, the
 * softness-to-velocity formula, the loop that informs every listener of a
 * strike, and the duplicate filter of the polling thread, which forwards a
 * decoded strike unless it repeats the last forwarded one within 10 ms.
 */
module I2CHandler {
  import opened JavaTypes
  import opened DrumData

  /** CONTROL_MAP: drum pad to MIDI note number. */
  const ControlMap: map<ControlType, int> :=
    map[Red := 38, Orange := 49, Yellow := 42, Blue := 50, Green := 45, Pedal := 35]

  /** The notes CONTROL_MAP produces. */
  const ControlNotes: set<int> := {35, 38, 42, 45, 49, 50}

  /** CONTROL_MAP has an entry for every pad, gives different pads different notes, and yields exactly ControlNotes. */
  lemma ControlMapIsTotalAndInjective()
    ensures forall pad: ControlType :: pad in ControlMap
    ensures forall p: ControlType, q: ControlType :: ControlMap[p] == ControlMap[q] ==> p == q
    ensures ControlMap.Values == ControlNotes
  {
    forall pad: ControlType ensures pad in ControlMap {
      match pad
      case Orange =>
      case Red =>
      case Blue =>
      case Yellow =>
      case Green =>
      case Pedal =>
    }
    assert ControlMap.Values <= ControlNotes;
    assert ControlMap[Pedal] == 35 && ControlMap[Red] == 38 && ControlMap[Yellow] == 42;
    assert ControlMap[Green] == 45 && ControlMap[Orange] == 49 && ControlMap[Blue] == 50;
  }

  /** `CONTROL_MAP.get(pad)`, which is never null because the map is total. */
  function NoteOf(pad: ControlType): (note: int)
    ensures note in ControlNotes
  {
    ControlMapIsTotalAndInjective();
    ControlMap[pad]
  }

  /** Java's `(int)` of a quotient: division that truncates toward zero (Dafny's `/` is Euclidean). */
  function TruncDiv(a: int, d: int): (q: int)
    requires d > 0
    ensures a >= 0 ==> d * q <= a < d * q + d
    ensures a < 0 ==> d * q - d < a <= d * q
  {
    if a >= 0 then a / d else -((-a) / d)
  }

  /**
   * `(int)((6 - softness) * (127.0 / 6.0))`, in integers: 127 for the hardest
   * hit, scaled down linearly to 0 at softness 6, truncated toward zero.
   */
  function Velocity(softness: int): (v: int)
    ensures 6 - softness >= 0 ==> 6 * v <= (6 - softness) * 127 < 6 * v + 6
    ensures 6 - softness < 0 ==> 6 * v - 6 < (6 - softness) * 127 <= 6 * v
  {
    TruncDiv((6 - softness) * 127, 6)
  }

  /** The velocities of the eight softness values the decoder can produce. */
  lemma VelocityTable()
    ensures Velocity(0) == 127 && Velocity(1) == 105 && Velocity(2) == 84 && Velocity(3) == 63
    ensures Velocity(4) == 42 && Velocity(5) == 21 && Velocity(6) == 0 && Velocity(7) == -21
  {
  }

  /** A softer hit never gives a higher velocity. */
  lemma VelocityIsNonIncreasing(s1: int, s2: int)
    requires s1 <= s2
    ensures Velocity(s2) <= Velocity(s1)
  {
    var a1, a2 := (6 - s1) * 127, (6 - s2) * 127;
    assert a2 <= a1;
  }

  /** A decoded softness gives a velocity between -21 and 127. */
  lemma DecodedVelocityRange(softness: int)
    requires 0 <= softness <= 7
    ensures -21 <= Velocity(softness) <= 127
  {
    VelocityIsNonIncreasing(0, softness);
    VelocityIsNonIncreasing(softness, 7);
    VelocityTable();
  }

  /** A listener, by its position of registration. */
  type ListenerId = nat

  /** One `listener.noteOn(note, velocity)` call. */
  datatype NoteOn = NoteOn(listener: ListenerId, note: int, velocity: int)

  /** The noteOn calls one forwarded strike makes, one per listener in order. */
  function Broadcast(strike: DrumStrike, listeners: seq<ListenerId>): seq<NoteOn> {
    seq(|listeners|, i requires 0 <= i < |listeners| =>
      NoteOn(listeners[i], NoteOf(strike.drumPad), Velocity(strike.softness)))
  }

  /**
   * informListeners: an operation that is a drum strike makes every listener,
   * in order, receive its note and velocity; any other operation informs nobody.
   */
  method InformListeners(operation: ObjectRef, listeners: seq<ListenerId>) returns (calls: seq<NoteOn>)
    ensures !operation.StrikeRef? ==> calls == []
    ensures operation.StrikeRef? ==> |calls| == |listeners|
    ensures operation.StrikeRef? ==> forall i :: 0 <= i < |listeners| ==>
      calls[i] == NoteOn(listeners[i], NoteOf(operation.strike.drumPad), Velocity(operation.strike.softness))
  {
    calls := [];
    if operation.StrikeRef? {
      var strike := operation.strike;
      var note := NoteOf(strike.drumPad);
      var velocity := Velocity(strike.softness);
      var i := 0;
      while i < |listeners|
        invariant 0 <= i <= |listeners|
        invariant |calls| == i
        invariant forall k :: 0 <= k < i ==> calls[k] == NoteOn(listeners[k], note, velocity)
      {
        calls := calls + [NoteOn(listeners[i], note, velocity)];
        i := i + 1;
      }
    }
  }

  /** The suppression window for a repeated strike, in milliseconds. */
  const DuplicateWindow: long := 10

  /** The two locals of the polling thread that the duplicate filter keeps. */
  datatype FilterState = FilterState(lastOperation: Option<DrumStrike>, notBefore: long)

  /** `lastOperation = null`, `notBefore = Long.MIN_VALUE`. */
  const InitialFilter: FilterState := FilterState(None, MinLong)

  function AsObject(o: Option<DrumStrike>): ObjectRef {
    match o
    case None => Null
    case Some(strike) => StrikeRef(strike)
  }

  /**
   * The duplicate filter for one decoded strike read at `curTime`: it is
   * forwarded when the window has passed or it differs from the last forwarded
   * strike, and then becomes the last strike with a window of 10 ms from now;
   * a skipped duplicate leaves the state as it was.
   */
  function Debounce(s: FilterState, op: DrumStrike, curTime: long): (r: (FilterState, bool))
    ensures r.1 <==> s.notBefore < curTime || s.lastOperation != Some(op)
    ensures r.1 ==> r.0 == FilterState(Some(op), AddLong(curTime, DuplicateWindow))
    ensures !r.1 ==> r.0 == s
  {
    if s.notBefore < curTime then
      (FilterState(Some(op), AddLong(curTime, DuplicateWindow)), true)
    else if !Equals(op, AsObject(s.lastOperation)) then
      (FilterState(Some(op), AddLong(curTime, DuplicateWindow)), true)
    else
      (s, false)
  }

  /** One poll of the controller after decoding: the operation (null if none) and the clock. */
  datatype Reading = Reading(op: Option<DrumStrike>, curTime: long)

  /** A strike the filter forwarded, with the time it was read. */
  datatype Emission = Emission(strike: DrumStrike, time: long)

  /** The filter run over a sequence of polls: its final state and the strikes it forwarded, in order. */
  function Run(readings: seq<Reading>): (r: (FilterState, seq<Emission>))
    ensures |r.1| <= |readings|
    ensures r.1 != [] ==> r.0.lastOperation.Some?
  {
    if readings == [] then (InitialFilter, [])
    else
      var before := Run(readings[..|readings| - 1]);
      var last := readings[|readings| - 1];
      match last.op
      case None => before
      case Some(op) =>
        var step := Debounce(before.0, op, last.curTime);
        (step.0, if step.1 then before.1 + [Emission(op, last.curTime)] else before.1)
  }

  /** A poll that decodes to null changes neither the filter nor what it forwards. */
  lemma NullReadingChangesNothing(readings: seq<Reading>, curTime: long)
    ensures Run(readings + [Reading(None, curTime)]) == Run(readings)
  {
  }

  /**
   * The filter's state follows the last FORWARDED strike: before any strike is
   * forwarded it is the initial state, and afterwards it holds the last
   * forwarded strike and a window anchored at that strike's time, so skipped
   * repeats never extend the window.
   */
  lemma {:induction false} FilterTracksLastEmission(readings: seq<Reading>)
    ensures Run(readings).1 == [] ==> Run(readings).0 == InitialFilter
    ensures Run(readings).1 != [] ==>
      var last := Run(readings).1[|Run(readings).1| - 1];
      Run(readings).0 == FilterState(Some(last.strike), AddLong(last.time, DuplicateWindow))
  {
    if readings != [] {
      FilterTracksLastEmission(readings[..|readings| - 1]);
    }
  }

  /**
   * Two consecutive forwarded strikes that are equal are more than the window
   * apart: the second was read after the first's time plus 10 ms (as a Java long).
   */
  lemma {:induction false} RepeatsAreForwardedOnlyAfterTheWindow(readings: seq<Reading>)
    ensures var es := Run(readings).1;
      forall i :: 0 <= i < |es| - 1 && es[i].strike == es[i + 1].strike ==>
        AddLong(es[i].time, DuplicateWindow) < es[i + 1].time
  {
    if readings != [] {
      var prefix := readings[..|readings| - 1];
      RepeatsAreForwardedOnlyAfterTheWindow(prefix);
      FilterTracksLastEmission(prefix);
    }
  }

  /** Polls that decode to null leave the filter in its initial state, forwarding nothing. */
  lemma {:induction false} NullReadingsForwardNothing(readings: seq<Reading>)
    requires forall j :: 0 <= j < |readings| ==> readings[j].op.None?
    ensures Run(readings) == (InitialFilter, [])
  {
    if readings != [] {
      NullReadingsForwardNothing(readings[..|readings| - 1]);
    }
  }

  /** The first strike ever decoded is always forwarded, whatever the clock says. */
  lemma {:induction false} FirstStrikeIsForwarded(nulls: seq<Reading>, strike: DrumStrike, curTime: long)
    requires forall j :: 0 <= j < |nulls| ==> nulls[j].op.None?
    ensures Run(nulls + [Reading(Some(strike), curTime)]).1 == [Emission(strike, curTime)]
  {
    var readings := nulls + [Reading(Some(strike), curTime)];
    assert readings[..|readings| - 1] == nulls;
    NullReadingsForwardNothing(nulls);
  }

  /** The six report bytes read in one poll, and the clock read when they decode to a strike. */
  datatype Report = Report(d0: byte, d1: byte, d2: byte, d3: byte, d4: byte, d5: byte, curTime: long)

  function Decode(report: Report): Reading {
    Reading(GetDrumOperation(report.d0, report.d1, report.d2, report.d3, report.d4, report.d5), report.curTime)
  }

  function DecodeAll(reports: seq<Report>): (readings: seq<Reading>)
    ensures |readings| == |reports|
  {
    seq(|reports|, i requires 0 <= i < |reports| => Decode(reports[i]))
  }

  /** The noteOn calls for a sequence of forwarded strikes. */
  function BroadcastAll(emissions: seq<Emission>, listeners: seq<ListenerId>): seq<NoteOn> {
    if emissions == [] then []
    else BroadcastAll(emissions[..|emissions| - 1], listeners) + Broadcast(emissions[|emissions| - 1].strike, listeners)
  }

  /**
   * The polling thread's loop over a finite run of polls: decode each report,
   * pass the strikes through the duplicate filter held in the two locals, and
   * inform the listeners of each forwarded strike.  The calls made are those
   * of the strikes Run forwards.
   */
  method Monitor(reports: seq<Report>, listeners: seq<ListenerId>) returns (calls: seq<NoteOn>)
    ensures calls == BroadcastAll(Run(DecodeAll(reports)).1, listeners)
  {
    var lastOperation: Option<DrumStrike> := None;
    var notBefore: long := MinLong;
    ghost var emitted: seq<Emission> := [];
    calls := [];
    var i := 0;
    while i < |reports|
      invariant 0 <= i <= |reports|
      invariant Run(DecodeAll(reports[..i])) == (FilterState(lastOperation, notBefore), emitted)
      invariant calls == BroadcastAll(emitted, listeners)
    {
      var report := reports[i];
      var op := GetDrumOperation(report.d0, report.d1, report.d2, report.d3, report.d4, report.d5);
      assert DecodeAll(reports[..i + 1])[..i] == DecodeAll(reports[..i]);
      if op.Some? {
        var curTime := report.curTime;
        var forward := false;
        if notBefore < curTime {
          forward := true;
        } else if !Equals(op.value, AsObject(lastOperation)) {
          forward := true;
        }
        if forward {
          lastOperation := op;
          notBefore := AddLong(curTime, DuplicateWindow);
          var informed := InformListeners(StrikeRef(op.value), listeners);
          assert informed == Broadcast(op.value, listeners);
          emitted := emitted + [Emission(op.value, curTime)];
          calls := calls + informed;
        }
      }
      i := i + 1;
    }
    assert reports[..|reports|] == reports;
  }
}
