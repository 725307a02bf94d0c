/**
 * The channel pool of DataLineHandlerFactory.java: seven data-line handlers
 * kept in a FIFO queue of idle handlers.  A handler streams one sample to its
 * line in chunks of about 100 ms, so that `stop` silences it within one poll,
 * and puts itself back at the tail of the queue when its feed loop ends.
 *
 * The worker thread of a handler is modelled as two steps that a scheduler
 * calls between the other operations: `Wake` (its outer `wait()` returns) and
 * `Poll` (one pass of the feed loop after its `wait(10)` returns).  A `stop`
 * that arrives while the worker waits is a `Stop` call between two steps.
 */
module DataLines {
  import opened JavaTypes

  const MillisecondsToBuffer: nat := 100

  /** The platform supports at most seven simultaneous data lines. */
  const HandlerCount: nat := 7

  /** The fields of a javax.sound.sampled AudioFormat, with integer rates. */
  datatype AudioFormat = AudioFormat(encoding: string, sampleRate: nat, sampleSizeInBits: nat,
                                     channels: nat, frameSize: nat, frameRate: nat, bigEndian: bool)

  /**
   * m_BytesToBuffer, `ceil(frameRate * 100 / 1000 * frameSize)`: the least
   * whole number of bytes that holds 100 ms of audio.
   */
  function ChunkSize(frameRate: nat, frameSize: nat): (bytes: nat)
    ensures 1000 * bytes >= MillisecondsToBuffer * (frameRate * frameSize)
    ensures 1000 * bytes < MillisecondsToBuffer * (frameRate * frameSize) + 1000
  {
    var bytesPerSecond := frameRate * frameSize;
    (MillisecondsToBuffer * bytesPerSecond + 999) / 1000
  }

  /**
   * 44.1 kHz with four-byte frames gives 17640 bytes; 48 kHz with two-byte
   * frames gives 9600; 11025 Hz with four-byte frames gives 4410, where
   * rounding the frame count up first would give 1103 frames, 4412 bytes.
   */
  lemma ChunkSizeExamples()
    ensures ChunkSize(44100, 4) == 17640
    ensures ChunkSize(48000, 2) == 9600
    ensures ChunkSize(11025, 4) == 4410 && ((100 * 11025 + 999) / 1000) * 4 == 4412
  {
  }

  /** What the line's `write` does with a request: accept at most `limit` bytes, or throw. */
  datatype WriteResult = Accepts(limit: nat) | Throws

  /** The state a handler and its line are in; the class DataLineHandler holds it field by field. */
  datatype LineState = LineState(
    currentAudio: Option<seq<byte>>,  // m_CurrentAudio
    position: int,                    // m_CurrentPosition
    muted: bool,                      // the line's MUTE control
    volume: int,                      // the volume the line's gain was last set from
    streaming: bool,                  // the worker thread is inside its feed loop
    delivered: seq<byte>)             // the bytes the line has accepted since priming

  const InitialLine: LineState := LineState(None, 0, false, 0, false, [])

  /** No audio and the worker in its outer wait: the only state an idle handler is in. */
  predicate Quiescent(s: LineState) {
    s.currentAudio.None? && !s.streaming
  }

  /**
   * The feed loop's invariant: while the worker streams a sample, its cursor
   * lies inside the sample and the line has accepted exactly the bytes before
   * the cursor, in order.
   */
  predicate Streams(s: LineState) {
    s.streaming && s.currentAudio.Some? ==>
      0 <= s.position < |s.currentAudio.value| && s.delivered == s.currentAudio.value[..s.position]
  }

  /** `play`: refused with "Already playing" while there is current audio, else takes the audio and unmutes. */
  function PlayTransition(s: LineState, data: seq<byte>, volume: int): (LineState, Outcome) {
    if s.currentAudio.Some? then (s, Fail("Already playing"))
    else (s.(currentAudio := Some(data), muted := false, volume := volume), Pass)
  }

  /** `stop`: nothing without current audio, else drops the audio and mutes the line. */
  function StopTransition(s: LineState): LineState {
    if s.currentAudio.None? then s
    else s.(currentAudio := None, muted := true)
  }

  /** The priming request as the source writes it: two chunks from offset 0, whatever the sample's length. */
  function PrimingRequestAsWritten(chunk: nat): nat {
    2 * chunk
  }

  /** The priming request capped at the sample's length. */
  function PrimingRequest(chunk: nat, length: nat): (request: nat)
    ensures request <= length
    ensures length >= 2 * chunk ==> request == PrimingRequestAsWritten(chunk)
  {
    Min(2 * chunk, length)
  }

  /** `SourceDataLine.write(b, off, len)` demands `0 <= off`, `0 <= len` and `off + len <= b.length`. */
  predicate WriteInBounds(offset: int, request: int, length: int) {
    0 <= offset && 0 <= request && offset + request <= length
  }

  /** The refill request: one chunk, or what is left of the sample. */
  function RefillRequest(chunk: nat, length: nat, position: int): int {
    Min(chunk, length - position)
  }

  /** The line accepts `written` more bytes of the current sample, and the cursor moves past them. */
  function Advance(s: LineState, written: nat): LineState
    requires s.currentAudio.Some? && 0 <= s.position && s.position + written <= |s.currentAudio.value|
  {
    s.(position := s.position + written,
       delivered := s.delivered + s.currentAudio.value[s.position..s.position + written])
  }

  /**
   * The loop condition `m_CurrentPosition < m_CurrentAudio.length`: once the
   * cursor reaches the end, the worker drops the audio and leaves the loop,
   * and the handler goes back to the pool (the boolean).
   */
  function LoopCheck(s: LineState): (LineState, bool)
    requires s.currentAudio.Some?
  {
    if s.position >= |s.currentAudio.value| then (s.(currentAudio := None, streaming := false), true)
    else (s, false)
  }

  /**
   * The worker's outer `wait()` returns.  With no current audio it waits again
   * (and is NOT put back in the pool); otherwise it primes the line with up to
   * two chunks from offset 0 and enters the feed loop.
   */
  function WakeTransition(s: LineState, chunk: nat, primeLimit: nat): (LineState, bool)
    requires !s.streaming
  {
    if s.currentAudio.None? then (s, false)
    else
      var data := s.currentAudio.value;
      var written := Min(PrimingRequest(chunk, |data|), primeLimit);
      LoopCheck(Advance(s.(position := 0, delivered := [], streaming := true), written))
  }

  /**
   * One pass of the feed loop after its `wait(10)`: a cleared audio ends the
   * loop; otherwise, when fewer than two chunks are pending in the line, the
   * next slice is written (a write that throws changes nothing), and the loop
   * condition is checked again.
   */
  function PollTransition(s: LineState, chunk: nat, pending: int, result: WriteResult): (LineState, bool)
    requires s.streaming && Streams(s)
  {
    if s.currentAudio.None? then (s.(streaming := false), true)
    else
      var data := s.currentAudio.value;
      var refilled :=
        if pending < 2 * chunk then
          match result
          case Throws => s
          case Accepts(limit) => Advance(s, Min(RefillRequest(chunk, |data|, s.position), limit))
        else s;
      LoopCheck(refilled)
  }

  /** A failed `play` changes nothing; a successful one leaves the handler holding the audio, unmuted, at the new volume. */
  lemma PlayIsGuarded(s: LineState, data: seq<byte>, volume: int)
    ensures PlayTransition(s, data, volume).1.Fail? <==> s.currentAudio.Some?
    ensures s.currentAudio.Some? ==> PlayTransition(s, data, volume) == (s, Fail("Already playing"))
    ensures s.currentAudio.None? ==> var t := PlayTransition(s, data, volume).0;
      t.currentAudio == Some(data) && !t.muted && t.volume == volume
  {
  }

  /** `stop` without audio does nothing; `stop` leaves no audio and, if there was audio, a muted line; stopping twice is stopping once. */
  lemma StopIsIdempotent(s: LineState)
    ensures s.currentAudio.None? ==> StopTransition(s) == s
    ensures StopTransition(s).currentAudio.None?
    ensures s.currentAudio.Some? ==> StopTransition(s).muted
    ensures StopTransition(StopTransition(s)) == StopTransition(s)
  {
  }

  /** A stopped handler accepts the next `play`. */
  lemma PlayAfterStopSucceeds(s: LineState, data: seq<byte>, volume: int)
    ensures PlayTransition(StopTransition(s), data, volume).1 == Pass
  {
  }

  /** The corrected priming request always lies inside the sample, as write demands. */
  lemma PrimingRequestIsInBounds(chunk: nat, length: nat)
    ensures WriteInBounds(0, PrimingRequest(chunk, length), length)
  {
  }

  /**
   * As written, priming a sample shorter than two chunks asks write for bytes
   * beyond the end of the array, whatever the chunk size.
   */
  lemma ShortSampleOverrunsPriming(chunk: nat, length: nat)
    requires length < 2 * chunk
    ensures !WriteInBounds(0, PrimingRequestAsWritten(chunk), length)
  {
  }

  /** With 44.1 kHz stereo 16-bit audio that is any sample under 35280 bytes (0.2 s). */
  lemma ShortSampleOverrunsPrimingAtCdRate(length: nat)
    requires length < 35280
    ensures 2 * ChunkSize(44100, 4) == 35280
    ensures !WriteInBounds(0, PrimingRequestAsWritten(ChunkSize(44100, 4)), length)
  {
    ChunkSizeExamples();
    ShortSampleOverrunsPriming(ChunkSize(44100, 4), length);
  }

  /** The feed-loop invariant holds after the worker wakes. */
  lemma WakeKeepsStreams(s: LineState, chunk: nat, primeLimit: nat)
    requires !s.streaming
    ensures Streams(WakeTransition(s, chunk, primeLimit).0)
    ensures WakeTransition(s, chunk, primeLimit).1 <==> s.currentAudio.Some? && !WakeTransition(s, chunk, primeLimit).0.streaming
    ensures WakeTransition(s, chunk, primeLimit).1 ==> Quiescent(WakeTransition(s, chunk, primeLimit).0)
  {
  }

  /** The feed-loop invariant holds after each pass of the loop: the cursor never passes the end of the sample. */
  lemma PollKeepsStreams(s: LineState, chunk: nat, pending: int, result: WriteResult)
    requires s.streaming && Streams(s)
    ensures Streams(PollTransition(s, chunk, pending, result).0)
    ensures PollTransition(s, chunk, pending, result).1 <==> !PollTransition(s, chunk, pending, result).0.streaming
    ensures PollTransition(s, chunk, pending, result).1 ==> Quiescent(PollTransition(s, chunk, pending, result).0)
  {
  }

  /**
   * A sample that runs to its end without a `stop` has been accepted by the
   * line in full and in order, and the handler is released quiescent.
   */
  lemma ExhaustedStreamDeliveredEverything(s: LineState, chunk: nat, pending: int, result: WriteResult)
    requires s.streaming && Streams(s) && s.currentAudio.Some?
    requires PollTransition(s, chunk, pending, result).1
    ensures PollTransition(s, chunk, pending, result).0.delivered == s.currentAudio.value
    ensures Quiescent(PollTransition(s, chunk, pending, result).0)
  {
  }

  /** A refill asks for at most one chunk, and the cursor moves forward by what the line accepted and no further. */
  lemma RefillAdvancesByWhatWasWritten(s: LineState, chunk: nat, pending: int, limit: nat)
    requires s.streaming && Streams(s) && s.currentAudio.Some? && pending < 2 * chunk
    ensures var request := RefillRequest(chunk, |s.currentAudio.value|, s.position);
      0 <= request <= chunk &&
      var t := PollTransition(s, chunk, pending, Accepts(limit)).0;
      t.position == s.position + Min(request, limit) && t.position <= |s.currentAudio.value|
  {
  }

  /** With two chunks or more pending, or a write that throws, the pass writes nothing and the cursor stays. */
  lemma NoRefillKeepsCursor(s: LineState, chunk: nat, pending: int, result: WriteResult)
    requires s.streaming && Streams(s) && s.currentAudio.Some?
    requires pending >= 2 * chunk || result.Throws?
    ensures PollTransition(s, chunk, pending, result).0.position == s.position
    ensures PollTransition(s, chunk, pending, result).0.delivered == s.delivered
  {
  }

  /** After a `stop`, the very next pass of the feed loop leaves it and releases the handler, quiescent and muted. */
  lemma StopEndsStreamAtNextPoll(s: LineState, chunk: nat, pending: int, result: WriteResult)
    requires s.streaming && Streams(s) && s.currentAudio.Some?
    ensures var t := PollTransition(StopTransition(s), chunk, pending, result);
      t.1 && Quiescent(t.0) && t.0.muted
  {
  }

  /** A handler that is stopped after `play` but before its worker wakes is never put back in the pool by that wake. */
  lemma StopBeforeWakeIsNotReleased(s: LineState, data: seq<byte>, volume: int, chunk: nat, primeLimit: nat)
    requires Quiescent(s)
    ensures var t := StopTransition(PlayTransition(s, data, volume).0);
      !t.streaming && WakeTransition(t, chunk, primeLimit) == (t, false)
  {
  }

  /** The operations on handlers, as a log of calls by handler index. */
  datatype Call = TakeCall(handler: nat) | PlayCall(handler: nat, volume: int) | StopCall(handler: nat) | ReturnCall(handler: nat)

  /** DataLineHandler: one output line and the state of the worker thread that feeds it. */
  class DataLineHandler {
    const index: nat                          // m_Index
    const factory: DataLineHandlerFactory     // the enclosing factory
    var currentAudio: Option<seq<byte>>
    var position: int
    var muted: bool
    var volume: int
    var streaming: bool
    ghost var delivered: seq<byte>

    ghost function State(): LineState
      reads this
    {
      LineState(currentAudio, position, muted, volume, streaming, delivered)
    }

    /** A handler with an open, unmuted line and its worker waiting. */
    constructor (index: nat, factory: DataLineHandlerFactory)
      ensures this.index == index && this.factory == factory
      ensures State() == InitialLine
    {
      this.index := index;
      this.factory := factory;
      currentAudio := None;
      position := 0;
      muted := false;
      volume := 0;
      streaming := false;
      delivered := [];
    }

    /**
     * `play`: as PlayTransition.  It keeps the pool valid when it fails, and
     * when it succeeds on a handler that is neither idle in the pool nor still
     * draining a stopped sample (the only case the voices use).
     */
    method Play(data: seq<byte>, vol: int) returns (r: Outcome)
      requires factory.Valid() && this in factory.handlers
      modifies this, factory`calls
      ensures (State(), r) == PlayTransition(old(State()), data, vol)
      ensures factory.calls == old(factory.calls) + [PlayCall(index, vol)]
      ensures r.Fail? || (!old(streaming) && this !in factory.idle) ==> factory.Valid()
    {
      factory.calls := factory.calls + [PlayCall(index, vol)];
      if currentAudio.Some? {
        r := Fail("Already playing");
        return;
      }
      currentAudio := Some(data);
      muted := false;
      volume := vol;
      r := Pass;
    }

    /** `stop`: as StopTransition; always keeps the pool valid. */
    method Stop()
      requires factory.Valid() && this in factory.handlers
      modifies this, factory`calls
      ensures State() == StopTransition(old(State()))
      ensures factory.calls == old(factory.calls) + [StopCall(index)]
      ensures factory.Valid()
    {
      factory.calls := factory.calls + [StopCall(index)];
      if currentAudio.None? {
        return;
      }
      currentAudio := None;
      muted := true;
    }

    /**
     * The worker's outer `wait()` returns: as WakeTransition; when the whole
     * sample fits in the priming write, the handler is appended to the idle queue.
     */
    method Wake(primeLimit: nat) returns (released: bool)
      requires factory.Valid() && this in factory.handlers && !streaming
      modifies this, factory`idle, factory`calls
      ensures (State(), released) == WakeTransition(old(State()), factory.chunk, primeLimit)
      ensures factory.idle == old(factory.idle) + (if released then [this] else [])
      ensures factory.calls == old(factory.calls) + (if released then [ReturnCall(index)] else [])
      ensures factory.Valid()
    {
      ghost var t := WakeTransition(State(), factory.chunk, primeLimit);
      WakeKeepsStreams(State(), factory.chunk, primeLimit);
      released := false;
      if currentAudio.None? {
        return;
      }
      assert this !in factory.idle;
      SplitValid(factory, this);
      position := 0;
      delivered := [];
      streaming := true;
      Write(Min(PrimingRequest(factory.chunk, |currentAudio.value|), primeLimit));
      CheckEnd();
      assert State() == t.0;
      if !streaming {
        released := true;
        Release();
      }
      SplitValid(factory, this);
    }

    /**
     * One pass of the feed loop: as PollTransition; when the loop ends, the
     * handler is appended to the idle queue.
     */
    method Poll(pending: int, result: WriteResult) returns (released: bool)
      requires factory.Valid() && this in factory.handlers && streaming
      modifies this, factory`idle, factory`calls
      ensures (State(), released) == PollTransition(old(State()), factory.chunk, pending, result)
      ensures factory.idle == old(factory.idle) + (if released then [this] else [])
      ensures factory.calls == old(factory.calls) + (if released then [ReturnCall(index)] else [])
      ensures factory.Valid()
    {
      ghost var t := PollTransition(State(), factory.chunk, pending, result);
      PollKeepsStreams(State(), factory.chunk, pending, result);
      assert this !in factory.idle;
      SplitValid(factory, this);
      released := false;
      if currentAudio.None? {
        streaming := false;
      } else {
        if pending < 2 * factory.chunk {
          match result
          case Throws =>
          case Accepts(limit) =>
            Write(Min(RefillRequest(factory.chunk, |currentAudio.value|, position), limit));
        }
        CheckEnd();
      }
      assert State() == t.0;
      if !streaming {
        released := true;
        Release();
      }
      SplitValid(factory, this);
    }

    /** `m_Line.write` of the next `written` bytes from the cursor, which then moves past them. */
    method Write(written: nat)
      requires currentAudio.Some? && 0 <= position && position + written <= |currentAudio.value|
      modifies this
      ensures State() == Advance(old(State()), written)
    {
      delivered := delivered + currentAudio.value[position..position + written];
      position := position + written;
    }

    /** The feed loop's condition: at the end of the sample the audio is dropped and the loop left. */
    method CheckEnd()
      requires currentAudio.Some?
      modifies this
      ensures State() == LoopCheck(old(State())).0
    {
      if position >= |currentAudio.value| {
        currentAudio := None;
        streaming := false;
      }
    }

    /** `m_AvailableHandlers.add(this)` at the end of the feed loop. */
    method Release()
      requires this !in factory.idle && this in factory.handlers && factory.ValidExcept(this)
      modifies factory`idle, factory`calls
      ensures factory.idle == old(factory.idle) + [this]
      ensures factory.calls == old(factory.calls) + [ReturnCall(index)]
      ensures factory.ValidExcept(this)
    {
      factory.idle := factory.idle + [this];
      factory.calls := factory.calls + [ReturnCall(index)];
    }
  }

  /** DataLineHandlerFactory: the pool of handlers. */
  class DataLineHandlerFactory {
    const format: AudioFormat                 // m_Format
    const chunk: nat                          // m_BytesToBuffer
    var idle: seq<DataLineHandler>            // m_AvailableHandlers, head first
    ghost var handlers: seq<DataLineHandler>  // every handler the factory made, by index
    ghost var calls: seq<Call>

    /**
     * Seven distinct handlers with indices 1..7; every handler keeps the feed
     * loop's invariant; the idle queue holds no handler twice, and only
     * quiescent handlers of this pool.
     */
    ghost predicate Valid()
      reads this, handlers
    {
      && |handlers| == HandlerCount
      && (forall i, j :: 0 <= i < j < |handlers| ==> handlers[i] != handlers[j])
      && (forall i :: 0 <= i < |handlers| ==>
            handlers[i].factory == this && handlers[i].index == i + 1 && Streams(handlers[i].State()))
      && (forall i, j :: 0 <= i < j < |idle| ==> idle[i] != idle[j])
      && (forall i :: 0 <= i < |idle| ==> idle[i] in handlers && Quiescent(idle[i].State()))
    }

    /**
     * The pool invariant with the conditions on one handler `h` left out: its
     * own state is not read, so changing `h` alone keeps it.
     */
    ghost predicate ValidExcept(h: DataLineHandler)
      reads this, set g | g in handlers && g != h
    {
      && |handlers| == HandlerCount
      && (forall i, j :: 0 <= i < j < |handlers| ==> handlers[i] != handlers[j])
      && (forall i :: 0 <= i < |handlers| ==> handlers[i].factory == this && handlers[i].index == i + 1)
      && (forall i :: 0 <= i < |handlers| && handlers[i] != h ==> Streams(handlers[i].State()))
      && (forall i, j :: 0 <= i < j < |idle| ==> idle[i] != idle[j])
      && (forall i :: 0 <= i < |idle| ==> idle[i] in handlers && (idle[i] != h ==> Quiescent(idle[i].State())))
    }

    /** The handlers handed out of the pool and not yet returned. */
    ghost function HandedOut(): set<DataLineHandler>
      reads this
    {
      set h | h in handlers && h !in idle
    }

    /**
     * The constructor: the chunk size from the format, then handlers with
     * indices 1, 2, ... added to the queue until its capacity of seven is full.
     */
    constructor (format: AudioFormat)
      ensures Valid()
      ensures this.format == format && chunk == ChunkSize(format.frameRate, format.frameSize)
      ensures idle == handlers && calls == []
      ensures forall i :: 0 <= i < |handlers| ==> fresh(handlers[i]) && handlers[i].State() == InitialLine
    {
      this.format := format;
      chunk := ChunkSize(format.frameRate, format.frameSize);
      idle := [];
      handlers := [];
      calls := [];
      new;
      var idx := 1;
      while |idle| < HandlerCount
        invariant |idle| <= HandlerCount && idx == |idle| + 1
        invariant handlers == idle && calls == []
        invariant forall i, j :: 0 <= i < j < |idle| ==> idle[i] != idle[j]
        invariant forall i :: 0 <= i < |idle| ==>
          fresh(idle[i]) && idle[i].factory == this && idle[i].index == i + 1 && idle[i].State() == InitialLine
      {
        var h := new DataLineHandler(idx, this);
        idle := idle + [h];
        handlers := handlers + [h];
        idx := idx + 1;
      }
    }

    /** getHandler: takes the head of the idle queue (the source blocks while the queue is empty). */
    method GetHandler() returns (h: DataLineHandler)
      requires Valid() && |idle| > 0
      modifies this`idle, this`calls
      ensures h == old(idle[0]) && idle == old(idle[1..])
      ensures calls == old(calls) + [TakeCall(h.index)]
      ensures Valid() && h in handlers && h !in idle && Quiescent(h.State())
    {
      h := idle[0];
      idle := idle[1..];
      calls := calls + [TakeCall(h.index)];
    }
  }

  /** The pool invariant is the invariant apart from `h`, plus `h`'s own conditions. */
  lemma SplitValid(f: DataLineHandlerFactory, h: DataLineHandler)
    requires h in f.handlers
    ensures f.Valid() <==> f.ValidExcept(h) && Streams(h.State()) && (h in f.idle ==> Quiescent(h.State()))
  {
  }

  lemma {:induction false} DistinctSeqHasAsManyElements<T>(s: seq<T>)
    requires forall i, j :: 0 <= i < j < |s| ==> s[i] != s[j]
    ensures |set x | x in s| == |s|
  {
    if s != [] {
      var rest := s[1..];
      DistinctSeqHasAsManyElements(rest);
      assert (set x | x in s) == (set x | x in rest) + {s[0]};
      assert s[0] !in rest;
    }
  }

  /**
   * Pool exclusivity: every handler is either idle or handed out, never both,
   * and the two groups together are the seven handlers; so the idle queue
   * never holds more than seven.
   */
  lemma PoolPartition(f: DataLineHandlerFactory)
    requires f.Valid()
    ensures (set h | h in f.idle) !! f.HandedOut()
    ensures (set h | h in f.idle) + f.HandedOut() == set h | h in f.handlers
    ensures |f.idle| + |f.HandedOut()| == HandlerCount
    ensures |f.idle| <= HandlerCount
  {
    var all := set h | h in f.handlers;
    var idleSet := set h | h in f.idle;
    DistinctSeqHasAsManyElements(f.handlers);
    DistinctSeqHasAsManyElements(f.idle);
    assert idleSet + f.HandedOut() == all;
    assert |idleSet + f.HandedOut()| == |idleSet| + |f.HandedOut()|;
  }
}
