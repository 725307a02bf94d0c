# I2C drum kit: decoder, event shaping and sample playback

A Dafny model of the core of the I2C drum kit. This program reads a Guitar Hero
World Tour drum controller over I2C and turns pad hits into drum samples
played on a Raspberry Pi. The model covers five pieces:

- **DrumData** (`drum_data.dfy`): decodes a six-byte controller report into an
  optional `DrumStrike(pad, softness)`. It also models `DrumStrike.equals`.
- **I2CHandler** (`i2c_handler.dfy`):
  - the pad-to-MIDI-note table `CONTROL_MAP`;
  - the softness-to-velocity formula;
  - `informListeners`;
  - the duplicate filter of the polling thread, which takes the clock as a
    parameter;
  - the polling loop over a finite run of reports (`Monitor`).
- **DataLineHandlerFactory** (`data_line_handler_factory.dfy`): the pool of
  seven data-line handlers kept in a FIFO idle queue, and the handler's
  `play`/`stop`. The worker thread's feed loop is split into two steps:
  - `Wake`: the outer `wait()` returns, and the worker primes the line;
  - `Poll`: one pass of the refill loop.
- **SampledAudio** (`sampled_audio.dfy`): a voice. Retriggering it stops the
  handler it recorded, takes a new handler, records it and plays on it.
- **SampledAudioGenerator** (`sampled_audio_generator.dfy`): the note-to-voice
  registry. It covers the format-match check, `playNote` and `stopNote`.

`java_types.dfy` holds the Java-level types: bytes as `bv8`, 64-bit `long`
with wrap-around, null as `Option`, and a thrown exception as
`Outcome`/`Result`.

The handler class mirrors its state as a `LineState` value. Pure transition
functions specify the methods: `PlayTransition`, `StopTransition`,
`WakeTransition` and `PollTransition`. The lemmas are proved about those
functions. The pool's invariant `Valid()` holds these facts:

- there are seven distinct handlers, with indices 1..7;
- every handler keeps the feed-loop invariant `Streams`: the cursor lies
  inside the sample, and the line has accepted exactly the bytes before it;
- the idle queue holds no handler twice, and only quiescent handlers.

`Stop`, `Wake` and `Poll` keep this invariant. `Play` keeps it in the cases
listed under "Left out". `Release` is an internal step of `Wake` and `Poll`,
which re-establish the invariant after it. A ghost log of calls
(`TakeCall`, `PlayCall`, `StopCall`, `ReturnCall`) records the order in which
a voice stops, takes and plays.

The device inputs are parameters:

- how many bytes the line accepts (`Accepts(limit)`, so
  `written = min(request, limit)`);
- whether a refill write throws (`Throws`);
- how many bytes are pending;
- the clock;
- the file loader;
- `AudioFormat.matches`.

The chunk size follows the code (DataLineHandlerFactory.java:157-158): the
frame count for 100 ms, `frameRate * 0.1`, is multiplied by the frame size
before rounding up, giving `ceil(frameRate * 0.1 * frameSize)` bytes. Rounding
the frame count up first, `ceil(frameRate * 0.1) * frameSize`, can give a
different size when the frame count is fractional. For example, 11025 Hz with 4-byte frames gives 4410 bytes by the code
and 4412 the other way (`ChunkSizeExamples`).

Two more behaviours of the code stand out. The model keeps both as the code
has them:

- **A voice never clears its recorded handler.** After a handler has finished
  and gone back to the pool, another voice can take it. A later `stop` or
  retrigger of the first voice then stops the second voice's sound. A voice
  only records a handler of the pool (`SampledAudio.Valid`); nothing
  requires that handler to still be playing this voice's sample.
- **A stop that lands before the worker wakes.** If a handler is stopped
  after `play` but before its worker wakes, the worker finds no audio and
  waits again. It never puts the handler back in the pool
  (`StopBeforeWakeIsNotReleased`).

## Model

| member | source | states |
|---|---|---|
| JavaTypes.AddLong | src/uk/co/romware/i2cdrumkit/midigenerator/i2c/I2CHandler.java:142 | Java `long` addition keeps the low-order 64 bits: the result is the one long congruent to the exact sum modulo 2^64, so it is the exact sum whenever that fits |
| DrumData.IndexOf | src/uk/co/romware/i2cdrumkit/midigenerator/i2c/DrumData.java:105-111 | every pad has a pad index, and it is one of 27, 25, 17, 15, 14, 18 |
| DrumData.PadOf | src/uk/co/romware/i2cdrumkit/midigenerator/i2c/DrumData.java:105-112 | the switch names a pad exactly for the six listed indices, and the pad it names has that index |
| DrumData.SoftnessField | src/uk/co/romware/i2cdrumkit/midigenerator/i2c/DrumData.java:102 | softness is bits 5-7 of byte 3, so it lies in 0..7 |
| DrumData.PadIndexField | src/uk/co/romware/i2cdrumkit/midigenerator/i2c/DrumData.java:103 | the pad index is bits 1-5 of byte 2, so it lies in 0..31 |
| DrumData.GetDrumOperation | src/uk/co/romware/i2cdrumkit/midigenerator/i2c/DrumData.java:90-115 | null when bit 6 of byte 2 is set; a strike exactly when that bit is clear and the index names a pad; the strike's pad has that index and its softness is the 0..7 field |
| DrumData.PadOfIsInjective | src/uk/co/romware/i2cdrumkit/midigenerator/i2c/DrumData.java:105-111 | two indices that give the same pad are the same index |
| DrumData.OnlyPadAndSoftnessBitsMatter | src/uk/co/romware/i2cdrumkit/midigenerator/i2c/DrumData.java:90-115 | two reports that agree on bits 1-6 of byte 2 and bits 5-7 of byte 3 decode alike; bytes 0, 1, 4 and 5 and every other bit are ignored |
| DrumData.EveryStrikeIsDecodable | src/uk/co/romware/i2cdrumkit/midigenerator/i2c/DrumData.java:100-111 | every pad with every softness 0..7 is produced by some report |
| DrumData.Equals | src/uk/co/romware/i2cdrumkit/midigenerator/i2c/DrumData.java:66-73 | `equals` is true exactly when the other object is a DrumStrike with the same pad and softness |
| DrumData.EqualsIsAnEquivalence | src/uk/co/romware/i2cdrumkit/midigenerator/i2c/DrumData.java:66-73 | `equals` is reflexive, symmetric and transitive on strikes, and false for null and for objects of other classes |
| I2CHandler.ControlMapIsTotalAndInjective | src/uk/co/romware/i2cdrumkit/midigenerator/i2c/I2CHandler.java:30-37 | CONTROL_MAP has an entry for each of the six pads, gives different pads different notes, and yields exactly {35, 38, 42, 45, 49, 50} |
| I2CHandler.NoteOf | src/uk/co/romware/i2cdrumkit/midigenerator/i2c/I2CHandler.java:65 | the lookup never yields null, and the note is one of the six mapped notes |
| I2CHandler.TruncDiv | src/uk/co/romware/i2cdrumkit/midigenerator/i2c/I2CHandler.java:66 | the `(int)` cast of a quotient rounds toward zero, for negative dividends too |
| I2CHandler.Velocity | src/uk/co/romware/i2cdrumkit/midigenerator/i2c/I2CHandler.java:66 | velocity is (6 - softness) * 127 / 6 rounded toward zero |
| I2CHandler.VelocityTable | src/uk/co/romware/i2cdrumkit/midigenerator/i2c/I2CHandler.java:66 | softness 0..7 give 127, 105, 84, 63, 42, 21, 0 and -21 |
| I2CHandler.VelocityIsNonIncreasing | src/uk/co/romware/i2cdrumkit/midigenerator/i2c/I2CHandler.java:66 | a softer hit never gets a higher velocity |
| I2CHandler.DecodedVelocityRange | src/uk/co/romware/i2cdrumkit/midigenerator/i2c/I2CHandler.java:66 | for every softness the decoder can produce, velocity lies in -21..127 |
| I2CHandler.InformListeners | src/uk/co/romware/i2cdrumkit/midigenerator/i2c/I2CHandler.java:61-73 | a non-strike informs nobody; a strike makes every listener, in order, receive the same note and velocity |
| I2CHandler.Debounce | src/uk/co/romware/i2cdrumkit/midigenerator/i2c/I2CHandler.java:138-153 | a strike is forwarded iff the window has passed or it differs from the last forwarded strike; forwarding sets lastOperation to it and notBefore to curTime + 10 (as a long); a skipped duplicate changes nothing |
| I2CHandler.Run | src/uk/co/romware/i2cdrumkit/midigenerator/i2c/I2CHandler.java:109-153 | the filter over a finite run of polls, skipping null decodes, forwards at most one strike per poll, and once it has forwarded one its state holds a last operation |
| I2CHandler.NullReadingChangesNothing | src/uk/co/romware/i2cdrumkit/midigenerator/i2c/I2CHandler.java:131 | a poll that decodes to null changes neither the filter state nor what is forwarded |
| I2CHandler.FilterTracksLastEmission | src/uk/co/romware/i2cdrumkit/midigenerator/i2c/I2CHandler.java:139-152 | over any run the state is initial until a strike is forwarded, and afterwards holds the last forwarded strike with a window anchored at its time: skipped repeats never extend the window |
| I2CHandler.RepeatsAreForwardedOnlyAfterTheWindow | src/uk/co/romware/i2cdrumkit/midigenerator/i2c/I2CHandler.java:139-153 | two consecutive forwarded strikes that are equal were read more than 10 ms apart |
| I2CHandler.NullReadingsForwardNothing | src/uk/co/romware/i2cdrumkit/midigenerator/i2c/I2CHandler.java:109-131 | polls that decode to null leave the filter in its initial state (null, Long.MIN_VALUE) |
| I2CHandler.FirstStrikeIsForwarded | src/uk/co/romware/i2cdrumkit/midigenerator/i2c/I2CHandler.java:109-143 | the first strike ever decoded is forwarded, whatever the clock reads |
| I2CHandler.Monitor | src/uk/co/romware/i2cdrumkit/midigenerator/i2c/I2CHandler.java:108-155 | the polling loop's noteOn calls are exactly the broadcasts of the strikes the filter forwards over the decoded reports |
| DataLines.ChunkSize | src/uk/co/romware/i2cdrumkit/audiogenerator/sampled/DataLineHandlerFactory.java:157-158 | the chunk is the least whole number of bytes holding 100 ms of audio |
| DataLines.ChunkSizeExamples | src/uk/co/romware/i2cdrumkit/audiogenerator/sampled/DataLineHandlerFactory.java:157-158 | 44.1 kHz with 4-byte frames gives 17640 bytes; 48 kHz with 2-byte frames gives 9600; 11025 Hz with 4-byte frames gives 4410, not the 4412 that rounding the frame count first would give |
| DataLines.PrimingRequest | src/uk/co/romware/i2cdrumkit/audiogenerator/sampled/DataLineHandlerFactory.java:74 | the corrected priming request never exceeds the sample, and equals the code's two chunks whenever the sample holds two chunks |
| DataLines.PlayIsGuarded | src/uk/co/romware/i2cdrumkit/audiogenerator/sampled/DataLineHandlerFactory.java:115-120 | `play` fails with "Already playing" iff there is current audio, and then changes nothing; otherwise the handler holds the data, unmuted, at the given volume |
| DataLines.StopIsIdempotent | src/uk/co/romware/i2cdrumkit/audiogenerator/sampled/DataLineHandlerFactory.java:137-142 | `stop` without audio is a no-op; afterwards there is no audio, the line was muted if there was audio, and stopping twice is stopping once |
| DataLines.PlayAfterStopSucceeds | src/uk/co/romware/i2cdrumkit/audiogenerator/sampled/DataLineHandlerFactory.java:115-140 | after a `stop`, the next `play` is accepted |
| DataLines.PrimingRequestIsInBounds | src/uk/co/romware/i2cdrumkit/audiogenerator/sampled/DataLineHandlerFactory.java:74 | the corrected priming write meets SourceDataLine.write's bounds for every sample length |
| DataLines.ShortSampleOverrunsPriming | src/uk/co/romware/i2cdrumkit/audiogenerator/sampled/DataLineHandlerFactory.java:74 | as written, priming any sample shorter than two chunks breaks write's bounds, for every chunk size |
| DataLines.ShortSampleOverrunsPrimingAtCdRate | src/uk/co/romware/i2cdrumkit/audiogenerator/sampled/DataLineHandlerFactory.java:74 | at 44.1 kHz with 4-byte frames two chunks are 35280 bytes, so every shorter sample overruns the priming write |
| DataLines.WakeKeepsStreams | src/uk/co/romware/i2cdrumkit/audiogenerator/sampled/DataLineHandlerFactory.java:69-77 | after priming, the cursor is inside the sample and the line holds exactly the bytes before it |
| DataLines.PollKeepsStreams | src/uk/co/romware/i2cdrumkit/audiogenerator/sampled/DataLineHandlerFactory.java:77-98 | each pass of the feed loop keeps the cursor within the sample and the delivered bytes equal to the sample's prefix |
| DataLines.ExhaustedStreamDeliveredEverything | src/uk/co/romware/i2cdrumkit/audiogenerator/sampled/DataLineHandlerFactory.java:77-104 | a sample that plays to its end without a stop has been accepted in full and in order, and the handler leaves the loop quiescent |
| DataLines.RefillAdvancesByWhatWasWritten | src/uk/co/romware/i2cdrumkit/audiogenerator/sampled/DataLineHandlerFactory.java:90-95 | a refill asks for at most one chunk and the cursor advances by exactly what the line accepted, never past the end |
| DataLines.NoRefillKeepsCursor | src/uk/co/romware/i2cdrumkit/audiogenerator/sampled/DataLineHandlerFactory.java:91-97 | with two chunks or more pending, or a write that throws, the cursor and delivered bytes stay |
| DataLines.StopEndsStreamAtNextPoll | src/uk/co/romware/i2cdrumkit/audiogenerator/sampled/DataLineHandlerFactory.java:85-104 | after a `stop`, the very next pass leaves the loop and releases the handler, quiescent and muted |
| DataLines.StopBeforeWakeIsNotReleased | src/uk/co/romware/i2cdrumkit/audiogenerator/sampled/DataLineHandlerFactory.java:65-71 | a handler stopped between `play` and its worker waking is not released by that wake |
| DataLines.DataLineHandler.constructor | src/uk/co/romware/i2cdrumkit/audiogenerator/sampled/DataLineHandlerFactory.java:53-57 | a new handler has its index, no audio, an unmuted line and a waiting worker |
| DataLines.DataLineHandler.Play | src/uk/co/romware/i2cdrumkit/audiogenerator/sampled/DataLineHandlerFactory.java:112-131 | the handler's new state and outcome are PlayTransition's; the call is logged; the pool stays valid on failure and on a handed-out quiescent handler; the volume-0 gain exception is not modelled (see Left out) |
| DataLines.DataLineHandler.Stop | src/uk/co/romware/i2cdrumkit/audiogenerator/sampled/DataLineHandlerFactory.java:134-146 | the new state is StopTransition's, the call is logged, and the pool stays valid |
| DataLines.DataLineHandler.Wake | src/uk/co/romware/i2cdrumkit/audiogenerator/sampled/DataLineHandlerFactory.java:65-77 | the new state is WakeTransition's; the handler is appended to the idle queue exactly when the loop already ended; the pool stays valid |
| DataLines.DataLineHandler.Poll | src/uk/co/romware/i2cdrumkit/audiogenerator/sampled/DataLineHandlerFactory.java:77-104 | the new state is PollTransition's; on loop exit the handler is appended to the tail of the idle queue and the return is logged; the pool stays valid |
| DataLines.DataLineHandler.Release | src/uk/co/romware/i2cdrumkit/audiogenerator/sampled/DataLineHandlerFactory.java:104 | the handler is appended to the tail of the idle queue, and the pool invariant for every other handler is kept |
| DataLines.DataLineHandler.Write | src/uk/co/romware/i2cdrumkit/audiogenerator/sampled/DataLineHandlerFactory.java:74-75 | the line accepts the next bytes of the sample from the cursor, and the cursor moves past them (the priming write here, the refill at lines 94-95) |
| DataLines.DataLineHandler.CheckEnd | src/uk/co/romware/i2cdrumkit/audiogenerator/sampled/DataLineHandlerFactory.java:77-100 | at the end of the sample the audio is dropped and the feed loop left; otherwise nothing changes |
| DataLines.DataLineHandlerFactory.constructor | src/uk/co/romware/i2cdrumkit/audiogenerator/sampled/DataLineHandlerFactory.java:156-166 | the chunk size comes from the format; the idle queue is filled to its capacity with seven fresh handlers, indices 1..7, in order |
| DataLines.DataLineHandlerFactory.GetHandler | src/uk/co/romware/i2cdrumkit/audiogenerator/sampled/DataLineHandlerFactory.java:168-175 | takes the head of the idle queue, which is quiescent and no longer idle; the pool stays valid |
| DataLines.PoolPartition | src/uk/co/romware/i2cdrumkit/audiogenerator/sampled/DataLineHandlerFactory.java:151-175 | idle and handed-out handlers are disjoint and together are the seven handlers, so the queue never holds more than seven |
| Voice.SampledAudio.constructor | src/uk/co/romware/i2cdrumkit/audiogenerator/sampled/SampledAudio.java:36-52 | a voice holds its sample's bytes and format for good, and records no handler |
| Voice.SampledAudio.Play | src/uk/co/romware/i2cdrumkit/audiogenerator/sampled/SampledAudio.java:58-69 | a recorded handler is stopped first (a fresh voice issues no stop); then the idle head is taken, recorded, and plays this voice's data at the volume; no other handler changes |
| Voice.SampledAudio.Stop | src/uk/co/romware/i2cdrumkit/audiogenerator/sampled/SampledAudio.java:72-81 | with no recorded handler nothing happens; otherwise only that handler is stopped; the record is never cleared |
| VoiceRegistry.ClipTableIsInjective | src/uk/co/romware/i2cdrumkit/audiogenerator/sampled/SampledAudioGenerator.java:51-56 | the registry keys are exactly {35, 38, 42, 45, 49, 50}, each bound to a sample of its own |
| VoiceRegistry.EveryPadNoteHasAVoice | src/uk/co/romware/i2cdrumkit/audiogenerator/sampled/SampledAudioGenerator.java:51-56 | every CONTROL_MAP note is a registry key, and every key is the note of exactly one pad |
| VoiceRegistry.DecodedStrikesHaveAVoice | src/uk/co/romware/i2cdrumkit/audiogenerator/sampled/SampledAudioGenerator.java:51-56 | a report that decodes to a strike names a note that has a voice, so `playNote` never takes its null path for a decoded strike |
| VoiceRegistry.SampledAudioGenerator.constructor | src/uk/co/romware/i2cdrumkit/audiogenerator/sampled/SampledAudioGenerator.java:41-56 | the pool is made fresh for the reference sample's format, with all seven handlers idle; each table note gets its own fresh voice, distinct from every other note's, for its own file, with no handler recorded |
| VoiceRegistry.SampledAudioGenerator.LoadClips | src/uk/co/romware/i2cdrumkit/audiogenerator/sampled/SampledAudioGenerator.java:51-56 | the six puts bind each table note to a fresh voice with that file's data and format, on the shared pool; no two notes share a voice |
| VoiceRegistry.SampledAudioGenerator.CheckFormats | src/uk/co/romware/i2cdrumkit/audiogenerator/sampled/SampledAudioGenerator.java:58-62 | fails with "Mismatched audio format" exactly when some voice's format does not match the pool's |
| VoiceRegistry.SampledAudioGenerator.Create | src/uk/co/romware/i2cdrumkit/audiogenerator/sampled/SampledAudioGenerator.java:41-65 | construction throws "Mismatched audio format" iff some table file's format does not match the reference file's; otherwise the registry is valid with keys {35, 38, 42, 45, 49, 50}, a fresh pool for the reference format with all seven handlers idle and an empty call log, and for each note a fresh, distinct voice holding its own file's data and format with no handler recorded |
| VoiceRegistry.SampledAudioGenerator.PlayNote | src/uk/co/romware/i2cdrumkit/audiogenerator/sampled/SampledAudioGenerator.java:67-72 | a mapped note retriggers its voice with the velocity as volume: the previously recorded handler is stopped, the idle head is taken off the queue, recorded and plays the voice's sample unmuted, and no other handler or voice record changes; an unmapped note changes nothing |
| VoiceRegistry.SampledAudioGenerator.StopNote | src/uk/co/romware/i2cdrumkit/audiogenerator/sampled/SampledAudioGenerator.java:75-77 | a mapped note stops the handler its voice recorded (StopTransition) and changes no other handler; an unmapped note raises a NullPointerException and changes nothing |
| VoiceRegistry.SampledAudioGenerator.RetriggerSilencesTheFirstSound | src/uk/co/romware/i2cdrumkit/audiogenerator/sampled/SampledAudio.java:61-66 | the two strikes take handlers exactly when every table file matches the reference format, that is, when construction succeeds; then, on the new registry, striking a note twice leaves the first strike's handler silent and muted and a different handler playing the note's sample at the second volume |

## Left out

- Threads, `synchronized`, `wait`/`notify` and the 10 ms polling. These are
  sequential steps here: `Wake`, `Poll`, and the other methods called between
  them.
- SourceDataLine and its controls are not modelled:
  - opening and starting the line, `flush`, the buffer size and `available`
    (only the pending count, as an input);
  - the MUTE control (a `muted` flag);
  - the `LineUnavailableException` of opening a line.
- DataLines.DataLineHandler.Play does not model the MASTER_GAIN dB
  computation: it is floating point and takes `log(0)` at volume 0. The
  volume is only recorded.
- DataLines.ChunkSize uses exact integer arithmetic for integer frame rates.
  The code's float arithmetic and fractional frame rates are not modelled.
- I2CHandler.Velocity uses the integer form of the double expression. The two
  agree on every softness the decoder produces (0..7, `VelocityTable`), not on
  arbitrary integers.
- The I2C hardware is not modelled: the setup, the `restart` register writes,
  the retry loop, and the reads that feed the decoder. Reports and the clock
  are inputs.
- I2CHandler.Monitor runs over a finite sequence of reports; the source loop
  never ends.
- WAV loading and decoding, and reading the reference format from a stream,
  are the `load` parameter. `AudioFormat.matches` is the `matches` parameter.
- DataLines.DataLineHandler.Play does not model the exception that the gain
  step throws at volume 0 (every softness-6 strike, `Velocity(6) == 0`):
  `log(0)` gives a gain of minus infinity, which FloatControl.setValue
  rejects (DataLineHandlerFactory.java:125-127). In the source that throw
  comes after the audio is stored (line 118) and before the worker is
  notified (line 130), and `playNote` swallows it
  (SampledAudioGenerator.java:70). The worker is then never woken to play;
  the voice's next `stop` clears the audio and the worker waits again (lines
  69-70), so the handler never returns to the pool. In the model `play` on
  a handler taken from the pool always returns `Pass`, and `playNote` never
  catches anything.
- DataLines.DataLineHandler.Poll and DataLines.DataLineHandler.Wake release
  the handler and return the worker to its outer wait in one step. The
  source has a gap between `add(this)` (line 104) and the worker's next
  `wait()` (lines 62-65). A `play` from a caller that was blocked in `take()`
  can land in that gap; its `notify` then wakes nobody and the sample never
  plays. The model's `Wake` may always happen after a `play`, so this lost
  notification is not captured.
- DataLines.DataLineHandler.Play states pool validity only for a failed
  call or a handed-out handler that is not streaming. That is the only way
  voices use it. A `play` on a stopped handler whose worker has not yet left
  its feed loop is outside the invariant.
- DataLines.DataLineHandlerFactory.GetHandler requires a non-empty idle queue
  in place of the blocking `take`. The `null` it returns when interrupted is
  not modelled.
- Logging, ServerAudioGenerator, MidiAudioGenerator, I2CDrumKit and the two
  interfaces are not part of this model.

## Findings

| source | as written | input that shows it | evidently intended | confidence | as-written member | corrected member |
|---|---|---|---|---|---|---|
| src/uk/co/romware/i2cdrumkit/audiogenerator/sampled/DataLineHandlerFactory.java:74 | the priming write asks for `2 * m_BytesToBuffer` bytes from offset 0, whatever the sample's length | at 44.1 kHz with 4-byte frames, any sample shorter than 35280 bytes: the request passes the end of the array, write throws, nothing catches it, and the worker thread dies | ask for two chunks or the whole sample, whichever is smaller | not executed | DataLines.ShortSampleOverrunsPriming | DataLines.PrimingRequestIsInBounds |
