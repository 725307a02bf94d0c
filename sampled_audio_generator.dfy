/**
 * The voice registry (SampledAudioGenerator.java): a fixed map from MIDI
 * note numbers to voices, all sharing one handler pool whose format is that
 * of the crash cymbal sample.  `playNote` retriggers the note's voice and
 * swallows any failure; `stopNote` stops it and fails on an unmapped note.
 */
module VoiceRegistry {
  import opened JavaTypes
  import opened DataLines
  import opened Voice
  import DrumData
  import I2CHandler

  /** The sample whose format fixes the pool's format. */
  const ReferenceFile: string := "CyCdh_K3Crash-02-16.wav"

  /** The note-to-sample table the constructor puts into the registry. */
  const ClipTable: map<int, string> := map[
    42 := "CyCdh_K3Crash-02-16.wav",
    49 := "CyCdh_K3HfHat-16.wav",
    45 := "CyCdh_K3Tom-01-16.wav",
    50 := "CyCdh_K3Tom-04-16.wav",
    38 := "CyCdh_K3SdSt-07-16.wav",
    35 := "CyCdh_K3Kick-01-16.wav"]

  const ClipNotes: set<int> := {35, 38, 42, 45, 49, 50}

  /** The table binds exactly the six notes, each to a sample of its own. */
  lemma ClipTableIsInjective()
    ensures ClipTable.Keys == ClipNotes
    ensures forall m, n :: m in ClipTable && n in ClipTable && ClipTable[m] == ClipTable[n] ==> m == n
  {
  }

  /**
   * The registry and the pad map agree: every decodable strike's note has a
   * voice, and every voice is reached by exactly one pad.
   */
  lemma EveryPadNoteHasAVoice()
    ensures forall pad :: I2CHandler.NoteOf(pad) in ClipTable
    ensures forall n :: n in ClipTable ==> exists pad :: I2CHandler.NoteOf(pad) == n
    ensures forall p, q :: I2CHandler.NoteOf(p) == I2CHandler.NoteOf(q) ==> p == q
  {
    I2CHandler.ControlMapIsTotalAndInjective();
    forall n | n in ClipTable
      ensures exists pad :: I2CHandler.NoteOf(pad) == n
    {
      assert n in I2CHandler.ControlMap.Values;
      var pad :| pad in I2CHandler.ControlMap && I2CHandler.ControlMap[pad] == n;
      assert I2CHandler.NoteOf(pad) == n;
    }
  }

  /** So a report that decodes to a strike always names a mapped note. */
  lemma DecodedStrikesHaveAVoice(d0: byte, d1: byte, d2: byte, d3: byte, d4: byte, d5: byte)
    requires DrumData.GetDrumOperation(d0, d1, d2, d3, d4, d5).Some?
    ensures I2CHandler.NoteOf(DrumData.GetDrumOperation(d0, d1, d2, d3, d4, d5).value.drumPad) in ClipTable
  {
  }

  /** No two notes share a voice object. */
  predicate Distinct(clips: map<int, SampledAudio>) {
    forall m, n :: m in clips && n in clips && m != n ==> clips[m] != clips[n]
  }

  /** Putting a voice that no note has yet under a new note keeps the voices distinct. */
  lemma PutKeepsDistinct(clips: map<int, SampledAudio>, note: int, voice: SampledAudio)
    requires Distinct(clips) && note !in clips
    requires forall n :: n in clips ==> clips[n] != voice
    ensures Distinct(clips[note := voice])
  {
  }

  class SampledAudioGenerator {
    const factory: DataLineHandlerFactory
    var clips: map<int, SampledAudio>           // m_Clips

    /**
     * The pool is valid; different notes have different voices; every voice
     * plays through the pool and records only handlers of the pool.
     */
    ghost predicate Valid()
      reads this, factory, factory.handlers, clips.Values
    {
      && factory.Valid()
      && Distinct(clips)
      && forall n :: n in clips ==>
           clips[n].factory == factory &&
           (clips[n].currentHandler != null ==> clips[n].currentHandler in factory.handlers)
    }

    /**
     * The constructor up to its validation loop: the pool is made for the
     * reference sample's format, then one voice per table entry is loaded
     * and put under its note.  `load` stands for reading and decoding a file.
     */
    constructor (load: string -> Sample)
      ensures Valid()
      ensures fresh(factory) && factory.format == load(ReferenceFile).format
      ensures factory.idle == factory.handlers && factory.calls == []
      ensures clips.Keys == ClipTable.Keys && Distinct(clips)
      ensures forall n :: n in ClipTable ==>
        fresh(clips[n]) && clips[n].data == load(ClipTable[n]).data &&
        clips[n].format == load(ClipTable[n]).format && clips[n].currentHandler == null
    {
      var fmt := load(ReferenceFile).format;
      var pool := new DataLineHandlerFactory(fmt);
      var m := LoadClips(load, pool);
      factory := pool;
      clips := m;
    }

    /** The six puts: one freshly loaded voice per table entry, all on the given pool. */
    static method LoadClips(load: string -> Sample, pool: DataLineHandlerFactory) returns (m: map<int, SampledAudio>)
      ensures m.Keys == ClipTable.Keys && Distinct(m)
      ensures forall n :: n in ClipTable ==>
        fresh(m[n]) && m[n].factory == pool && m[n].currentHandler == null &&
        m[n].data == load(ClipTable[n]).data && m[n].format == load(ClipTable[n]).format
    {
      m := map[];
      var voice := new SampledAudio(load(ClipTable[42]), pool);
      PutKeepsDistinct(m, 42, voice);
      m := m[42 := voice];
      voice := new SampledAudio(load(ClipTable[49]), pool);
      PutKeepsDistinct(m, 49, voice);
      m := m[49 := voice];
      voice := new SampledAudio(load(ClipTable[45]), pool);
      PutKeepsDistinct(m, 45, voice);
      m := m[45 := voice];
      voice := new SampledAudio(load(ClipTable[50]), pool);
      PutKeepsDistinct(m, 50, voice);
      m := m[50 := voice];
      voice := new SampledAudio(load(ClipTable[38]), pool);
      PutKeepsDistinct(m, 38, voice);
      m := m[38 := voice];
      voice := new SampledAudio(load(ClipTable[35]), pool);
      PutKeepsDistinct(m, 35, voice);
      m := m[35 := voice];
      assert m.Keys == ClipTable.Keys;
      forall n | n in ClipTable
        ensures fresh(m[n]) && m[n].currentHandler == null && m[n].factory == pool
        ensures m[n].data == load(ClipTable[n]).data && m[n].format == load(ClipTable[n]).format
      {
        assert n in {42, 49, 45, 50, 38, 35};
      }
    }

    /**
     * The validation loop: fails with "Mismatched audio format" exactly when
     * some voice's format does not match the pool's format.  `matches`
     * stands for AudioFormat.matches; the order in which the map's values
     * are visited does not change the outcome.
     */
    method CheckFormats(matches: (AudioFormat, AudioFormat) -> bool) returns (r: Outcome)
      ensures r.Fail? <==> exists v :: v in clips.Values && !matches(v.format, factory.format)
      ensures r.Fail? ==> r.error == "Mismatched audio format"
    {
      var remaining := clips.Values;
      while remaining != {}
        invariant remaining <= clips.Values
        invariant forall v :: v in clips.Values && v !in remaining ==> matches(v.format, factory.format)
        decreases remaining
      {
        var v :| v in remaining;
        if !matches(v.format, factory.format) {
          return Fail("Mismatched audio format");
        }
        remaining := remaining - {v};
      }
      return Pass;
    }

    /** The whole constructor: built and validated, or the exception it throws. */
    static method Create(load: string -> Sample, matches: (AudioFormat, AudioFormat) -> bool)
      returns (r: Result<SampledAudioGenerator>)
      ensures r.Err? <==>
        exists n :: n in ClipTable && !matches(load(ClipTable[n]).format, load(ReferenceFile).format)
      ensures r.Err? ==> r.error == "Mismatched audio format"
      ensures r.Ok? ==> fresh(r.value) && r.value.Valid() && r.value.clips.Keys == ClipNotes
      ensures r.Ok? ==> var pool := r.value.factory;
        fresh(pool) && pool.format == load(ReferenceFile).format && pool.idle == pool.handlers && pool.calls == []
      ensures r.Ok? ==> forall n :: n in ClipTable ==>
        fresh(r.value.clips[n]) && r.value.clips[n].currentHandler == null &&
        r.value.clips[n].data == load(ClipTable[n]).data && r.value.clips[n].format == load(ClipTable[n]).format
    {
      var g := new SampledAudioGenerator(load);
      var checked := g.CheckFormats(matches);
      if checked.Fail? {
        ghost var v :| v in g.clips.Values && !matches(v.format, g.factory.format);
        ghost var n :| n in g.clips && g.clips[n] == v;
        assert !matches(load(ClipTable[n]).format, load(ReferenceFile).format);
        return Err(checked.error);
      }
      forall n | n in ClipTable
        ensures matches(load(ClipTable[n]).format, load(ReferenceFile).format)
      {
        assert g.clips[n] in g.clips.Values;
      }
      return Ok(g);
    }

    /**
     * `playNote`: retriggers the note's voice with the velocity as its
     * volume (see SampledAudio.Play) and leaves every other voice's record
     * alone; on an unmapped note nothing happens (the null dereference is
     * swallowed).
     */
    method PlayNote(note: int, velocity: int)
      requires Valid()
      requires note in clips ==> |factory.idle| > 0
      modifies (if note in clips then {clips[note]} else {}), factory`idle, factory`calls, factory.handlers
      ensures Valid() && clips == old(clips)
      ensures note !in clips ==> factory.idle == old(factory.idle) && factory.calls == old(factory.calls)
      ensures note !in clips ==> forall g :: g in factory.handlers ==> g.State() == old(g.State())
      ensures forall n :: n in clips && n != note ==> clips[n].currentHandler == old(clips[n].currentHandler)
      ensures note in clips ==>
        var voice := clips[note];
        var h := voice.currentHandler;
        var previous := old(voice.currentHandler);
        && h == old(factory.idle[0]) && factory.idle == old(factory.idle[1..])
        && factory.calls == old(factory.calls) + StopIssued(previous)
             + [TakeCall(h.index), PlayCall(h.index, velocity)]
        && h.State() == PlayTransition(old(factory.idle[0].State()), voice.data, velocity).0
        && h.currentAudio == Some(voice.data) && h.volume == velocity && !h.muted
        && (previous != null && previous != h ==> previous.State() == StopTransition(old(previous.State())))
        && (forall g :: g in factory.handlers && g != h && g != previous ==> g.State() == old(g.State()))
    {
      if note in clips {
        var voice := clips[note];
        voice.Play(velocity);
      }
    }

    /**
     * `stopNote`: stops the note's voice (see SampledAudio.Stop), which
     * stops its recorded handler and no other; an unmapped note raises a
     * NullPointerException and changes nothing.
     */
    method StopNote(note: int) returns (r: Outcome)
      requires Valid()
      modifies factory`calls, factory.handlers
      ensures Valid()
      ensures r.Fail? <==> note !in clips
      ensures r.Fail? ==> r.error == "NullPointerException" && factory.calls == old(factory.calls)
      ensures r.Pass? ==> factory.calls == old(factory.calls) + StopIssued(clips[note].currentHandler)
      ensures r.Pass? && clips[note].currentHandler != null ==>
        clips[note].currentHandler.State() == StopTransition(old(clips[note].currentHandler.State()))
      ensures forall g :: g in factory.handlers && (r.Fail? || g != clips[note].currentHandler) ==>
        g.State() == old(g.State())
      ensures factory.idle == old(factory.idle)
    {
      if note !in clips {
        return Fail("NullPointerException");
      }
      clips[note].Stop();
      return Pass;
    }

    /**
     * A note sounds once at a time: on a newly created registry, striking the
     * same note twice silences and mutes the handler of the first strike and
     * leaves a different handler playing the note's sample.
     */
    static method RetriggerSilencesTheFirstSound(load: string -> Sample, matches: (AudioFormat, AudioFormat) -> bool,
                                                 note: int, v1: int, v2: int)
      returns (first: DataLineHandler?, second: DataLineHandler?)
      requires note in ClipTable
      ensures first != null <==>
        forall n :: n in ClipTable ==> matches(load(ClipTable[n]).format, load(ReferenceFile).format)
      ensures first == null <==> second == null
      ensures first != null ==>
        first != second && first.currentAudio.None? && first.muted &&
        second.currentAudio == Some(load(ClipTable[note]).data) && second.volume == v2
    {
      first, second := null, null;
      var r := Create(load, matches);
      if r.Err? {
        return;
      }
      var g := r.value;
      var voice := g.clips[note];
      assert voice.data == load(ClipTable[note]).data;
      assert |g.factory.idle| == HandlerCount;
      g.PlayNote(note, v1);
      first := voice.currentHandler;
      assert first !in g.factory.idle;
      g.PlayNote(note, v2);
      second := voice.currentHandler;
    }
  }
}
