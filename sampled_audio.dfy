/**
 * A voice (SampledAudio.java): one drum sample and the handler that last
 * played it.  Retriggering a voice stops the handler it recorded, takes a
 * fresh handler from the pool, records it and plays the sample on it, so a
 * voice sounds at most once at a time.
 */
module Voice {
  import opened JavaTypes
  import opened DataLines

  /** A decoded sound file: its format and its bytes (what the file-loading constructor reads). */
  datatype Sample = Sample(format: AudioFormat, data: seq<byte>)

  /** The stop calls a voice issues to its recorded handler: one, or none when it recorded none. */
  function StopIssued(h: DataLineHandler?): seq<Call> {
    if h == null then [] else [StopCall(h.index)]
  }

  class SampledAudio {
    const data: seq<byte>                           // m_Data, fixed at construction
    const format: AudioFormat                       // m_Format
    const factory: DataLineHandlerFactory           // m_Factory
    var currentHandler: DataLineHandler?            // m_CurrentHandler

    /** The pool is valid and the recorded handler, if any, is one of its handlers. */
    ghost predicate Valid()
      reads this, factory, factory.handlers
    {
      factory.Valid() && (currentHandler != null ==> currentHandler in factory.handlers)
    }

    /** A voice over a loaded sample, with no handler recorded yet. */
    constructor (sample: Sample, factory: DataLineHandlerFactory)
      ensures data == sample.data && format == sample.format && this.factory == factory
      ensures currentHandler == null
    {
      data := sample.data;
      format := sample.format;
      this.factory := factory;
      currentHandler := null;
    }

    /**
     * `play`: stops the recorded handler if there is one (and only then),
     * takes the head of the idle queue, records it and plays this voice's
     * sample on it with the given volume.  The handler taken is quiescent, so
     * its `play` never refuses.
     */
    method Play(volume: int)
      requires Valid() && |factory.idle| > 0
      modifies this, factory`idle, factory`calls, factory.handlers
      ensures Valid()
      ensures currentHandler == old(factory.idle[0]) && factory.idle == old(factory.idle[1..])
      ensures factory.calls == old(factory.calls) + StopIssued(old(currentHandler))
        + [TakeCall(currentHandler.index), PlayCall(currentHandler.index, volume)]
      ensures currentHandler.State() == PlayTransition(old(factory.idle[0].State()), data, volume).0
      ensures currentHandler.currentAudio == Some(data) && currentHandler.volume == volume && !currentHandler.muted
      ensures old(currentHandler) != null && old(currentHandler) != currentHandler ==>
        old(currentHandler).State() == StopTransition(old(currentHandler.State()))
      ensures forall g :: g in factory.handlers && g != currentHandler && g != old(currentHandler) ==>
        g.State() == old(g.State())
    {
      if currentHandler != null {
        currentHandler.Stop();
      }
      var h := factory.GetHandler();
      currentHandler := h;
      var r := h.Play(data, volume);
      assert r.Pass?;
    }

    /** `stop`: forwards `stop` to the recorded handler if there is one; the record itself stays. */
    method Stop()
      requires Valid()
      modifies factory`calls, factory.handlers
      ensures Valid() && currentHandler == old(currentHandler)
      ensures factory.calls == old(factory.calls) + StopIssued(currentHandler)
      ensures factory.idle == old(factory.idle)
      ensures currentHandler != null ==> currentHandler.State() == StopTransition(old(currentHandler.State()))
      ensures forall g :: g in factory.handlers && g != currentHandler ==> g.State() == old(g.State())
    {
      if currentHandler != null {
        currentHandler.Stop();
      }
    }
  }
}
