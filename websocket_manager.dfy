/**
 * The per-connection chunk registry `ConnectionManager`: for each
 * connection (keyed by its integer identity) the list of received chunks,
 * the byte buffer they were written to, and a lock entry; plus the list of
 * active connections.  Operations run one after another: the per-connection
 * asyncio locks only serialise them.
 */
module WebsocketManager {
  import opened Outcomes
  import opened Builtins
  import TranscriptionService

  /** A connection's identity, `id(websocket)`. */
  type ConnId = int

  class ConnectionManager {
    var active: seq<ConnId>                  // active_connections, in connection order
    var chunks: map<ConnId, seq<seq<byte>>>  // file_chunks
    var buffers: map<ConnId, seq<byte>>      // audio_buffers: the contents of each BytesIO
    var locks: set<ConnId>                   // the keys of processing_locks

    /**
     * The registry invariant: every connection with a buffer has a chunk
     * list and a lock, every lock belongs to an active connection, and each
     * buffer holds exactly its chunks in arrival order.
     */
    ghost predicate Valid()
      reads this
    {
      && buffers.Keys == chunks.Keys
      && buffers.Keys <= locks
      && (forall id :: id in locks ==> id in active)
      && (forall id :: id in buffers ==> buffers[id] == Concat(chunks[id]))
    }

    /** `__init__`: no connections and no entries. */
    constructor ()
      ensures Valid()
      ensures active == [] && chunks == map[] && buffers == map[] && locks == {}
    {
      active, chunks, buffers, locks := [], map[], map[], {};
    }

    /** `connect`: the connection is appended and gets fresh, empty entries. */
    method Connect(id: ConnId)
      requires Valid()
      modifies this
      ensures Valid()
      ensures active == old(active) + [id]
      ensures chunks == old(chunks)[id := []]
      ensures buffers == old(buffers)[id := []]
      ensures locks == old(locks) + {id}
    {
      active := active + [id];
      chunks := chunks[id := []];
      buffers := buffers[id := []];
      locks := locks + {id};
    }

    /**
     * `disconnect`: `list.remove` raises `ValueError` (changing nothing) when
     * the connection is not active; otherwise its first occurrence goes and
     * its entries are deleted where present.
     */
    method Disconnect(id: ConnId) returns (r: Outcome<()>)
      requires Valid()
      modifies this
      ensures Valid()
      ensures id !in old(active) ==> r == Raise(ValueError) && unchanged(this)
      ensures id in old(active) ==>
        && r == Return(())
        && active == RemoveFirst(old(active), id)
        && chunks == old(chunks) - {id}
        && buffers == old(buffers) - {id}
        && locks == old(locks) - {id}
    {
      if id !in active {
        return Raise(ValueError);
      }
      active := RemoveFirst(active, id);
      if id in chunks {
        chunks := chunks - {id};
      }
      if id in buffers {
        buffers := buffers - {id};
      }
      if id in locks {
        locks := locks - {id};
      }
      r := Return(());
    }

    /**
     * `add_chunk`: the lock lookup raises `KeyError` for a connection without
     * a lock; a missing buffer is caught and reported as `False`; otherwise
     * the chunk goes at the end of the buffer and of the chunk list.  No other
     * connection's entries change.
     */
    method AddChunk(id: ConnId, chunk: seq<byte>) returns (r: Outcome<bool>)
      requires Valid()
      modifies this
      ensures Valid()
      ensures id !in old(locks) ==> r == Raise(KeyError) && unchanged(this)
      ensures id in old(locks) && id !in old(buffers) ==> r == Return(false) && unchanged(this)
      ensures id in old(buffers) ==>
        && r == Return(true)
        && buffers == old(buffers)[id := old(buffers)[id] + chunk]
        && chunks == old(chunks)[id := old(chunks)[id] + [chunk]]
        && active == old(active)
        && locks == old(locks)
    {
      if id !in locks {
        return Raise(KeyError);
      }
      if id !in buffers {
        return Return(false);
      }
      ConcatAppend(chunks[id], chunk);
      buffers := buffers[id := buffers[id] + chunk];
      chunks := chunks[id := chunks[id] + [chunk]];
      r := Return(true);
    }

    /**
     * `get_complete_file`: hands back every byte received since `connect` or
     * the previous call, in arrival order, and empties the buffer and the
     * chunk list.  Without a lock it raises `KeyError`; without a buffer it
     * returns `None`; in both cases nothing changes.
     */
    method GetCompleteFile(id: ConnId) returns (r: Outcome<Option<seq<byte>>>)
      requires Valid()
      modifies this
      ensures Valid()
      ensures id !in old(locks) ==> r == Raise(KeyError) && unchanged(this)
      ensures id in old(locks) && id !in old(buffers) ==> r == Return(None) && unchanged(this)
      ensures id in old(buffers) ==>
        && r == Return(Some(old(buffers)[id]))
        && old(buffers)[id] == Concat(old(chunks)[id])
        && buffers == old(buffers)[id := []]
        && chunks == old(chunks)[id := []]
        && active == old(active)
        && locks == old(locks)
    {
      if id !in locks {
        return Raise(KeyError);
      }
      if id !in buffers {
        return Return(None);
      }
      var completeFile := buffers[id];
      buffers := buffers[id := []];
      chunks := chunks[id := []];
      r := Return(Some(completeFile));
    }

    /** `cleanup`: every buffer and chunk list goes; connections and locks stay. */
    method Cleanup()
      requires Valid()
      modifies this
      ensures Valid()
      ensures buffers == map[] && chunks == map[]
      ensures active == old(active) && locks == old(locks)
    {
      buffers := map[];
      chunks := map[];
    }
  }

  /**
   * A connection that receives `received` chunk by chunk and then asks twice
   * for the complete file gets every received byte in arrival order the first
   * time and nothing the second time.
   */
  method ReceiveThenCollect(id: ConnId, received: seq<seq<byte>>)
    returns (first: Outcome<Option<seq<byte>>>, second: Outcome<Option<seq<byte>>>)
    ensures first == Return(Some(Concat(received)))
    ensures second == Return(Some([]))
  {
    var manager := new ConnectionManager();
    manager.Connect(id);
    for k := 0 to |received|
      invariant manager.Valid()
      invariant id in manager.locks && id in manager.buffers
      invariant manager.chunks[id] == received[..k]
    {
      var added := manager.AddChunk(id, received[k]);
      assert received[..k + 1] == received[..k] + [received[k]];
    }
    assert received[..|received|] == received;
    first := manager.GetCompleteFile(id);
    second := manager.GetCompleteFile(id);
  }

  /**
   * The text `process_audio_chunk` hands back for one call of the
   * transcription service: nothing when the call raised, nothing when the
   * full text is blank once stripped, and the full text otherwise.
   */
  function TranscriptionText(outcome: Outcome<TranscriptionService.TranscriptionResult>): (text: Option<string>)
    ensures text.Some? <==> outcome.Return? && !AllSpace(outcome.value.fullText)
    ensures text.Some? ==> text.value == outcome.value.fullText
  {
    if outcome.Return? && Strip(outcome.value.fullText) != [] then Some(outcome.value.fullText) else None
  }

  /**
   * Through `transcribe_file`, a chunk yields text exactly when the engine
   * finished without raising and some segment text is not blank; that text
   * is non-empty, has no surrounding whitespace, and is the joined segment
   * texts stripped.
   */
  lemma ProcessedText(engine: TranscriptionService.EngineOutput, round2: real -> real)
    ensures var text := TranscriptionText(TranscriptionService.Transcription(engine, round2));
      && (text.Some? <==>
            && engine.Transcribed? && engine.raisedAfter.None?
            && exists i :: 0 <= i < |engine.segments| && !AllSpace(engine.segments[i].text))
      && (text.Some? ==>
            && text.value != []
            && Trimmed(text.value)
            && text.value == Strip(Join(" ", TranscriptionService.Texts(engine.segments))))
  {
    if engine.Transcribed? {
      TranscriptionService.FullTextShape(engine.segments);
    }
  }
}
