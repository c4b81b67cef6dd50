# EchoType: connection registry and transcription result assembly

This project is a Dafny model of the sequential core of EchoType's streaming
transcription back end. It covers two parts.

- **`ConnectionManager`** (`websocket_manager.dfy`, module `WebsocketManager`).
  This is the per-connection chunk registry. It keeps a list of active
  connections, and for each connection id it keeps the list of received
  chunks, the byte buffer those chunks were written to, and a lock entry. It is
  a class whose methods update its four fields in place: `Connect`,
  `Disconnect`, `AddChunk`, `GetCompleteFile` and `Cleanup`. Its invariant
  `Valid()` says that every connection's buffer is the in-order concatenation
  of its chunk list. It also says that every connection with a buffer has a
  chunk list and a lock, and that every lock belongs to an active connection.
  The id is `id(websocket)`, modelled as an `int`. The text selection in
  `process_audio_chunk` is the function `TranscriptionText`.
- **`transcribe_file`'s result assembly** (`transcription_service.dfy`, module
  `TranscriptionService`). The speech engine's output is an input value here:
  the segments it yields, its run information (the language), and optionally
  an exception raised before or during the segment stream. `TranscribeFile`
  is the loop that builds the segment list and the list of texts. It is
  proved equal to the specification function `Transcription`. The lemmas
  about `FullText` state what the joined and stripped text looks like.

Two helper modules support these parts. `Outcomes` holds `Option`, the
exceptions that escape (`KeyError`, `ValueError`, `EngineError`), and
`Outcome`, which is "returned a value" or "raised". `Builtins` writes out the
Python built-ins the code relies on: `str.isspace`/`str.strip`, `str.join`,
`list.remove` and byte-string concatenation.

Exceptions that escape the Python code are modelled as `Raise` outcomes
rather than as preconditions. These are the `KeyError` from
`processing_locks[conn_id]` outside the `try` in `add_chunk` and
`get_complete_file`, and the `ValueError` that `active_connections.remove` in
`disconnect` raises for a connection not in the list. In both cases the state is left unchanged.

## Model

| member | source | states |
|---|---|---|
| WebsocketManager.ConnectionManager.constructor | websocket_manager.py:14-19 | the registry starts with no active connections, no chunk lists, no buffers and no locks, and is valid |
| WebsocketManager.ConnectionManager.Connect | websocket_manager.py:21-27 | the id is appended to the active list and gets an empty chunk list, an empty buffer and a lock; other connections' entries are unchanged; validity is preserved |
| WebsocketManager.ConnectionManager.Disconnect | websocket_manager.py:29-38 | for an inactive connection it raises ValueError and changes nothing; otherwise the first occurrence leaves the active list, the id's chunk list, buffer and lock are deleted, and everything else is unchanged |
| WebsocketManager.ConnectionManager.AddChunk | websocket_manager.py:40-50 | without a lock it raises KeyError; with a lock but no buffer it returns False and changes nothing; otherwise it returns True and appends the chunk to both the buffer and the chunk list, so the buffer stays the concatenation of the chunks; other connections are untouched |
| WebsocketManager.ConnectionManager.GetCompleteFile | websocket_manager.py:52-69 | without a lock it raises KeyError; with a lock but no buffer it returns None and changes nothing; otherwise it returns the buffer, which is the concatenation of the chunks received since connect or the last call, and empties the buffer and the chunk list of that id only |
| WebsocketManager.ConnectionManager.Cleanup | websocket_manager.py:106-112 | the buffer map and the chunk-list map become empty; active connections and locks are unchanged |
| WebsocketManager.ReceiveThenCollect | websocket_manager.py:40-66 | after connect and a run of add_chunk calls, the first get_complete_file returns every received byte in arrival order and an immediate second call returns empty bytes |
| WebsocketManager.TranscriptionText | websocket_manager.py:89-93 | the text is present exactly when transcription did not raise and its full text is not blank, and then it is that full text |
| WebsocketManager.ProcessedText | websocket_manager.py:89-90 | through transcribe_file, a chunk yields text exactly when the engine did not raise and some segment text is not blank; that text is non-empty, has no surrounding whitespace and is the stripped space-join of the segment texts |
| TranscriptionService.TranscribeFile | transcription_service.py:50-85 | an engine exception, raised before or during the segment stream, is re-raised with no partial result; otherwise there is exactly one result segment per engine segment, in order, with its text unchanged; the full text is the texts joined by single spaces and stripped; the language is the engine's |
| TranscriptionService.FullTextShape | transcription_service.py:72-75 | the full text never starts or ends with whitespace, and it is empty exactly when every segment text is blank |
| TranscriptionService.NoSegments | transcription_service.py:61-78 | with zero engine segments the result has full text "" and no segments |
| TranscriptionService.SegmentInJoinedText | transcription_service.py:72-75 | every segment text stands unchanged at its offset in the joined text, followed by one space when another segment follows |
| Builtins.Strip | transcription_service.py:75 | str.strip: the result has no surrounding whitespace, is empty exactly when the input is all whitespace, and otherwise is the input minus its leading and trailing whitespace runs |
| Builtins.JoinLayout | transcription_service.py:75 | str.join: each part stands at its offset in the join, with one separator before the next part |
| Builtins.JoinAllSpace | websocket_manager.py:90 | a join with a whitespace separator is blank exactly when every part is blank |
| Builtins.RemoveFirst | websocket_manager.py:31 | list.remove: the first occurrence of the value is removed and the elements before and after it keep their order; one element fewer, every other value kept |
| Builtins.ConcatAppend | websocket_manager.py:45-46 | writing one more chunk to the buffer appends its bytes after the bytes of the earlier chunks |

## Left out

- The asyncio locks only serialise access to one connection. The model runs the operations one after another and keeps only the set of ids that own a lock.
- `ThreadPoolExecutor`, `run_in_executor` and `executor.shutdown` in `cleanup` are concurrency plumbing and have no modelled effect.
- `BytesIO.close()` in `disconnect` and in `cleanup`'s loop is not modelled. A closed buffer has no state that the model keeps, because the buffer is removed from the map in the same call.
- `websocket.accept()` and the transport are left out. A connection is only its integer id.
- `process_audio_chunk` is modelled only from the transcription result onwards. Float-to-int16 scaling, `numpy`, the temporary WAV file and its header are floating point and foreign-library I/O. Any exception they raise would also end in `None`, which `TranscriptionText` gives for a raised outcome.
- `WhisperModel` loading and the `self.model.transcribe` call are an external engine. Its output, including an exception it raises, is an input of `TranscribeFile`.
- `round(x, 2)` on segment times is float arithmetic. It is a parameter `round2` of `TranscribeFile`, and times are `real` values the model never inspects.
- `transcribe_bytes` is temporary-file I/O around `transcribe_file` and is left out.
- Logging calls are left out.
- In `add_chunk`, the branch where a buffer exists without a chunk list cannot be reached while `Valid()` holds. In Python that branch would write the chunk to the buffer and then return `False`. It is not modelled as a branch of its own.
- main.py (HTTP/WebSocket routing, upload handling) and test_transcription.py (a command-line driver) are not part of this model.
