/**
 * The result assembly of `WhisperTranscriptionService.transcribe_file`:
 * what the speech engine yields is copied segment by segment into a
 * `TranscriptionResult`, and the segment texts are joined with single
 * spaces and stripped to form the full text.  The engine itself is not
 * modelled; its output is an input here.
 */
module TranscriptionService {
  import opened Outcomes
  import opened Builtins

  /** One timed span of recognised text in a result. */
  datatype TranscriptionSegment = TranscriptionSegment(text: string, start: real, end: real)

  /** What `transcribe_file` hands back. */
  datatype TranscriptionResult =
    TranscriptionResult(fullText: string, language: string, segments: seq<TranscriptionSegment>)

  /** One segment as the engine yields it. */
  datatype EngineSegment = EngineSegment(text: string, start: real, end: real)

  /** The engine's information about the whole run. */
  datatype EngineInfo = EngineInfo(language: string)

  /**
   * One call of the engine's `transcribe`: either it raises at once, or it
   * returns its run information and a lazy stream of segments, which may
   * itself raise once it has yielded `segments`.
   */
  datatype EngineOutput =
    | TranscribeRaised(message: string)
    | Transcribed(segments: seq<EngineSegment>, info: EngineInfo, raisedAfter: Option<string>)

  /** The texts of the engine's segments, in order. */
  function Texts(segments: seq<EngineSegment>): (texts: seq<string>)
    ensures |texts| == |segments|
    ensures forall i :: 0 <= i < |segments| ==> texts[i] == segments[i].text
  {
    seq(|segments|, i requires 0 <= i < |segments| => segments[i].text)
  }

  /** The full text of a result: the segment texts joined with one space, then stripped. */
  function FullText(segments: seq<EngineSegment>): string {
    Strip(Join(" ", Texts(segments)))
  }

  /** A result segment made from an engine segment; `round2` stands for `round(_, 2)`. */
  function CopySegment(s: EngineSegment, round2: real -> real): TranscriptionSegment {
    TranscriptionSegment(s.text, round2(s.start), round2(s.end))
  }

  /** What `transcribe_file` returns or raises for one engine output. */
  function Transcription(engine: EngineOutput, round2: real -> real): Outcome<TranscriptionResult> {
    match engine
    case TranscribeRaised(message) => Raise(EngineError(message))
    case Transcribed(segments, info, raisedAfter) =>
      if raisedAfter.Some? then Raise(EngineError(raisedAfter.value))
      else Return(TranscriptionResult(
        FullText(segments),
        info.language,
        seq(|segments|, i requires 0 <= i < |segments| => CopySegment(segments[i], round2))))
  }

  /**
   * `transcribe_file`: one pass over the engine's segments builds the list of
   * result segments and the list of texts; an exception from the engine is
   * re-raised and no partial result is formed.
   */
  method TranscribeFile(engine: EngineOutput, round2: real -> real) returns (r: Outcome<TranscriptionResult>)
    ensures r == Transcription(engine, round2)
    ensures engine.TranscribeRaised? ==> r == Raise(EngineError(engine.message))
    ensures engine.Transcribed? && engine.raisedAfter.Some? ==> r == Raise(EngineError(engine.raisedAfter.value))
    ensures engine.Transcribed? && engine.raisedAfter.None? ==>
      && r.Return?
      && |r.value.segments| == |engine.segments|
      && (forall i :: 0 <= i < |engine.segments| ==>
            r.value.segments[i] == CopySegment(engine.segments[i], round2)
            && r.value.segments[i].text == engine.segments[i].text)
      && r.value.fullText == Strip(Join(" ", Texts(engine.segments)))
      && r.value.language == engine.info.language
  {
    match engine
    case TranscribeRaised(message) =>
      r := Raise(EngineError(message));
    case Transcribed(segments, info, raisedAfter) =>
      var transcriptionSegments: seq<TranscriptionSegment> := [];
      var fullTextParts: seq<string> := [];
      for k := 0 to |segments|
        invariant |transcriptionSegments| == k && |fullTextParts| == k
        invariant forall i :: 0 <= i < k ==> transcriptionSegments[i] == CopySegment(segments[i], round2)
        invariant forall i :: 0 <= i < k ==> fullTextParts[i] == segments[i].text
      {
        var segment := segments[k];
        transcriptionSegments := transcriptionSegments
          + [TranscriptionSegment(segment.text, round2(segment.start), round2(segment.end))];
        fullTextParts := fullTextParts + [segment.text];
      }
      if raisedAfter.Some? {
        r := Raise(EngineError(raisedAfter.value));
      } else {
        assert fullTextParts == Texts(segments);
        assert transcriptionSegments
            == seq(|segments|, i requires 0 <= i < |segments| => CopySegment(segments[i], round2));
        r := Return(TranscriptionResult(Strip(Join(" ", fullTextParts)), info.language, transcriptionSegments));
      }
  }

  /**
   * The full text of a result never starts or ends with whitespace, and it
   * is empty exactly when every segment text is blank (in particular, when
   * there are no segments at all).
   */
  lemma FullTextShape(segments: seq<EngineSegment>)
    ensures Trimmed(FullText(segments))
    ensures FullText(segments) == [] <==> forall i :: 0 <= i < |segments| ==> AllSpace(segments[i].text)
  {
    JoinAllSpace(" ", Texts(segments));
  }

  /** With no segments the result has the empty text and no segments. */
  lemma NoSegments(info: EngineInfo, round2: real -> real)
    ensures Transcription(Transcribed([], info, None), round2)
         == Return(TranscriptionResult("", info.language, []))
  {
    var empty: seq<EngineSegment> := [];
    assert Texts(empty) == [];
    assert AllSpace([]);
    assert seq(|empty|, i requires 0 <= i < |empty| => CopySegment(empty[i], round2)) == [];
  }

  /**
   * Each segment text sits in the joined text at its offset, with one space
   * before the next one: the full text is the stripped form of exactly that
   * layout.
   */
  lemma SegmentInJoinedText(segments: seq<EngineSegment>, i: nat)
    requires i < |segments|
    ensures var joined := Join(" ", Texts(segments));
      var o := PartOffset(" ", Texts(segments), i);
      && o + |segments[i].text| <= |joined|
      && joined[o..o + |segments[i].text|] == segments[i].text
      && (i + 1 < |segments| ==> o + |segments[i].text| < |joined| && joined[o + |segments[i].text|] == ' ')
  {
    JoinLayout(" ", Texts(segments), i);
    var joined := Join(" ", Texts(segments));
    var e := PartOffset(" ", Texts(segments), i) + |segments[i].text|;
    if i + 1 < |segments| {
      assert joined[e..e + 1] == " ";
      assert joined[e] == joined[e..e + 1][0];
    }
  }
}
