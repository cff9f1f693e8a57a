/**
 * The second loop of `stream_diarization` and the generator as a whole: each
 * merged turn is cut out of the audio as `splits/segment_<n>.wav` (bounds in
 * milliseconds, truncated), transcribed, and yielded as a numbered record.
 *
 * The diarization run and the transcriber are oracle functions; the audio
 * file itself is not modelled, only the clip each split file holds.
 */
module DiarizationStream {
  import opened Wrappers
  import opened SegmentMerger
  import ModelLoader
  import Seqs

  /** `int(x)` of a Python float: truncation toward zero. */
  function Trunc(x: real): (r: int)
    ensures 0.0 <= x ==> r as real <= x < r as real + 1.0
    ensures x < 0.0 ==> r as real - 1.0 < x <= r as real
  {
    if 0.0 <= x then x.Floor else -((-x).Floor)
  }

  /** `int(seconds * 1000)`: a time in seconds as whole milliseconds. */
  function ToMillis(seconds: real): int {
    Trunc(seconds * 1000.0)
  }

  /** Truncation keeps order: a turn that does not end before it starts gives a slice that does not either. */
  lemma TruncMonotone(x: real, y: real)
    requires x <= y
    ensures Trunc(x) <= Trunc(y)
  {
    if 0.0 <= x {
      assert x.Floor as real <= y;
    } else if y < 0.0 {
      assert (-y).Floor as real <= -x;
    }
  }

  /** Whole milliseconds survive the conversion unchanged. */
  lemma ToMillisExact(ms: int)
    ensures ToMillis(ms as real / 1000.0) == ms
  {
    assert ms as real / 1000.0 * 1000.0 == ms as real;
  }

  /** The character of a decimal digit. */
  function DigitChar(d: nat): (c: char)
    requires d < 10
    ensures '0' <= c <= '9'
  {
    ('0' as int + d) as char
  }

  /** `str(n)`: the decimal digits of `n`, without leading zeros. */
  function DecimalString(n: nat): (s: string)
    ensures |s| > 0 && forall k :: 0 <= k < |s| ==> '0' <= s[k] <= '9'
    ensures |s| > 1 ==> s[0] != '0'
  {
    if n < 10 then [DigitChar(n)] else DecimalString(n / 10) + [DigitChar(n % 10)]
  }

  /** The number a string of decimal digits denotes. */
  function ParseDecimal(s: string): nat
    requires forall k :: 0 <= k < |s| ==> '0' <= s[k] <= '9'
  {
    if s == [] then 0 else 10 * ParseDecimal(s[..|s| - 1]) + (s[|s| - 1] as int - '0' as int)
  }

  /** Reading back the decimal digits of `n` gives `n`. */
  lemma {:induction false} ParseDecimalString(n: nat)
    ensures ParseDecimal(DecimalString(n)) == n
  {
    if n >= 10 {
      var s := DecimalString(n);
      assert s[..|s| - 1] == DecimalString(n / 10);
      ParseDecimalString(n / 10);
    }
  }

  const SplitPrefix: string := "splits/segment_"
  const SplitSuffix: string := ".wav"

  /** `f"splits/segment_{n}.wav"`. */
  function SegmentPath(n: nat): string {
    SplitPrefix + DecimalString(n) + SplitSuffix
  }

  /** The segment number a split path names, if it is one. */
  function SegmentNumberOf(path: string): Option<nat> {
    if |path| <= |SplitPrefix| + |SplitSuffix| then None
    else
      var digits := path[|SplitPrefix|..|path| - |SplitSuffix|];
      if path[..|SplitPrefix|] == SplitPrefix && path[|path| - |SplitSuffix|..] == SplitSuffix
         && forall k :: 0 <= k < |digits| ==> '0' <= digits[k] <= '9'
      then Some(ParseDecimal(digits))
      else None
  }

  /** A split path gives back its segment number. */
  lemma SegmentPathRoundTrip(n: nat)
    ensures SegmentNumberOf(SegmentPath(n)) == Some(n)
  {
    var path := SegmentPath(n);
    var s := DecimalString(n);
    assert path[..|SplitPrefix|] == SplitPrefix;
    assert path[|path| - |SplitSuffix|..] == SplitSuffix;
    assert path[|SplitPrefix|..|path| - |SplitSuffix|] == s;
    ParseDecimalString(n);
  }

  /** Different segment numbers never share a split file. */
  lemma SegmentPathInjective(n: nat, m: nat)
    requires SegmentPath(n) == SegmentPath(m)
    ensures n == m
  {
    SegmentPathRoundTrip(n);
    SegmentPathRoundTrip(m);
  }

  /** What `audio[start_ms:end_ms].export(split_path)` writes: the file and the slice bounds. */
  datatype Clip = Clip(path: string, startMs: int, endMs: int)

  /** One yielded dictionary. */
  datatype SegmentResult = SegmentResult(
    segmentNumber: nat, speaker: Label, start: real, end: real, transcript: string, filePath: string)

  /** The transcriber, as a function of the clip in the file it reads; Err is a raised exception. */
  type Transcriber = Clip -> Result<string, string>

  /** The clip exported for the turn at index `i`. */
  function ClipOf(i: nat, t: Turn): Clip {
    Clip(SegmentPath(i + 1), ToMillis(t.start), ToMillis(t.end))
  }

  /** The record yielded for the turn at index `i`. */
  function RecordOf(i: nat, t: Turn, transcript: string): SegmentResult {
    SegmentResult(i + 1, t.speaker, t.start, t.end, transcript, SegmentPath(i + 1))
  }

  /**
   * What the numbering loop does with `turns`: a clip per turn, in order, up to
   * and including the first whose transcription raises; a record per
   * transcribed clip; and the exception that ended the generator, if any.
   */
  ghost predicate Emits(turns: seq<Turn>, transcribe: Transcriber,
                        records: seq<SegmentResult>, clips: seq<Clip>, failure: Option<string>)
  {
    && |records| <= |clips| <= |turns|
    && |clips| == |records| + (if failure.Some? then 1 else 0)
    && (forall k :: 0 <= k < |clips| ==> clips[k] == ClipOf(k, turns[k]))
    && (forall k :: 0 <= k < |records| ==>
          transcribe(clips[k]).Ok? && records[k] == RecordOf(k, turns[k], transcribe(clips[k]).value))
    && (failure.None? ==> |records| == |turns|)
    && (failure.Some? ==> transcribe(clips[|records|]) == Err(failure.value))
  }

  /** A transcribed turn extends the records and the clips by one each. */
  lemma EmitsTranscribed(turns: seq<Turn>, transcribe: Transcriber, i: nat,
                         records: seq<SegmentResult>, clips: seq<Clip>, transcript: string)
    requires i < |turns| && Emits(turns[..i], transcribe, records, clips, None)
    requires transcribe(ClipOf(i, turns[i])) == Ok(transcript)
    ensures Emits(turns[..i + 1], transcribe, records + [RecordOf(i, turns[i], transcript)],
                  clips + [ClipOf(i, turns[i])], None)
  {
    assert turns[..i + 1][..i] == turns[..i];
  }

  /** A turn whose transcription raises ends the generator after its clip. */
  lemma EmitsRaised(turns: seq<Turn>, transcribe: Transcriber, i: nat,
                    records: seq<SegmentResult>, clips: seq<Clip>, error: string)
    requires i < |turns| && Emits(turns[..i], transcribe, records, clips, None)
    requires transcribe(ClipOf(i, turns[i])) == Err(error)
    ensures Emits(turns, transcribe, records, clips + [ClipOf(i, turns[i])], Some(error))
  {
    assert forall k :: 0 <= k < i ==> turns[..i][k] == turns[k];
  }

  /** The `for i, (start, end, speaker) in enumerate(merged_segments)` loop. */
  method EmitRecords(turns: seq<Turn>, transcribe: Transcriber)
    returns (records: seq<SegmentResult>, clips: seq<Clip>, failure: Option<string>)
    ensures Emits(turns, transcribe, records, clips, failure)
  {
    records := [];
    clips := [];
    failure := None;
    var i := 0;
    while i < |turns|
      invariant 0 <= i <= |turns| && failure.None?
      invariant Emits(turns[..i], transcribe, records, clips, None)
    {
      var t := turns[i];
      var startMs := ToMillis(t.start);
      var endMs := ToMillis(t.end);
      var splitPath := SegmentPath(i + 1);
      var clip := Clip(splitPath, startMs, endMs);
      var transcript := transcribe(clip);
      if transcript.Err? {
        EmitsRaised(turns, transcribe, i, records, clips, transcript.error);
        clips := clips + [clip];
        failure := Some(transcript.error);
        break;
      }
      EmitsTranscribed(turns, transcribe, i, records, clips, transcript.value);
      clips := clips + [clip];
      records := records + [SegmentResult(i + 1, t.speaker, t.start, t.end, transcript.value, splitPath)];
      i := i + 1;
    }
    if failure.None? {
      assert turns[..|turns|] == turns;
    }
  }

  /** The outputs of the numbering loop are determined by the turns and the transcriber. */
  lemma EmitsDeterministic(turns: seq<Turn>, transcribe: Transcriber,
                           records: seq<SegmentResult>, clips: seq<Clip>, failure: Option<string>,
                           records': seq<SegmentResult>, clips': seq<Clip>, failure': Option<string>)
    requires Emits(turns, transcribe, records, clips, failure)
    requires Emits(turns, transcribe, records', clips', failure')
    ensures records == records' && clips == clips' && failure == failure'
  {
  }

  /**
   * Yielded records are numbered 1, 2, ... in turn order, carry their turn's
   * speaker and times, and name their own split file, which no other record
   * shares.
   */
  lemma EmittedRecordsNumbered(turns: seq<Turn>, transcribe: Transcriber,
                               records: seq<SegmentResult>, clips: seq<Clip>, failure: Option<string>)
    requires Emits(turns, transcribe, records, clips, failure)
    ensures forall k :: 0 <= k < |records| ==>
      && records[k].segmentNumber == k + 1
      && records[k].filePath == SegmentPath(k + 1) == clips[k].path
      && records[k].speaker == turns[k].speaker
      && records[k].start == turns[k].start && records[k].end == turns[k].end
    ensures forall j, k :: 0 <= j < k < |records| ==> records[j].filePath != records[k].filePath
  {
    forall j, k | 0 <= j < k < |records|
      ensures records[j].filePath != records[k].filePath
    {
      if records[j].filePath == records[k].filePath {
        SegmentPathInjective(j + 1, k + 1);
      }
    }
  }

  /** Each exported clip spans its turn in truncated milliseconds, never reversed for a well-formed turn. */
  lemma EmittedClipBounds(turns: seq<Turn>, transcribe: Transcriber,
                          records: seq<SegmentResult>, clips: seq<Clip>, failure: Option<string>)
    requires Emits(turns, transcribe, records, clips, failure)
    requires forall k :: 0 <= k < |turns| ==> turns[k].start <= turns[k].end
    ensures forall k :: 0 <= k < |clips| ==>
      && clips[k].startMs == Trunc(turns[k].start * 1000.0)
      && clips[k].endMs == Trunc(turns[k].end * 1000.0)
      && clips[k].startMs <= clips[k].endMs
  {
    forall k | 0 <= k < |clips|
      ensures clips[k].startMs <= clips[k].endMs
    {
      TruncMonotone(turns[k].start * 1000.0, turns[k].end * 1000.0);
    }
  }

  /**
   * Two speakers, 0-4 s and 4-10 s, and a transcriber that always answers
   * "hello": two records, numbered 1 and 2, in `splits/segment_1.wav` and
   * `splits/segment_2.wav`, and nothing else.
   */
  lemma TwoSpeakerScenario(a: Label, b: Label, transcribe: Transcriber)
    requires a != b
    requires forall c :: transcribe(c) == Ok("hello")
    ensures SegmentPath(1) == "splits/segment_1.wav" && SegmentPath(2) == "splits/segment_2.wav"
    ensures Emits(Coalesce([Frame(0.0, 4.0, a), Frame(4.0, 10.0, b)]), transcribe,
                  [SegmentResult(1, a, 0.0, 4.0, "hello", "splits/segment_1.wav"),
                   SegmentResult(2, b, 4.0, 10.0, "hello", "splits/segment_2.wav")],
                  [Clip("splits/segment_1.wav", 0, 4000), Clip("splits/segment_2.wav", 4000, 10000)],
                  None)
  {
    assert DecimalString(1) == "1" && DecimalString(2) == "2";
    var frames := [Frame(0.0, 4.0, a), Frame(4.0, 10.0, b)];
    assert frames[..1][..0] == [];
    assert Coalesce(frames[..1]) == [Turn(0.0, 4.0, a)];
    assert frames[..1] == frames[..|frames| - 1];
    assert Coalesce(frames) == [Turn(0.0, 4.0, a), Turn(4.0, 10.0, b)];
    assert ToMillis(4.0) == 4000 && ToMillis(10.0) == 10000 && ToMillis(0.0) == 0;
  }

  /**
   * Why the generator stopped early: the load raised, `get_pipeline()` gave
   * None so that calling it raised a TypeError, or a transcription raised.
   */
  datatype StreamError =
    | LoadFailed(error: ModelLoader.LoadError)
    | NotCallable
    | TranscriptionFailed(message: string)

  /** The pipeline `get_pipeline()` hands out given the cache's state before the call. */
  ghost function PipelineFor(cached: Option<ModelLoader.Pipeline>, o: ModelLoader.Oracles, allowed: seq<ModelLoader.PyObject>)
    : Result<Option<ModelLoader.Pipeline>, ModelLoader.LoadError>
  {
    if cached.Some? then Ok(cached)
    else ModelLoader.AttemptRun(o, allowed, ModelLoader.DefaultMaxRetries).result
  }

  /**
   * `stream_diarization(audio_path)`, run to completion: the pipeline from the
   * cache, its annotation's tracks merged into turns, and a record per turn
   * until a transcription raises.
   */
  method StreamDiarization(cache: ModelLoader.PipelineCache, audioPath: string,
                           diarize: (ModelLoader.Pipeline, string) -> seq<Frame>, transcribe: Transcriber)
    returns (records: seq<SegmentResult>, clips: seq<Clip>, failure: Option<StreamError>)
    modifies cache`pipeline, cache.rt`safeGlobals, cache.rt`registrations, cache.rt`loadCalls
    ensures var p := PipelineFor(old(cache.pipeline), cache.rt.oracles, old(cache.rt.safeGlobals));
      && (p.Err? ==> records == [] && clips == [] && failure == Some(LoadFailed(p.error)))
      && (p == Ok(None) ==> records == [] && clips == [] && failure == Some(NotCallable))
      && (p.Ok? && p.value.Some? ==>
            var turns := Coalesce(diarize(p.value.value, audioPath));
            && (failure.None? || failure.value.TranscriptionFailed?)
            && Emits(turns, transcribe, records, clips,
                     if failure.Some? then Some(failure.value.message) else None))
    ensures old(cache.pipeline).Some? ==> cache.pipeline == old(cache.pipeline) && unchanged(cache.rt)
    ensures old(cache.pipeline).None? ==>
      var run := ModelLoader.AttemptRun(cache.rt.oracles, old(cache.rt.safeGlobals), ModelLoader.DefaultMaxRetries);
      && cache.pipeline == (if run.result.Ok? then run.result.value else None)
      && cache.rt.safeGlobals == old(cache.rt.safeGlobals) + Seqs.Flatten(run.registered)
      && cache.rt.registrations == old(cache.rt.registrations) + run.registered
      && cache.rt.loadCalls == old(cache.rt.loadCalls) + run.loaderCalls
  {
    var pipeline := cache.GetPipeline();
    if pipeline.Err? {
      return [], [], Some(LoadFailed(pipeline.error));
    }
    if pipeline.value.None? {
      return [], [], Some(NotCallable);
    }
    var frames := diarize(pipeline.value.value, audioPath);
    var turns := MergeSegments(frames);
    var message;
    records, clips, message := EmitRecords(turns, transcribe);
    failure := if message.Some? then Some(TranscriptionFailed(message.value)) else None;
  }

  /**
   * Two streams in a row over the same cache: once the first has obtained a
   * pipeline, the cache holds it, the second stream diarizes with that same
   * pipeline, and the constructor is not called again.
   */
  method StreamDiarizationTwice(cache: ModelLoader.PipelineCache, firstPath: string, secondPath: string,
                                diarize: (ModelLoader.Pipeline, string) -> seq<Frame>, transcribe: Transcriber)
    returns (records: seq<SegmentResult>, clips: seq<Clip>, failure: Option<StreamError>)
    modifies cache`pipeline, cache.rt`safeGlobals, cache.rt`registrations, cache.rt`loadCalls
    ensures var p := PipelineFor(old(cache.pipeline), cache.rt.oracles, old(cache.rt.safeGlobals));
      p.Ok? && p.value.Some? ==>
        && cache.pipeline == p.value
        && cache.rt.loadCalls == old(cache.rt.loadCalls) +
             (if old(cache.pipeline).Some? then 0
              else ModelLoader.AttemptRun(cache.rt.oracles, old(cache.rt.safeGlobals), ModelLoader.DefaultMaxRetries).loaderCalls)
        && (failure.None? || failure.value.TranscriptionFailed?)
        && Emits(Coalesce(diarize(p.value.value, secondPath)), transcribe, records, clips,
                 if failure.Some? then Some(failure.value.message) else None)
  {
    var _, _, _ := StreamDiarization(cache, firstPath, diarize, transcribe);
    records, clips, failure := StreamDiarization(cache, secondPath, diarize, transcribe);
  }
}
