# Speech diarization back end: the loader, the merger and the record stream

This is a Dafny model of the core of a speech-diarization service. The service answers a request in three steps:

1. It obtains the pyannote speaker-diarization pipeline. A process-wide cache loads it lazily.
2. It runs the pipeline over an audio file. The speaker-labelled tracks that come back are merged into speaker turns.
3. It cuts each turn out of the audio as `splits/segment_<n>.wav`, transcribes it, and streams one numbered record per turn.

Loading the pipeline can fail, because torch refuses to unpickle classes that are not on its safe-globals allow-list. The loader reads the names of the refused classes out of the error message and imports them. It adds them to the allow-list and tries again, a bounded number of times.

The model has five modules:

- **`GlobalNames`** (`global_names.dfy`): the text processing of the loader.
  - The pattern `Unsupported global: GLOBAL ([\w\.]+) was not an allowed global`, applied left to right without overlaps as `re.findall` does.
  - `rsplit(".", 1)` of a dotted name.
- **`ModelLoader`** (`model_loader.dfy`): `_resolve_global`, `_allowlist_globals`, `_attempt_load_pipeline` and `get_pipeline`.
  - The foreign calls are oracle functions in `Oracles`: the pretrained-pipeline constructor, `importlib.import_module` and `getattr`.
  - torch's allow-list is the `safeGlobals` field of a `Runtime` object, which the loader extends in place. Ghost counters record the constructor calls and the `add_safe_globals` calls.
  - The retry loop is the method `RetryLoop`. It is proved equal to the specification function `LoadRun`, which describes a run of the loop; the loop's properties are lemmas about `LoadRun`.
  - `LoadRun` is written over a step function (`StepFn`). `Iterate`, `Performs` and `IteratePerforms` only tie that step function to one iteration, `Attempt`. They are proof plumbing: they keep the solver from unfolding an iteration where a proof does not name it.
  - `_allowlist_globals` (`AllowlistGlobals`) is modelled, but nothing in the source calls it. `_attempt_load_pipeline` resolves and registers the names inline, so `AllowlistGlobals` is not part of the load path.
  - `get_pipeline` is the method `PipelineCache.GetPipeline`, over a field that is `None` until a load returns a pipeline.
  - The constructor may return None instead of a pipeline (`Loaded(None)`). `_attempt_load_pipeline` hands that value on unchecked. `get_pipeline` stores it, which leaves the cache empty, so the next call loads again. `stream_diarization` then fails where it calls the pipeline.
- **`SegmentMerger`** (`segment_merger.dfy`): the first loop of `stream_diarization`.
  - The method `MergeSegments` is the loop itself. It is proved equal to `Coalesce`, the same merge written as a fold.
  - `Coalesce` is then related to an independent description: the split of the frames into maximal runs of one speaker.
- **`DiarizationStream`** (`diarization_stream.dfy`): the second loop of `stream_diarization` (`EmitRecords`) and the generator as a whole (`StreamDiarization`).
  - Seconds become truncated milliseconds, and the segment number becomes a file name.
  - The transcriber is an oracle function of the clip its file holds.
- **`Seqs`** and **`Wrappers`**: list concatenation, `Option` and `Result`.

`app/core/utils.py` repeats the loader of `app/core/Diarization.py` almost line for line; the only extra is a `print` of the resolved objects. The model has one loader, and the table cites both files where they agree.

## Model

| member | source | states |
|---|---|---|
| GlobalNames.MatchAtSound | app/core/Diarization.py:28 | A match at position `i` captures a non-empty run of word characters and dots. The literal prefix and suffix frame it right at `i`, and the search resumes just after the suffix. |
| GlobalNames.MatchAtReport | app/core/Diarization.py:28 | Wherever a well-formed report of a dotted name starts, the pattern matches there and captures exactly that name. The greedy group never eats into the suffix. |
| GlobalNames.FindAllFromSound | app/core/Diarization.py:83 | Every name `findall` returns from a position on is a dotted name the message reports between the prefix and the suffix. |
| GlobalNames.FindAllSound | app/core/Diarization.py:83 | Every extracted name is non-empty, contains only word characters and dots, and sits between the pattern's prefix and suffix in the message. |
| GlobalNames.NoPrefixInsideMatch | app/core/Diarization.py:28 | No position strictly inside a match starts the pattern's prefix, so a match never swallows the start of a later report. |
| GlobalNames.MatchEndsBeforeReport | app/core/Diarization.py:28 | A match that starts before a report ends at or before the report's start. |
| GlobalNames.FindAllFromComplete | app/core/Diarization.py:83 | A search that starts at or before a report of a dotted name finds that name. |
| GlobalNames.FindAllExact | app/core/Diarization.py:83 | For every dotted name, `findall` returns it exactly when the message reports it: both directions. |
| GlobalNames.FindAllReport | app/core/Diarization.py:83 | Extraction inverts reporting: a message that is exactly one report yields exactly the reported name. |
| GlobalNames.FindAllWithoutPrefix | app/core/utils.py:61 | A message that never contains the prefix yields no names. |
| GlobalNames.LastIndexOf | app/core/Diarization.py:36 | Gives None exactly when the character does not occur; otherwise its last occurrence, with none after it. |
| GlobalNames.SplitModuleAttr | app/core/Diarization.py:35-38 | Fails (the ValueError branch) exactly when the name has no dot. Otherwise the name is module path + "." + attribute, and the attribute holds no dot, so the split is at the last dot. |
| GlobalNames.SplitJoin | app/core/utils.py:29-32 | Splitting inverts joining: `modulePath + "." + attr`, with a dot-free `attr`, splits back into exactly those two parts. |
| ModelLoader.ResolveGlobal | app/core/Diarization.py:30-45 | A name without a dot resolves to None. |
| ModelLoader.ResolveGlobalAtLastDot | app/core/Diarization.py:35-45 | For `modulePath.attr`, the result is None if the import fails, and otherwise the attribute lookup of `attr` in that module. The `_resolve_global` of utils.py:24-39 is the same. |
| ModelLoader.NewNames | app/core/Diarization.py:85 | A name is new exactly when it is among the matches and not among the tried names. There are never more new names than matches. |
| ModelLoader.NewNamesCounts | app/core/Diarization.py:84-85 | Each untried name occurs among the new names as often as among the matches, so repeats are kept, and tried names do not occur at all. |
| ModelLoader.NewNamesAppend | app/core/Diarization.py:85 | The filter keeps the matches' order: filtering a concatenation is the concatenation of the filtered parts. |
| ModelLoader.ResolvedObjsEmpty | app/core/Diarization.py:91-100 | Nothing is resolved exactly when every new name fails to resolve. |
| ModelLoader.ResolveNewNames | app/core/Diarization.py:91-96 | Gives the resolved objects in name order. `tried_names` grows by exactly the names that resolved. |
| ModelLoader.AllowlistGlobals | app/core/Diarization.py:48-61 | Returns True exactly when some name resolves. The allow-list grows by exactly the resolved objects, and `add_safe_globals` is called once, and only then. |
| ModelLoader.Runtime.FromPretrained | app/core/Diarization.py:77 | One constructor call: its outcome under the allow-list in force, counted once. |
| ModelLoader.Runtime.AddSafeGlobals | app/core/Diarization.py:103 | The allow-list grows by exactly the given objects, and one registration is recorded. |
| ModelLoader.AttemptLoads | app/core/Diarization.py:76-81 | An iteration returns exactly when the constructor loads, and returns its pipeline. Otherwise the iteration holds the constructor's exception. |
| ModelLoader.AttemptStops | app/core/Diarization.py:83-104 | A failed iteration breaks out exactly when no untried extracted name resolves. When it continues, it registers a non-empty list: the objects of the new names. `tried_names` then strictly grows, by exactly the untried extracted names that resolve. |
| ModelLoader.FreshNameAttempt | app/core/Diarization.py:79-104 | A failure that reports one untried, resolvable name registers that name's object and continues, with the name added to `tried_names`. |
| ModelLoader.LoadRunBounds | app/core/Diarization.py:75-107 | The loop calls the constructor at most `max_retries` times, and at least once when `max_retries > 0`. It registers one non-empty list per continuing iteration; a success comes right after the last registration. `raise None` (TypeError) happens exactly when the loop never ran. |
| ModelLoader.LoadRunFailedBefore | app/core/Diarization.py:75-80 | Every constructor call but the last failed. Each saw the allow-list extended by all registrations made before it. |
| ModelLoader.LoadRunSucceeds | app/core/Diarization.py:76-78 | A successful run returns exactly what its last constructor call returned (a pipeline or None), that call being the first not to raise. That call saw every registration of the run. |
| ModelLoader.LoadRunReraises | app/core/Diarization.py:79-107 | A failed run that called the constructor at least once re-raises the exception of its last call. |
| ModelLoader.LoadRunTried | app/core/utils.py:63-78 | `tried_names` only grows, and only with names that resolved. A run that stops before using up its attempts stops on a failure whose message names no untried global that resolves. |
| ModelLoader.UnparsableFailureStops | app/core/utils.py:64-66 | A failure whose message names no refused global ends the call at once: one constructor call, nothing registered, and the exception re-raised. |
| ModelLoader.ExhaustsRetries | app/core/Diarization.py:75-107 | Suppose every failure reports a new, resolvable name. Then the loop calls the constructor exactly `remaining` times and fails: the bound, not an early stop, ends it. |
| ModelLoader.FreshNameEachAttemptUsesAllRetries | app/core/utils.py:53-85 | With the loader's own pattern and resolver: if each failure reports one new dotted name that resolves, a call makes exactly `max_retries` constructor calls and then raises. |
| ModelLoader.TryLoad | app/core/Diarization.py:76-101 | One iteration of the loop body, up to `add_safe_globals`, performs exactly the step `Attempt` describes and calls the constructor once. |
| ModelLoader.RetryLoop | app/core/Diarization.py:72-107 | The loop's result, final allow-list, registrations and constructor-call count are those of `LoadRun` from the allow-list in force on entry. |
| ModelLoader.AttemptLoadPipeline | app/core/Diarization.py:64-107 | `_attempt_load_pipeline(max_retries)` performs the run `AttemptRun` describes, from the allow-list in force on entry. The loader of utils.py:42-85 is the same. |
| ModelLoader.PipelineCache.GetPipeline | app/core/Diarization.py:110-126 | A cached pipeline is returned unchanged, without touching the runtime. Otherwise one `_attempt_load_pipeline()` with 8 retries runs. Its return value becomes the cache, so a None result leaves the cache empty, and after a raise the cache stays empty. The `get_pipeline` of utils.py:88-104 is the same. |
| ModelLoader.GetPipelineTwice | app/core/Diarization.py:115-124 | After a call that returned a pipeline, the next call returns the same pipeline, and the constructor is not called again. After a first load that returned None, the second call calls the constructor again. |
| SegmentMerger.MergeSegments | app/core/Diarization.py:142-159 | The merge loop, including the final flush of the open turn, yields exactly `Coalesce(frames)`. |
| SegmentMerger.CoalesceSize | app/core/Diarization.py:142-159 | There are never more turns than frames. There are no turns, and no error, exactly when there are no frames. |
| SegmentMerger.CoalesceSummarisesRuns | app/core/Diarization.py:147-159 | Take any split of the frames into maximal runs of one speaker. The merge yields one turn per run, in order, from the start of its first frame to the end of its last frame, with its speaker. So the split, and the merge, are unique. |
| SegmentMerger.CoalesceHasRuns | app/core/Diarization.py:147-159 | Every frame list has such a split, and the merge is the list of its turns. |
| SegmentMerger.CoalesceAlternates | app/core/Diarization.py:149-156 | Consecutive turns always have different speakers. |
| SegmentMerger.CoalesceOrdered | app/core/Diarization.py:147-159 | Frames in start order, each starting no later than it ends, give turns in start order, each starting no later than it ends. |
| SegmentMerger.ReturningSpeakerNotMerged | app/core/Diarization.py:149-156 | Frames are not re-sorted: A, A, B, A gives three turns, and A's two runs stay separate. |
| DiarizationStream.Trunc | app/core/Diarization.py:165-166 | `int()` truncates toward zero. The result is within 1 of its argument, on the side of zero. |
| DiarizationStream.TruncMonotone | app/core/Diarization.py:165-166 | Truncation keeps order, so a turn that does not end before it starts gives a slice that does not either. |
| DiarizationStream.ToMillisExact | app/core/Diarization.py:165 | A time that is a whole number of milliseconds converts to exactly that number. |
| DiarizationStream.DecimalString | app/core/Diarization.py:168 | `str(n)` is a non-empty string of decimal digits without a leading zero. |
| DiarizationStream.ParseDecimalString | app/core/Diarization.py:168 | Reading `str(n)` back gives `n`. |
| DiarizationStream.SegmentPathRoundTrip | app/core/Diarization.py:168 | The segment number can be read back from its split path. |
| DiarizationStream.SegmentPathInjective | app/core/Diarization.py:168 | Different segment numbers never share a split file. |
| DiarizationStream.EmitRecords | app/core/Diarization.py:164-180 | Exports one clip per turn, in order, up to and including the first clip whose transcription raises. Yields one record per transcribed clip. Ends without error exactly when every turn was yielded. |
| DiarizationStream.EmitsDeterministic | app/core/Diarization.py:164-180 | The records, clips and failure are determined by the turns and the transcriber. |
| DiarizationStream.EmittedRecordsNumbered | app/core/Diarization.py:173-180 | Records are numbered 1..k in turn order. Each carries its turn's speaker, start and end, and names its own split file. No two records share a file. |
| DiarizationStream.EmittedClipBounds | app/core/Diarization.py:164-169 | Each clip runs from `int(start * 1000)` to `int(end * 1000)` of its turn, and is never reversed for a well-formed turn. |
| DiarizationStream.TwoSpeakerScenario | app/core/Diarization.py:142-180 | Speaker A from 0 to 4 s and speaker B from 4 to 10 s, transcribed as "hello", give exactly two records: 1 in `splits/segment_1.wav` and 2 in `splits/segment_2.wav`. |
| DiarizationStream.StreamDiarization | app/core/Diarization.py:133-180 | If the load raises, nothing is yielded and the load error surfaces. If `get_pipeline()` gives None, nothing is yielded and calling it raises (`NotCallable`). Otherwise the annotation's frames are merged, and records are yielded as `EmitRecords` describes, until a transcription raises. The cache and the runtime end as `get_pipeline` leaves them: unchanged when a pipeline was cached, and otherwise updated by one load run whose return value becomes the cache. |
| DiarizationStream.StreamDiarizationTwice | app/core/Diarization.py:117-138 | Once the first stream has a pipeline, the cache holds it. The second stream diarizes with that same pipeline. Across both streams the constructor is called only by the first stream's load, if any. |

## Left out

- The lock and double-checked locking of `get_pipeline` (Diarization.py:120, utils.py:98) are not modelled; the cache is modelled sequentially.
- The pretrained-pipeline constructor, `importlib.import_module`, `getattr`, the diarization run `pipeline(audio_path)` and the transcriber are oracle functions. Their inside is not modelled.
  - The constructor's outcome depends only on the allow-list in force; the model token, network and disk are folded into the oracle.
  - `getattr(module, attr, None)` finding an attribute whose value is None is the same as not finding one, as the source's `is not None` test makes it.
- `from pyannote.audio import Pipeline` failing, `pipeline(audio_path)` raising, `AudioSegment.from_wav` and `os.makedirs` failing, and the export of a slice failing are not modelled. The diarization run is a total function of the pipeline and the path.
- The audio itself is not modelled. A split file is represented by its path and its millisecond bounds (`Clip`), which is all the transcriber sees. pydub's slicing rules (for example negative or out-of-range bounds) are not modelled.
- The `print(resolved)` at utils.py:80 and the token lookup from the environment (Diarization.py:18) are not modelled.
- Times are Dafny reals. `int(x * 1000)` is exact truncation toward zero of the real product; IEEE rounding of the float multiplication is not modelled.
- The `\w` class is restricted to ASCII letters, digits and underscore; Python's Unicode word characters are not modelled.
- Generator laziness is not modelled: a consumer that stops early, or interleaves streams sharing the `splits/` directory. `StreamDiarization` runs the generator to its end, or to the first transcription that raises.
- ModelLoader.ResolveGlobal: its own contract only covers the dot-less case. The dotted case is stated by `ResolveGlobalAtLastDot`.
- ModelLoader.PipelineCache.GetPipeline: says nothing about concurrent callers, because the lock is not modelled.
- When the pretrained-pipeline constructor returns None rather than a pipeline is the oracle's choice. The library's own conditions are not modelled.
- Only names that resolved enter `tried_names` (Diarization.py:96), so a name that did not resolve is offered again as new in a later attempt. The model does the same.
- `new_names` is not de-duplicated despite the comment at Diarization.py:84: a name the message reports twice is resolved twice, and its object is registered twice. The model does the same (`NewNamesCounts`).
- `raise last_exc` with `max_retries <= 0` raises `None`, which Python turns into a TypeError. The model has this as `NoExceptionToRaise`. The only caller passes 8, so it never happens there.
