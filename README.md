# MeetingTranscriber core in Dafny

MeetingTranscriber is an Android app. It records or imports a meeting, then runs four on-device models one after another:
- speaker diarization (WavLM);
- speech recognition (Whisper);
- translation (NLLB);
- summarization (Qwen).

This project models the parts of the app that decide *what* happens, and proves properties of them:

- **Speaker diarization** (`diarization.dfy`, module `SpeakerDiarization`):
  - windowing the audio into 3-second windows, with padding and truncation;
  - twenty rounds of k-means over the window embeddings, written as a method over arrays;
  - one timed segment per window;
  - the merge pass over consecutive segments.
- **Single-slot model manager** (`model_manager.dfy`, module `ModelLifecycle`):
  - classes for the manager, its inference sessions and its wake lock;
  - `loadModel`, `releaseCurrentModel`, the wake-lock lease, `getCurrentSession` and `releaseAll`;
  - the memory telemetry arithmetic.
- **Optimized pipeline** (`optimized_pipeline.dfy`, module `OptimizedPipeline`):
  - `processAudio` driving the manager stage by stage;
  - a trace of the progress reports and manager calls;
  - the load-time map, the peak-memory fold and the `finally` block.
- **Plain pipeline** (`processing_pipeline.dfy`, module `ProcessingPipeline`): stage composition and the progress schedule.
- **Audio file processing** (`audio.dfy`, module `AudioFileProcessor`):
  - extension dispatch;
  - the little-endian WAV header;
  - 16-bit PCM decoding;
  - the streaming loaders with their progress callbacks;
  - nearest-index resampling and mixing down to mono.
- **Fallback tokenizers** (`tokenizer.dfy`, module `TokenizerUtils`):
  - Java `String.hashCode` over UTF-16 code units with 32-bit wrap-around, masked to 16 bits;
  - the space-splitting encoders and the prefixed decoders;
  - the dispatch between native and fallback code.
- **Health check** (`health.dfy`, module `HealthChecker`): the error and warning rules of `checkSystemHealth`, with the device facts as inputs, and the text of `generateHealthReport`.

Supporting modules:
- `Wrappers`: `Result`, `Option`, the error kinds, and Kotlin's truncating division.
- `Numbers`: sums of reals.
- `Text`: splitting and joining on a separator, and decimal printing of integers.

Exceptions become `Err` values of `Result`. Each named error corresponds to the exception the Kotlin code throws on that path:
- `IndexOutOfBounds` for `embeddings[0]` on no windows;
- `NegativeArraySize` for a negative array length;
- `DivisionByZero` for an integer division by zero;
- `OutOfMemory` for an array of `Int.MAX_VALUE` floats;
- and so on.

Samples are `real`. Integers are unbounded, except where the source relies on a fixed width:
- the 16- and 32-bit header fields;
- the 32-bit hash;
- the `and 0xFFFF` mask.

Those are written out explicitly.

Points where the Kotlin code does something other than its comments or a first reading suggest; the model follows the code:
- **Diarization hop.** The comments at `SpeakerDiarization.kt:22-24` describe 3 s windows overlapping by 1.5 s, and the segment times at `SpeakerDiarization.kt:46` step by 1.5 s. But `16000 * 1.5.toInt()` is `16000 * 1`, a hop of 16000 samples (1 s). The model keeps the 16000 hop, so ten seconds of audio give nine windows; a 24000 hop would give six (`TenSecondsOfAudio`). Segment times still step by 1.5 s, as the code writes them.
- **Clustering with no windows.** `kMeansClustering` reads `embeddings[0]` (`SpeakerDiarization.kt:114`) with no guard for an empty list, so it throws on no windows. Hence `diarize` fails on audio shorter than 24000 samples.
- **Cleanup after a failed stage.** The `finally` block at `OptimizedProcessingPipeline.kt:130-134` is commented as releasing all resources, but it releases only the wake lock. A stage that fails after loading its model leaves that model resident (`OptimizedPipeline.ProcessAudio`).
- **Resampling and mixing.** Both loaders resample to 16 kHz and then mix to mono themselves (`AudioFileProcessor.kt:103-114` and `AudioFileProcessor.kt:176-182`).
- **Byte order.** The compressed-file loader reads the extractor's bytes with `ByteBuffer.getShort`, which is big-endian by default. WAV data is decoded little-endian.

## Model

| member | source | states |
|---|---|---|
| SpeakerDiarization.PadOrTruncate | app/src/main/java/com/meetingtranscriber/ml/SpeakerDiarization.kt:160-166 | the result has exactly the target length: the input's prefix, then zeros |
| SpeakerDiarization.KeptIffCounted | app/src/main/java/com/meetingtranscriber/ml/SpeakerDiarization.kt:27-33 | a window start is kept (at least 24000 samples remain) exactly when it is among the first `WindowCount` starts |
| SpeakerDiarization.FrameAudio | app/src/main/java/com/meetingtranscriber/ml/SpeakerDiarization.kt:22-33 | the windowing loop keeps `WindowCount` windows; window j starts at j·hop inside the audio, covers `[j·hop, min(j·hop+48000, size))`, holds at least 24000 samples and is padded or cut to exactly 48000 |
| SpeakerDiarization.TenSecondsOfAudio | app/src/test/java/com/meetingtranscriber/ModelUnitTest.kt:70-86 | ten seconds at 16 kHz give nine windows (more than one), starting every 16000 samples, the first a whole 48000-sample slice |
| SpeakerDiarization.SqDist | app/src/main/java/com/meetingtranscriber/ml/SpeakerDiarization.kt:156-158 | the squared Euclidean distance, non-negative (it ranks centroids as the `sqrt` distance does) |
| SpeakerDiarization.Nearest | app/src/main/java/com/meetingtranscriber/ml/SpeakerDiarization.kt:128-137 | the chosen centroid is at minimal distance and every lower-indexed centroid is strictly farther (ties go to the lowest index) |
| SpeakerDiarization.NearestCentroid | app/src/main/java/com/meetingtranscriber/ml/SpeakerDiarization.kt:127-140 | the assignment loop over the centroid array returns the nearest centroid with the lowest index |
| SpeakerDiarization.Members | app/src/main/java/com/meetingtranscriber/ml/SpeakerDiarization.kt:144 | exactly the indices labelled j, in increasing order |
| SpeakerDiarization.Average | app/src/main/java/com/meetingtranscriber/ml/SpeakerDiarization.kt:147 | the average times the count is the sum |
| SpeakerDiarization.Mean | app/src/main/java/com/meetingtranscriber/ml/SpeakerDiarization.kt:143-150 | each coordinate of the new centroid times the member count is the sum of the members' coordinates |
| SpeakerDiarization.MeanRow | app/src/main/java/com/meetingtranscriber/ml/SpeakerDiarization.kt:146-148 | the per-coordinate averaging loop yields exactly `Mean` of the cluster's points |
| SpeakerDiarization.Assign | app/src/main/java/com/meetingtranscriber/ml/SpeakerDiarization.kt:126-140 | every embedding gets the label of its nearest centroid |
| SpeakerDiarization.Update | app/src/main/java/com/meetingtranscriber/ml/SpeakerDiarization.kt:142-150 | a centroid without members keeps its value; any other becomes the coordinate-wise mean of its members |
| SpeakerDiarization.Rounds | app/src/main/java/com/meetingtranscriber/ml/SpeakerDiarization.kt:124-153 | after any number of rounds there is one label per embedding and the centroids keep their number and dimension |
| SpeakerDiarization.Round | app/src/main/java/com/meetingtranscriber/ml/SpeakerDiarization.kt:126-150 | one round relabels every point to its nearest centroid (`Assign`) and then recomputes the centroids from those labels (`Update`), keeping one label per point and the centroid count |
| SpeakerDiarization.InitCentroids | app/src/main/java/com/meetingtranscriber/ml/SpeakerDiarization.kt:116-122 | a new centroid array whose entry i is a copy of the embedding at the i-th random draw |
| SpeakerDiarization.RunRounds | app/src/main/java/com/meetingtranscriber/ml/SpeakerDiarization.kt:125-151 | the twenty in-place rounds leave labels and centroids equal to `Rounds` of the initial centroids after 20 rounds |
| SpeakerDiarization.RoundStep | app/src/main/java/com/meetingtranscriber/ml/SpeakerDiarization.kt:126-150 | one in-place round leaves labels and centroids equal to `Round` of the old centroids |
| SpeakerDiarization.RoundsLabelsInRange | app/src/main/java/com/meetingtranscriber/ml/SpeakerDiarization.kt:124-153 | after any number of rounds, zero included, every label lies in `[0, k)`, or is 0 when k = 0 (the untouched initial label) |
| SpeakerDiarization.InitialCentroids | app/src/main/java/com/meetingtranscriber/ml/SpeakerDiarization.kt:118-122 | centroid i is the embedding at the i-th drawn index |
| SpeakerDiarization.KMeansLabels | app/src/main/java/com/meetingtranscriber/ml/SpeakerDiarization.kt:112-154 | k-means gives one label per embedding, each in `[0, k)`, or 0 when k = 0 |
| SpeakerDiarization.AssignStep | app/src/main/java/com/meetingtranscriber/ml/SpeakerDiarization.kt:126-140 | the in-place assignment loop leaves `labels` equal to `Assign` of the current centroids |
| SpeakerDiarization.UpdateStep | app/src/main/java/com/meetingtranscriber/ml/SpeakerDiarization.kt:142-150 | the in-place update loop leaves `centroids` equal to `Update` of the old centroids |
| SpeakerDiarization.KMeansClustering | app/src/main/java/com/meetingtranscriber/ml/SpeakerDiarization.kt:112-154 | no embeddings throw (`embeddings[0]`); a negative k throws (negative array size); otherwise the 20-round loop returns `KMeansLabels`: n labels, each in `[0, k)`, or 0 when k = 0 |
| SpeakerDiarization.BuildSegments | app/src/main/java/com/meetingtranscriber/ml/SpeakerDiarization.kt:44-56 | one segment per label, in order: speaker label[i], start 1.5·i, end start + 3.0, confidence 0.85 |
| SpeakerDiarization.MergeConsecutiveSegments | app/src/main/java/com/meetingtranscriber/ml/SpeakerDiarization.kt:168-187 | the merge loop with its `current` segment computes `Merge` |
| SpeakerDiarization.MergeFromShape | app/src/main/java/com/meetingtranscriber/ml/SpeakerDiarization.kt:168-187 | a scan from a current segment gives between 1 and rest+1 segments, the first keeping the current speaker, start and confidence |
| SpeakerDiarization.MergeLength | app/src/main/java/com/meetingtranscriber/ml/SpeakerDiarization.kt:168-187 | empty input gives empty output; otherwise the output is non-empty, no longer than the input, and starts with the first input's speaker, start and confidence |
| SpeakerDiarization.MergeFromSettled | app/src/main/java/com/meetingtranscriber/ml/SpeakerDiarization.kt:168-187 | no two neighbours in a scan's output would join, and the last output ends where the last input ends |
| SpeakerDiarization.MergeIsSettled | app/src/main/java/com/meetingtranscriber/ml/SpeakerDiarization.kt:174-184 | no two adjacent output segments would merge again |
| SpeakerDiarization.MergeSettledIdentity | app/src/main/java/com/meetingtranscriber/ml/SpeakerDiarization.kt:168-187 | input where no neighbours join comes back unchanged |
| SpeakerDiarization.MergeFixedPointIff | app/src/main/java/com/meetingtranscriber/ml/SpeakerDiarization.kt:168-187 | merging leaves the input unchanged exactly when no neighbours join |
| SpeakerDiarization.MergeIdempotent | app/src/main/java/com/meetingtranscriber/ml/SpeakerDiarization.kt:174-184 | merging twice is merging once |
| SpeakerDiarization.MergeRuns | app/src/main/java/com/meetingtranscriber/ml/SpeakerDiarization.kt:168-187 | an independent run-by-run definition of the merge, non-empty on non-empty input |
| SpeakerDiarization.JoinsDependsOnSpeakerAndEnd | app/src/main/java/com/meetingtranscriber/ml/SpeakerDiarization.kt:176 | whether a segment absorbs the next depends only on its speaker and end time |
| SpeakerDiarization.MergeFromSnoc | app/src/main/java/com/meetingtranscriber/ml/SpeakerDiarization.kt:168-187 | appending an input either extends the last output's end time (when the last input joins it) or appends it |
| SpeakerDiarization.MergeIsMergeRuns | app/src/main/java/com/meetingtranscriber/ml/SpeakerDiarization.kt:168-187 | the scan equals the run-by-run definition: each output is a maximal run of joined inputs with the first member's speaker, start and confidence and the last member's end |
| SpeakerDiarization.MergeUnitTest | app/src/test/java/com/meetingtranscriber/IntegrationTest.kt:91-102 | the test's four segments merge to three, the first ending at 5.5 |
| SpeakerDiarization.BuiltSegmentsAreSettled | app/src/main/java/com/meetingtranscriber/ml/SpeakerDiarization.kt:44-59 | segments built by `diarize` are 1.5 s from joining, so merging returns them unchanged |
| SpeakerDiarization.Embeddings | app/src/main/java/com/meetingtranscriber/ml/SpeakerDiarization.kt:36-38 | one embedding per kept window, in window order, each the model applied to the padded window |
| SpeakerDiarization.EmbedWindows | app/src/main/java/com/meetingtranscriber/ml/SpeakerDiarization.kt:22-38 | the framing loop plus the map yield exactly `Embeddings` of the audio, all of the model's output width |
| SpeakerDiarization.KeepWindow | app/src/main/java/com/meetingtranscriber/ml/SpeakerDiarization.kt:27-33 | appending the next window when it has at least 24000 samples keeps the collected list equal to the kept windows so far |
| SpeakerDiarization.CountedBelowSteps | app/src/main/java/com/meetingtranscriber/ml/SpeakerDiarization.kt:27 | when steps·24000 reaches the audio size, at most `steps` windows start inside the audio |
| SpeakerDiarization.SegmentsOf | app/src/main/java/com/meetingtranscriber/ml/SpeakerDiarization.kt:44-56 | one segment per label; segment i carries label i and the times of window i |
| SpeakerDiarization.Diarize | app/src/main/java/com/meetingtranscriber/ml/SpeakerDiarization.kt:19-60 | audio shorter than 24000 samples fails at `embeddings[0]`; a negative speaker count fails; otherwise one segment per window, segment i carrying the k-means label of window i |
| ModelLifecycle.ModelPath | app/src/main/java/com/meetingtranscriber/ml/OptimizedModelManager.kt:49-55 | the model file lives under `filesDir/models/` |
| ModelLifecycle.ModelPathsDistinct | app/src/main/java/com/meetingtranscriber/ml/OptimizedModelManager.kt:50-55 | distinct model types map to distinct file names and paths |
| ModelLifecycle.Session.constructor | app/src/main/java/com/meetingtranscriber/ml/OptimizedModelManager.kt:61 | a new session is open, for the given model and path |
| ModelLifecycle.Session.Close | app/src/main/java/com/meetingtranscriber/ml/OptimizedModelManager.kt:71 | a closed session is no longer open |
| ModelLifecycle.WakeLock.constructor | app/src/main/java/com/meetingtranscriber/ml/OptimizedModelManager.kt:79-82 | a new lease is not held yet |
| ModelLifecycle.WakeLock.Acquire | app/src/main/java/com/meetingtranscriber/ml/OptimizedModelManager.kt:83 | the lease is held with the given timeout |
| ModelLifecycle.WakeLock.Release | app/src/main/java/com/meetingtranscriber/ml/OptimizedModelManager.kt:88 | the lease is no longer held |
| ModelLifecycle.OptimizedModelManager.constructor | app/src/main/java/com/meetingtranscriber/ml/OptimizedModelManager.kt:14-19 | a new manager has no environment, no session, no type and no lease |
| ModelLifecycle.OptimizedModelManager.InitializeEnvironment | app/src/main/java/com/meetingtranscriber/ml/OptimizedModelManager.kt:25-40 | the runtime environment is open |
| ModelLifecycle.OptimizedModelManager.ReleaseCurrentModel | app/src/main/java/com/meetingtranscriber/ml/OptimizedModelManager.kt:70-75 | the resident session, if any, is closed; afterwards there is no session, no type and no open session at all; a no-op when nothing is loaded; the lease is untouched |
| ModelLifecycle.OptimizedModelManager.AcquireWakeLock | app/src/main/java/com/meetingtranscriber/ml/OptimizedModelManager.kt:77-85 | a lease is held afterwards; an existing lease is kept; a new one is created only when none is held, with the 600000 ms cap |
| ModelLifecycle.OptimizedModelManager.ReleaseWakeLock | app/src/main/java/com/meetingtranscriber/ml/OptimizedModelManager.kt:87-90 | no lease is held afterwards, also when none was; sessions are untouched |
| ModelLifecycle.OptimizedModelManager.LoadModel | app/src/main/java/com/meetingtranscriber/ml/OptimizedModelManager.kt:42-68 | the old session is closed first and a lease is held: a held lease is kept with its timeout, otherwise a fresh lease capped at 600000 ms is taken; success exactly when the environment is open and the runtime accepts the file; then the new session is the only open one and the type is t; on failure there is no session and no type and the lease stays held |
| ModelLifecycle.OptimizedModelManager.OpenSession | app/src/main/java/com/meetingtranscriber/ml/OptimizedModelManager.kt:61-62 | with no current session, a fresh session for the model's path becomes the only open session and the current one, with its model type recorded |
| ModelLifecycle.OptimizedModelManager.GetCurrentSession | app/src/main/java/com/meetingtranscriber/ml/OptimizedModelManager.kt:92 | the resident session, or `NoModelLoaded` when there is none |
| ModelLifecycle.OptimizedModelManager.ReleaseAll | app/src/main/java/com/meetingtranscriber/ml/OptimizedModelManager.kt:94-98 | no session, no type, no held lease; the environment is closed (or the uninitialized-property error when it never was) |
| ModelLifecycle.LoadTwiceReleaseTwice | app/src/main/java/com/meetingtranscriber/ml/OptimizedModelManager.kt:42-90 | two loads in a row close the first session and keep the first lease; releasing twice leaves no session, no type and the lease still held |
| ModelLifecycle.MemoryUsage | app/src/main/java/com/meetingtranscriber/ml/OptimizedModelManager.kt:101-114 | used is total minus free, divided by 2^20 with Kotlin's truncating `/`, and lies in the MiB bracket of total − free when `0 <= free <= total`; the total, free and max figures are the byte counts rounded down to whole MiB |
| ModelLifecycle.MemoryFiguresBounded | app/src/main/java/com/meetingtranscriber/ml/OptimizedModelManager.kt:101-121 | with `0 <= free <= total`, used and free MB are non-negative and add up to at most total MB |
| OptimizedPipeline.LoadingProgress | app/src/main/java/com/meetingtranscriber/pipeline/OptimizedProcessingPipeline.kt:49-52 | one report per loader fraction, each `10 + ⌊10·p⌋` over the exact product (see Left out), in `[10, 20]` for p in `[0, 1]` |
| OptimizedPipeline.LoadTimes | app/src/main/java/com/meetingtranscriber/pipeline/OptimizedProcessingPipeline.kt:59-103 | the load-time keys are exactly Whisper, NLLB and Qwen, plus WavLM iff diarization is enabled |
| OptimizedPipeline.RunStage | app/src/main/java/com/meetingtranscriber/pipeline/OptimizedProcessingPipeline.kt:74-84 | one stage reports its percentage, loads, runs and releases; it succeeds exactly when the environment is open, the runtime accepts the model and the stage runs; on success its events are the stage schedule, no session is left, its load time is recorded and the peak is raised to the memory in use; a failing stage leaves its session open |
| OptimizedPipeline.PeakMemory | app/src/main/java/com/meetingtranscriber/pipeline/OptimizedProcessingPipeline.kt:42-110 | the peak is non-negative, at least every used-MB reading taken after a release, and equal to 0 or to one of them |
| OptimizedPipeline.LoadRunRelease | app/src/main/java/com/meetingtranscriber/pipeline/OptimizedProcessingPipeline.kt:57-66 | one stage: load the model, run, release; success exactly when the environment is open, the model is accepted and the stage produces a value, and then the trace is `Load` then `ReleaseModel` and the used-MB reading is taken after the release; a load failure names the environment error or the model path; a failed stage leaves its model loaded |
| OptimizedPipeline.ExpectedOutputs | app/src/main/java/com/meetingtranscriber/pipeline/OptimizedProcessingPipeline.kt:55-106 | the segments are diarization's (none when disabled), translation is made from the transcription and the summary from the translation |
| OptimizedPipeline.TextOutputs | app/src/main/java/com/meetingtranscriber/pipeline/OptimizedProcessingPipeline.kt:80-106 | transcription, translation and summary, each produced from the previous one |
| OptimizedPipeline.TextStages | app/src/main/java/com/meetingtranscriber/pipeline/OptimizedProcessingPipeline.kt:73-110 | Whisper, NLLB and Qwen in turn; the trace is a prefix of their schedule; success exactly when all three load and run, and then the outputs are wired in order |
| OptimizedPipeline.ExpectedResult | app/src/main/java/com/meetingtranscriber/pipeline/OptimizedProcessingPipeline.kt:114-128 | the result carries the stages' outputs unchanged, the audio length, the peak memory and the load-time map |
| OptimizedPipeline.RunStages | app/src/main/java/com/meetingtranscriber/pipeline/OptimizedProcessingPipeline.kt:54-110 | the stage part: the trace is a prefix of the stage schedule; success exactly when every stage succeeds |
| OptimizedPipeline.TryProcess | app/src/main/java/com/meetingtranscriber/pipeline/OptimizedProcessingPipeline.kt:44-128 | the `try` block: the trace is a prefix of the success trace; success exactly when the probe, the loader and every stage succeed, and then the result is `ExpectedResult` |
| OptimizedPipeline.ProcessAudio | app/src/main/java/com/meetingtranscriber/pipeline/OptimizedProcessingPipeline.kt:34-135 | the `finally` block releases the lease on success and failure (last event); success exactly when every step succeeds, with the full trace and no resident model; a failed stage leaves its model resident |
| OptimizedPipeline.ProgressValuesAppend | app/src/main/java/com/meetingtranscriber/pipeline/OptimizedProcessingPipeline.kt:45-112 | the progress values of a concatenated trace are the concatenation |
| OptimizedPipeline.LoadsOfAppend | app/src/main/java/com/meetingtranscriber/pipeline/OptimizedProcessingPipeline.kt:55-110 | the loads of a concatenated trace are the concatenation |
| OptimizedPipeline.LoadingProgressValues | app/src/main/java/com/meetingtranscriber/pipeline/OptimizedProcessingPipeline.kt:49-52 | the loader's reports are progress values only, with no loads |
| OptimizedPipeline.StageValues | app/src/main/java/com/meetingtranscriber/pipeline/OptimizedProcessingPipeline.kt:56-58 | one stage reports its percentage and loads its model |
| OptimizedPipeline.StagesValues | app/src/main/java/com/meetingtranscriber/pipeline/OptimizedProcessingPipeline.kt:55-110 | the stages report 25 (only when enabled), 40, 60, 80 and load the models in order |
| OptimizedPipeline.ScheduleProgress | app/src/main/java/com/meetingtranscriber/pipeline/OptimizedProcessingPipeline.kt:45-112 | a successful run reports 5, 10, the loader's values, 25 only with diarization, then 40, 60, 80 and 100 |
| OptimizedPipeline.ScheduleLoads | app/src/main/java/com/meetingtranscriber/pipeline/OptimizedProcessingPipeline.kt:55-110 | a successful run loads WavLM (only with diarization), then Whisper, NLLB and Qwen |
| OptimizedPipeline.LoadsReleased | app/src/main/java/com/meetingtranscriber/pipeline/OptimizedProcessingPipeline.kt:55-110 | in a successful run's trace every load is followed at once by a release |
| OptimizedPipeline.StagesLoadsReleased | app/src/main/java/com/meetingtranscriber/pipeline/OptimizedProcessingPipeline.kt:55-110 | within the stage events every load is followed at once by a release |
| OptimizedPipeline.NonDecreasingJoin | app/src/main/java/com/meetingtranscriber/pipeline/OptimizedProcessingPipeline.kt:45-112 | two non-decreasing sequences, the first bounded by the second, join to a non-decreasing one |
| OptimizedPipeline.LoadingProgressNonDecreasing | app/src/main/java/com/meetingtranscriber/pipeline/OptimizedProcessingPipeline.kt:49-52 | for non-decreasing fractions in `[0, 1]` the loader's reports are non-decreasing within `[10, 20]` |
| OptimizedPipeline.ScheduledPercentsNonDecreasing | app/src/main/java/com/meetingtranscriber/pipeline/OptimizedProcessingPipeline.kt:45-112 | the full schedule is non-decreasing |
| OptimizedPipeline.ProgressNonDecreasing | app/src/main/java/com/meetingtranscriber/pipeline/OptimizedProcessingPipeline.kt:45-112 | for non-decreasing fractions in `[0, 1]` the reported progress never decreases, starts at 5 and ends at 100 |
| OptimizedPipeline.LoadOrder | app/src/main/java/com/meetingtranscriber/pipeline/OptimizedProcessingPipeline.kt:55-110 | models load in the order [WavLM if enabled], Whisper, NLLB, Qwen, each load followed at once by a release |
| ProcessingPipeline.LoadAudioFile | app/src/main/java/com/meetingtranscriber/pipeline/ProcessingPipeline.kt:52-56 | 28 800 000 zero samples (thirty minutes at 16 kHz) |
| ProcessingPipeline.ProcessAudio | app/src/main/java/com/meetingtranscriber/pipeline/ProcessingPipeline.kt:22-50 | the progress reported is a prefix of 5, 15, 35, 55, 75, 100 with at least two values; success exactly when all six are reported |
| ProcessingPipeline.ProcessAudioWiring | app/src/main/java/com/meetingtranscriber/pipeline/ProcessingPipeline.kt:34-49 | success exactly when every stage succeeds; then the transcription is the recognizer's text, the translation is made from it, the summary from the translation, and the segments are `diarize(audio, 2)` or none |
| ProcessingPipeline.ProgressIncreasing | app/src/main/java/com/meetingtranscriber/pipeline/ProcessingPipeline.kt:23-42 | progress starts 5, 15 (15 also when diarization is off) and rises strictly |
| ProcessingPipeline.DisabledDiarizationUnused | app/src/main/java/com/meetingtranscriber/pipeline/ProcessingPipeline.kt:27-31 | with diarization off, the diarization stage is never consulted and the segments are empty |
| ProcessingPipeline.DiarizationFailure | app/src/main/java/com/meetingtranscriber/pipeline/ProcessingPipeline.kt:26-28 | a failing diarization stops the run after reporting 5 and 15 |
| AudioFileProcessor.Extension | app/src/main/java/com/meetingtranscriber/audio/AudioFileProcessor.kt:52 | the text after the last dot, or empty when there is none |
| AudioFileProcessor.LowerChar | app/src/main/java/com/meetingtranscriber/audio/AudioFileProcessor.kt:52 | ASCII upper-case letters map to lower case, everything else is kept |
| AudioFileProcessor.Lower | app/src/main/java/com/meetingtranscriber/audio/AudioFileProcessor.kt:52 | lower-cases each character in place |
| AudioFileProcessor.Dispatch | app/src/main/java/com/meetingtranscriber/audio/AudioFileProcessor.kt:52-56 | wav goes to the WAV loader; mp3, m4a and aac go to the compressed loader; anything else fails with the extension |
| AudioFileProcessor.LowerIdempotent | app/src/main/java/com/meetingtranscriber/audio/AudioFileProcessor.kt:52 | lower-casing twice is lower-casing once |
| AudioFileProcessor.DispatchIgnoresCase | app/src/main/java/com/meetingtranscriber/audio/AudioFileProcessor.kt:52-56 | extensions equal up to case dispatch alike |
| AudioFileProcessor.DispatchExamples | app/src/main/java/com/meetingtranscriber/audio/AudioFileProcessor.kt:52-56 | "WAV" is WAV, "Mp3" is compressed, "flac" is rejected |
| AudioFileProcessor.Signed16 | app/src/main/java/com/meetingtranscriber/audio/AudioFileProcessor.kt:70-72 | a signed 16-bit value congruent to `lo + 256·hi` |
| AudioFileProcessor.Signed32 | app/src/main/java/com/meetingtranscriber/audio/AudioFileProcessor.kt:71 | a signed 32-bit value |
| AudioFileProcessor.HeaderBlock | app/src/main/java/com/meetingtranscriber/audio/AudioFileProcessor.kt:66-67 | the 44-byte header buffer: the bytes read, then zeros |
| AudioFileProcessor.ParseHeader | app/src/main/java/com/meetingtranscriber/audio/AudioFileProcessor.kt:66-72 | channels and bits per sample are 16-bit, the sample rate 32-bit |
| AudioFileProcessor.Bytes16 | app/src/main/java/com/meetingtranscriber/audio/AudioFileProcessor.kt:70-72 | a 16-bit field takes two bytes |
| AudioFileProcessor.Bytes32 | app/src/main/java/com/meetingtranscriber/audio/AudioFileProcessor.kt:71 | a 32-bit field takes four bytes |
| AudioFileProcessor.EncodeHeader | app/src/main/java/com/meetingtranscriber/audio/AudioFileProcessor.kt:66-72 | a header block of 44 bytes |
| AudioFileProcessor.Signed16OfBytes | app/src/main/java/com/meetingtranscriber/audio/AudioFileProcessor.kt:70-72 | little-endian decoding inverts encoding of a 16-bit field |
| AudioFileProcessor.Signed32OfBytes | app/src/main/java/com/meetingtranscriber/audio/AudioFileProcessor.kt:71 | little-endian decoding inverts encoding of a 32-bit field |
| AudioFileProcessor.ParseEncodeHeader | app/src/main/java/com/meetingtranscriber/audio/AudioFileProcessor.kt:70-72 | channels at 22-23, sample rate at 24-27 and bits at 34-35 round-trip through the header |
| AudioFileProcessor.SamplesCount | app/src/main/java/com/meetingtranscriber/audio/AudioFileProcessor.kt:75-76 | the sample count throws a division by zero exactly when bits/8 is 0 or there are no channels |
| AudioFileProcessor.SampleValue | app/src/main/java/com/meetingtranscriber/audio/AudioFileProcessor.kt:94-96 | every decoded sample lies in `[-1, 1)` |
| AudioFileProcessor.ChunkSamples | app/src/main/java/com/meetingtranscriber/audio/AudioFileProcessor.kt:92-99 | one sample per complete byte pair |
| AudioFileProcessor.DecodeChunk | app/src/main/java/com/meetingtranscriber/audio/AudioFileProcessor.kt:92-99 | the byte-pair loop computes `ChunkSamples` |
| AudioFileProcessor.OddByteDropped | app/src/main/java/com/meetingtranscriber/audio/AudioFileProcessor.kt:93 | a trailing odd byte adds no sample |
| AudioFileProcessor.EncodePcm | app/src/main/java/com/meetingtranscriber/audio/AudioFileProcessor.kt:92-99 | two bytes per 16-bit sample |
| AudioFileProcessor.Scaled | app/src/main/java/com/meetingtranscriber/audio/AudioFileProcessor.kt:96 | one scaled value per sample |
| AudioFileProcessor.EncodePcmPairs | app/src/main/java/com/meetingtranscriber/audio/AudioFileProcessor.kt:94-96 | pair k decodes to sample k over 32768 |
| AudioFileProcessor.DecodeEncodePcm | app/src/main/java/com/meetingtranscriber/audio/AudioFileProcessor.kt:92-99 | decoding encoded 16-bit PCM gives the samples over 32768, in order |
| AudioFileProcessor.SourceIndexInRange | app/src/main/java/com/meetingtranscriber/audio/AudioFileProcessor.kt:195-200 | for positive rates every source index `⌊i·from/to⌋` is inside the input, so the zero branch is never taken |
| AudioFileProcessor.ResampledShape | app/src/main/java/com/meetingtranscriber/audio/AudioFileProcessor.kt:194-201 | for distinct positive rates the resampling succeeds exactly when `⌊size·to/from⌋` is below `Int.MAX_VALUE`, and otherwise fails with out-of-memory; on success the output has that many samples and sample i is input sample `⌊i·from/to⌋` |
| AudioFileProcessor.ResampledSameRate | app/src/main/java/com/meetingtranscriber/audio/AudioFileProcessor.kt:192 | equal rates return the input unchanged |
| AudioFileProcessor.ResampleSaturates | app/src/main/java/com/meetingtranscriber/audio/AudioFileProcessor.kt:195-196 | 134218 samples at 1 Hz need 2147488000 samples at 16 kHz: the length saturates and the allocation fails with out-of-memory |
| AudioFileProcessor.Resample | app/src/main/java/com/meetingtranscriber/audio/AudioFileProcessor.kt:191-204 | the resampling loop computes `Resampled`: equal rates return the input; a zero source rate gives NaN (empty) for no audio, else a length saturated to `Int.MAX_VALUE` (out of memory) or `Int.MIN_VALUE` (negative size); opposite signs give a negative size unless it truncates to 0; a length of `Int.MAX_VALUE` or more saturates and fails with out-of-memory |
| AudioFileProcessor.Frame | app/src/main/java/com/meetingtranscriber/audio/AudioFileProcessor.kt:212-214 | a frame holds one sample per channel |
| AudioFileProcessor.FrameInBounds | app/src/main/java/com/meetingtranscriber/audio/AudioFileProcessor.kt:209-213 | every frame of the output lies inside the input |
| AudioFileProcessor.Interleave | app/src/main/java/com/meetingtranscriber/audio/AudioFileProcessor.kt:206-219 | c interleaved copies of a signal are c times as long |
| AudioFileProcessor.InterleaveIndex | app/src/main/java/com/meetingtranscriber/audio/AudioFileProcessor.kt:213 | interleaved index j comes from sample j/c |
| AudioFileProcessor.InterleavedFrame | app/src/main/java/com/meetingtranscriber/audio/AudioFileProcessor.kt:213 | frame i of an interleaved signal is c copies of sample i |
| AudioFileProcessor.MeanOfCopies | app/src/main/java/com/meetingtranscriber/audio/AudioFileProcessor.kt:211-215 | the mean of c copies of y is y |
| AudioFileProcessor.MixedInterleavedAt | app/src/main/java/com/meetingtranscriber/audio/AudioFileProcessor.kt:206-219 | mixing c identical channels gives back sample i |
| AudioFileProcessor.MixedInterleaved | app/src/main/java/com/meetingtranscriber/audio/AudioFileProcessor.kt:206-219 | mixing c identical channels gives back the signal |
| AudioFileProcessor.ConvertToMono | app/src/main/java/com/meetingtranscriber/audio/AudioFileProcessor.kt:206-219 | one channel returns the input; otherwise `size / c` outputs, output i the mean of `input[i·c .. i·c+c)`; zero or negative channel counts throw as Kotlin does |
| AudioFileProcessor.TotalBytes | app/src/main/java/com/meetingtranscriber/audio/AudioFileProcessor.kt:88 | no reads, no bytes |
| AudioFileProcessor.TotalBytesPrefix | app/src/main/java/com/meetingtranscriber/audio/AudioFileProcessor.kt:88 | the bytes read so far grow strictly with each non-empty read |
| AudioFileProcessor.Progress | app/src/main/java/com/meetingtranscriber/audio/AudioFileProcessor.kt:89 | one progress value per read |
| AudioFileProcessor.RatioBounds | app/src/main/java/com/meetingtranscriber/audio/AudioFileProcessor.kt:89 | fractions of the same positive total keep their order and lie in `(0, 1]` |
| AudioFileProcessor.SelfRatio | app/src/main/java/com/meetingtranscriber/audio/AudioFileProcessor.kt:89 | a non-zero total over itself is 1 |
| AudioFileProcessor.BytesAfterRead | app/src/main/java/com/meetingtranscriber/audio/AudioFileProcessor.kt:88 | after a read the count is positive and at most the total |
| AudioFileProcessor.ProgressInRange | app/src/main/java/com/meetingtranscriber/audio/AudioFileProcessor.kt:89-160 | every progress value lies in `(0, 1]` |
| AudioFileProcessor.ProgressIncreasing | app/src/main/java/com/meetingtranscriber/audio/AudioFileProcessor.kt:89-160 | progress, taken as the exact quotient of bytes read over the total (see Left out), rises strictly from read to read |
| AudioFileProcessor.ProgressEndsAtOne | app/src/main/java/com/meetingtranscriber/audio/AudioFileProcessor.kt:89 | when the reads make up the total, the last progress value is 1 |
| AudioFileProcessor.ProgressEntry | app/src/main/java/com/meetingtranscriber/audio/AudioFileProcessor.kt:88-89 | progress value i is the bytes of the first i+1 reads over the total |
| AudioFileProcessor.StreamSamplesPrefix | app/src/main/java/com/meetingtranscriber/audio/AudioFileProcessor.kt:84-100 | each read appends its chunk's samples |
| AudioFileProcessor.ToTargetIdentity | app/src/main/java/com/meetingtranscriber/audio/AudioFileProcessor.kt:103-114 | 16 kHz mono passes through unchanged |
| AudioFileProcessor.ToTargetInterleaved | app/src/main/java/com/meetingtranscriber/audio/AudioFileProcessor.kt:103-114 | 16 kHz audio of c identical channels comes back as the signal |
| AudioFileProcessor.ToTargetResamples | app/src/main/java/com/meetingtranscriber/audio/AudioFileProcessor.kt:103-179 | mono audio at another positive rate is resampled to 16 kHz by nearest index, and succeeds exactly when the new length stays below `Int.MAX_VALUE` |
| AudioFileProcessor.ConvertToTarget | app/src/main/java/com/meetingtranscriber/audio/AudioFileProcessor.kt:102-182 | resample first when the rate is not 16 kHz, then mix down when there is more than one channel |
| AudioFileProcessor.WavLoaded | app/src/main/java/com/meetingtranscriber/audio/AudioFileProcessor.kt:59-116 | a header with bits/8 or channels zero fails before any read and reports no progress; otherwise one progress value per read |
| AudioFileProcessor.LoadWav | app/src/main/java/com/meetingtranscriber/audio/AudioFileProcessor.kt:59-116 | the WAV loader's read loop computes `WavLoaded` |
| AudioFileProcessor.ReadChunks | app/src/main/java/com/meetingtranscriber/audio/AudioFileProcessor.kt:84-100 | the read loop (shared with the compressed loader's loop at lines 155-172) yields the samples of every read in order and one progress value per read, the running byte count over the expected total |
| AudioFileProcessor.SingleRead | app/src/main/java/com/meetingtranscriber/audio/AudioFileProcessor.kt:84-100 | a file read in one chunk totals that chunk's bytes, decodes to that chunk's samples and reports progress [1.0] |
| AudioFileProcessor.OneReadWav | app/src/main/java/com/meetingtranscriber/audio/AudioFileProcessor.kt:59-116 | a valid 44-byte header followed by one chunk of at most the buffer size is well formed and loads to that chunk's samples converted to 16 kHz mono, with progress [1.0] |
| AudioFileProcessor.StreamSamplesConcat | app/src/main/java/com/meetingtranscriber/audio/AudioFileProcessor.kt:84-100 | when every read has an even length, decoding read by read equals decoding the concatenated bytes at once |
| AudioFileProcessor.WavProgress | app/src/main/java/com/meetingtranscriber/audio/AudioFileProcessor.kt:89 | the WAV loader's progress lies within `(0, 1]`, ends at 1 and, as an exact quotient (see Left out), rises strictly |
| AudioFileProcessor.WavRoundTrip | app/src/main/java/com/meetingtranscriber/audio/AudioFileProcessor.kt:59-116 | a 16 kHz mono 16-bit WAV file, however the stream splits its data into reads of even length of at most 8 KiB, loads back to its samples over 32768, with one progress value per read ending at 1 and, as an exact quotient (see Left out), rising strictly |
| AudioFileProcessor.FirstAudioTrack | app/src/main/java/com/meetingtranscriber/audio/AudioFileProcessor.kt:128-136 | the first track whose MIME type starts with "audio/", or none when no track does |
| AudioFileProcessor.FindAudioTrack | app/src/main/java/com/meetingtranscriber/audio/AudioFileProcessor.kt:128-136 | the track loop finds that index, or -1 |
| AudioFileProcessor.CompressedLoaded | app/src/main/java/com/meetingtranscriber/audio/AudioFileProcessor.kt:138-140 | no audio track is exactly the failure "No audio track" |
| AudioFileProcessor.LoadCompressed | app/src/main/java/com/meetingtranscriber/audio/AudioFileProcessor.kt:118-189 | the compressed loader's read loop computes `CompressedLoaded`, decoding big-endian |
| AudioFileProcessor.CompressedProgress | app/src/main/java/com/meetingtranscriber/audio/AudioFileProcessor.kt:160 | the compressed loader's progress lies within `(0, 1]` and, as an exact quotient (see Left out), rises strictly |
| AudioFileProcessor.AudioLoaded | app/src/main/java/com/meetingtranscriber/audio/AudioFileProcessor.kt:47-57 | an unsupported extension fails with that extension and reports no progress |
| AudioFileProcessor.LoadAudioFileStreaming | app/src/main/java/com/meetingtranscriber/audio/AudioFileProcessor.kt:47-57 | the streaming entry point computes `AudioLoaded` |
| AudioFileProcessor.AudioLoadedByExtension | app/src/main/java/com/meetingtranscriber/audio/AudioFileProcessor.kt:52-54 | wav in any case goes to the WAV loader; mp3, m4a and aac to the compressed loader |
| Text.Split | app/src/main/java/com/meetingtranscriber/ml/TokenizerUtils.kt:85-97 | one piece per separator plus one, none containing it |
| Text.JoinSplit | app/src/main/java/com/meetingtranscriber/ml/TokenizerUtils.kt:85-92 | joining the pieces with the separator gives back the text |
| Text.SplitPrefix | app/src/main/java/com/meetingtranscriber/ml/TokenizerUtils.kt:85 | splitting a separator-free prefix glued to a text extends the text's first piece |
| Text.SplitJoin | app/src/main/java/com/meetingtranscriber/ml/TokenizerUtils.kt:85-92 | splitting a join of separator-free pieces gives back the pieces |
| Text.NatString | app/src/main/java/com/meetingtranscriber/ml/TokenizerUtils.kt:92 | a non-empty string of decimal digits |
| Text.IntString | app/src/main/java/com/meetingtranscriber/ml/TokenizerUtils.kt:92-104 | non-empty, no spaces, starting with a digit exactly for non-negative values |
| Text.NatStringRoundTrip | app/src/main/java/com/meetingtranscriber/ml/TokenizerUtils.kt:92 | the digits read back as the number |
| Text.NatStringInjective | app/src/main/java/com/meetingtranscriber/ml/TokenizerUtils.kt:92 | distinct numbers print as distinct digit strings |
| Text.IntStringInjective | app/src/main/java/com/meetingtranscriber/ml/TokenizerUtils.kt:92-104 | distinct numbers print differently |
| TokenizerUtils.Utf16 | app/src/main/java/com/meetingtranscriber/ml/TokenizerUtils.kt:86-98 | at least one 16-bit code unit per character |
| TokenizerUtils.Wrap32 | app/src/main/java/com/meetingtranscriber/ml/TokenizerUtils.kt:86-98 | a signed 32-bit value congruent modulo 2^32 |
| TokenizerUtils.HashUnits | app/src/main/java/com/meetingtranscriber/ml/TokenizerUtils.kt:86-98 | `hashCode` is a signed 32-bit value |
| TokenizerUtils.Low16 | app/src/main/java/com/meetingtranscriber/ml/TokenizerUtils.kt:86-98 | `and 0xFFFF` gives a value in `[0, 65535]` congruent modulo 2^16 |
| TokenizerUtils.Words | app/src/main/java/com/meetingtranscriber/ml/TokenizerUtils.kt:85-97 | one piece per space plus one, empty pieces included |
| TokenizerUtils.WhisperEncodeFallback | app/src/main/java/com/meetingtranscriber/ml/TokenizerUtils.kt:82-88 | one token per piece; token i is the piece's masked hash plus i, so it lies in `[i, i+65535]` |
| TokenizerUtils.SpEncodeFallback | app/src/main/java/com/meetingtranscriber/ml/TokenizerUtils.kt:95-100 | one token per piece, each the piece's masked hash plus 1000, in `[1000, 66535]` |
| TokenizerUtils.EqualWordsTokens | app/src/main/java/com/meetingtranscriber/ml/TokenizerUtils.kt:86-98 | equal pieces give equal SentencePiece tokens, and Whisper tokens that differ by the distance between them |
| TokenizerUtils.EncodeJoinedWords | app/src/main/java/com/meetingtranscriber/ml/TokenizerUtils.kt:85-99 | encoding words joined by spaces gives one token per word |
| TokenizerUtils.HashOfUnit | app/src/main/java/com/meetingtranscriber/ml/TokenizerUtils.kt:86 | the hash of a one-unit string is the unit |
| TokenizerUtils.HashOfChar | app/src/main/java/com/meetingtranscriber/ml/TokenizerUtils.kt:86 | the hash of a one-character BMP string is its code |
| TokenizerUtils.SplitExample | app/src/main/java/com/meetingtranscriber/ml/TokenizerUtils.kt:85 | "a b" splits into "a" and "b" |
| TokenizerUtils.SpEncodeEmpty | app/src/main/java/com/meetingtranscriber/ml/TokenizerUtils.kt:95-100 | the empty text encodes to [1000], the hash of the one empty piece plus 1000 |
| TokenizerUtils.WhisperEncodeExample | app/src/main/java/com/meetingtranscriber/ml/TokenizerUtils.kt:82-88 | "a b" encodes to [97, 99]: each piece's hash plus its position |
| TokenizerUtils.Labelled | app/src/main/java/com/meetingtranscriber/ml/TokenizerUtils.kt:92-104 | one labelled piece per token |
| TokenizerUtils.WhisperDecodeFallback | app/src/main/java/com/meetingtranscriber/ml/TokenizerUtils.kt:90-93 | the output starts with the Whisper fallback prefix |
| TokenizerUtils.SpDecodeFallback | app/src/main/java/com/meetingtranscriber/ml/TokenizerUtils.kt:102-105 | the output starts with the SentencePiece fallback prefix |
| TokenizerUtils.LabelledPieces | app/src/main/java/com/meetingtranscriber/ml/TokenizerUtils.kt:92-104 | splitting the joined labels on spaces gives back one label per token |
| TokenizerUtils.LabelInjective | app/src/main/java/com/meetingtranscriber/ml/TokenizerUtils.kt:92-104 | a label determines its token |
| TokenizerUtils.LabelledJoinInjective | app/src/main/java/com/meetingtranscriber/ml/TokenizerUtils.kt:92-104 | the joined labels determine the token sequence |
| TokenizerUtils.JoinNonEmpty | app/src/main/java/com/meetingtranscriber/ml/TokenizerUtils.kt:92-104 | a join whose first piece is non-empty is non-empty |
| TokenizerUtils.DecodeFallbackInjective | app/src/main/java/com/meetingtranscriber/ml/TokenizerUtils.kt:90-105 | both fallback decoders are injective: the text determines the tokens, in order |
| TokenizerUtils.DecodeExamples | app/src/main/java/com/meetingtranscriber/ml/TokenizerUtils.kt:90-105 | no tokens give the bare prefix; [7] gives the prefix then "번역7" |
| TokenizerUtils.LibrariesLoaded | app/src/main/java/com/meetingtranscriber/ml/TokenizerUtils.kt:9-19 | the native path is on only when both libraries load |
| TokenizerUtils.WithFallback | app/src/main/java/com/meetingtranscriber/ml/TokenizerUtils.kt:22-73 | a native result is used only when the libraries loaded and the call links; otherwise the fallback result |
| TokenizerUtils.UnloadedUsesFallback | app/src/main/java/com/meetingtranscriber/ml/TokenizerUtils.kt:22-73 | without the libraries all four functions return their fallback results |
| TokenizerUtils.LinkErrorUsesFallback | app/src/main/java/com/meetingtranscriber/ml/TokenizerUtils.kt:24-69 | a link error in a native call falls back |
| HealthChecker.ModelErrors | app/src/main/java/com/meetingtranscriber/HealthChecker.kt:58-65 | at most one error per model file |
| HealthChecker.ModelWarnings | app/src/main/java/com/meetingtranscriber/HealthChecker.kt:58-65 | at most one warning per model file |
| HealthChecker.LibraryWarnings | app/src/main/java/com/meetingtranscriber/HealthChecker.kt:74-80 | at most one warning per library |
| HealthChecker.Status | app/src/main/java/com/meetingtranscriber/HealthChecker.kt:95-100 | healthy exactly when there are no errors; the status carries the errors, warnings and device facts |
| HealthChecker.CheckModelFiles | app/src/main/java/com/meetingtranscriber/HealthChecker.kt:58-65 | the model-file loop appends exactly the missing-file warnings and corrupt-file errors, in list order |
| HealthChecker.CheckModelFilesIn | app/src/main/java/com/meetingtranscriber/HealthChecker.kt:58-65 | the model-file loop over any list of names appends to the lists it is given exactly that list's missing-file warnings and corrupt-file errors |
| HealthChecker.CheckLibraries | app/src/main/java/com/meetingtranscriber/HealthChecker.kt:74-80 | the library loop appends one warning per library that fails to load, in order |
| HealthChecker.CheckLibrariesIn | app/src/main/java/com/meetingtranscriber/HealthChecker.kt:74-80 | the library loop over any list of names appends to the warnings it is given one warning per library that fails to load |
| HealthChecker.CheckDevice | app/src/main/java/com/meetingtranscriber/HealthChecker.kt:33-47 | an SDK below 26 and an ABI list without arm64-v8a or armeabi-v7a are errors; RAM below 4 GiB is a warning |
| HealthChecker.CheckSystemHealth | app/src/main/java/com/meetingtranscriber/HealthChecker.kt:28-101 | the checks in order produce exactly `Status` |
| HealthChecker.ModelErrorsEmpty | app/src/main/java/com/meetingtranscriber/HealthChecker.kt:58-65 | no model errors exactly when no model file is present but under 1024 bytes |
| HealthChecker.HealthyIff | app/src/main/java/com/meetingtranscriber/HealthChecker.kt:33-100 | healthy exactly when the SDK is at least 26, an ABI is supported and no model file is corrupt; warnings never matter |
| HealthChecker.MessageSuffix | app/src/main/java/com/meetingtranscriber/HealthChecker.kt:61-78 | messages with the same prefix are equal only for the same subject |
| HealthChecker.ModelWarningsListed | app/src/main/java/com/meetingtranscriber/HealthChecker.kt:58-61 | a missing-file warning for a name appears exactly when that listed file is missing |
| HealthChecker.LibraryWarningsListed | app/src/main/java/com/meetingtranscriber/HealthChecker.kt:74-78 | a missing-library warning appears exactly when that listed library fails to load |
| HealthChecker.RequiredModelsDistinct | app/src/main/java/com/meetingtranscriber/HealthChecker.kt:51-56 | the required model names differ in their first two characters |
| HealthChecker.CorruptNamesDiffer | app/src/main/java/com/meetingtranscriber/HealthChecker.kt:63 | corrupt-file errors for different files differ |
| HealthChecker.ModelErrorsListed | app/src/main/java/com/meetingtranscriber/HealthChecker.kt:58-65 | a corrupt-file error for a name appears exactly when that listed file is corrupt |
| HealthChecker.ModelWarningsShape | app/src/main/java/com/meetingtranscriber/HealthChecker.kt:61 | model warnings start with 'M' |
| HealthChecker.LibraryWarningsShape | app/src/main/java/com/meetingtranscriber/HealthChecker.kt:78 | library warnings start with 'J' |
| HealthChecker.ModelWarningFound | app/src/main/java/com/meetingtranscriber/HealthChecker.kt:50-61 | among all warnings, a missing-file warning appears exactly when the listed file is missing |
| HealthChecker.CorruptErrorFound | app/src/main/java/com/meetingtranscriber/HealthChecker.kt:50-65 | among all errors, a corrupt-file error appears exactly when the file is corrupt |
| HealthChecker.LibraryWarningFound | app/src/main/java/com/meetingtranscriber/HealthChecker.kt:68-80 | among all warnings, a missing-library warning appears exactly when the library fails to load |
| HealthChecker.ModelAndLibraryFindings | app/src/main/java/com/meetingtranscriber/HealthChecker.kt:50-80 | for each required file: missing gives a warning, under 1024 bytes an error; each missing library gives a warning |
| HealthChecker.ThresholdHeads | app/src/main/java/com/meetingtranscriber/HealthChecker.kt:40-85 | the RAM and storage warnings start with 'L', so they differ from the model and library warnings, and they differ from each other at index 4 |
| HealthChecker.MiddleWarningsShape | app/src/main/java/com/meetingtranscriber/HealthChecker.kt:58-80 | model and library warnings start with 'M' or 'J' |
| HealthChecker.RamWarningFirst | app/src/main/java/com/meetingtranscriber/HealthChecker.kt:38-41 | the RAM warning is present exactly when RAM is below 4 GiB, and then it comes first |
| HealthChecker.MiddleWarningsNotL | app/src/main/java/com/meetingtranscriber/HealthChecker.kt:58-80 | no model-file or library warning starts with the letter that opens the RAM and storage warnings |
| HealthChecker.FirstOfGroups | app/src/main/java/com/meetingtranscriber/HealthChecker.kt:37-86 | in such a grouping the RAM warning is first exactly when it is present |
| HealthChecker.LastOfGroups | app/src/main/java/com/meetingtranscriber/HealthChecker.kt:37-86 | in such a grouping the storage warning is last exactly when it is present |
| HealthChecker.StorageWarningLast | app/src/main/java/com/meetingtranscriber/HealthChecker.kt:83-86 | with under 10 GiB free the storage warning is the last warning |
| HealthChecker.Bullets | app/src/main/java/com/meetingtranscriber/HealthChecker.kt:123-129 | one bullet line per item |
| HealthChecker.Section | app/src/main/java/com/meetingtranscriber/HealthChecker.kt:121-131 | a section is absent for no items, otherwise a heading, the items and a blank line |
| HealthChecker.UnlinesAppend | app/src/main/java/com/meetingtranscriber/HealthChecker.kt:108-140 | appending lines to the builder concatenates their text |
| HealthChecker.ReportShape | app/src/main/java/com/meetingtranscriber/HealthChecker.kt:108-140 | title, HEALTHY/UNHEALTHY status line, device lines, the Errors section iff there are errors, the Warnings section iff there are warnings, each listing its items in order, and the closing line chosen by health |
| HealthChecker.ReportOfCheck | app/src/main/java/com/meetingtranscriber/HealthChecker.kt:108-140 | the report of a check says UNHEALTHY exactly when its Errors section is present |
| HealthChecker.AppendLines | app/src/main/java/com/meetingtranscriber/HealthChecker.kt:121-131 | the append loop adds the lines' text to the builder |
| HealthChecker.GenerateHealthReport | app/src/main/java/com/meetingtranscriber/HealthChecker.kt:108-140 | the builder's text is the report's lines, each followed by a newline |

## Left out

- Inference stages: the embedding extractor, the Whisper, NLLB and Qwen stages, and the native tokenizers are function parameters or `Native` inputs. `extractSpeakerEmbedding`, the `*WithSession` methods, the four-slot `ModelManager`, the stage classes and `QwenTokenizerUtils` are not part of this model.
- Float arithmetic: samples, centroids and segment times are reals. Float rounding in sums, in `/ 32768f` and in `Double` resampling ratios is not modelled.
- Embedding normalisation, cosine similarity and the spectral affinity matrix are not modelled; the affinity matrix's result is never used by `diarize`.
- SpeakerDiarization.Nearest: compares squared distances instead of `sqrt` distances. The argmin is the same because `sqrt` is monotone. The `Float.MAX_VALUE` starting sentinel is not modelled, so every centroid is a candidate.
- SpeakerDiarization.KMeansClustering: the random initial indices `(0 until n).random()` are an input sequence of draws.
- AudioFileProcessor.Resample: an allocation below `Int.MAX_VALUE` floats that still exceeds the heap is not modelled as out-of-memory, because it depends on the device's heap size.
- AudioFileProcessor.ResampledShape: the index `⌊i·from/to⌋` is exact rational arithmetic. The source computes it in `Double`, which can differ by rounding.
- AudioFileProcessor.ProgressIncreasing: progress is the exact quotient of bytes read over the total. The source divides in `Float`, so for large files two reads can round to the same value, and then its progress only does not fall (67108864 and 67108866 bytes of 67108866 both give 1.0).
- AudioFileProcessor.WavProgress: rises strictly only as an exact quotient; the WAV loader's `Float` quotient can repeat a value for large files.
- AudioFileProcessor.WavRoundTrip: its strict rise of progress is a fact about exact quotients; with `Float` division a final 2-byte read after 67108864 bytes repeats 1.0. The samples it states are unaffected.
- AudioFileProcessor.CompressedProgress: rises strictly only as an exact quotient; the compressed loader's `Float` quotient can repeat a value for large files.
- OptimizedPipeline.LoadingProgress: each report is `10 + ⌊10·p⌋` over the exact product. The source multiplies in `Float`, which can round up to the next integer (p = 0.7f gives 17, not 16). The range `[10, 20]` and the non-decreasing order still hold under rounding.
- AudioFileProcessor.LowerChar: lower-cases ASCII letters only. Kotlin's `lowercase()` also folds other scripts.
- Both loaders assume the stream delivers the header first and then reads of 1 to 8192 bytes, and the extractor never delivers more bytes than the file length. The loaders' results are not stated for other streams.
- The `getAudioInfo` probe, `MediaExtractor`, `MediaMetadataRetriever` and `FileInputStream` are inputs: track lists, reads and durations.
- The audio recorder, the model downloader, the UI and permissions are not part of this model.
- The wake lock's ten-minute timeout expiring on its own is not modelled. Leases stay held until released.
- `System.gc()`, coroutine dispatchers, the clock and the `Runtime` memory probe are not modelled. Times and memory readings are inputs.
- The text that accompanies each progress report and the log messages are not modelled.
- ModelLifecycle.OptimizedModelManager.LoadModel: a runtime that rejects the model file is an input flag. The ONNX session options are left out.
- TokenizerUtils: tokens are unbounded integers. `Long` overflow cannot occur for values below 66536 plus a list index.
- HealthChecker: the SDK level, RAM, ABIs, file sizes, library loads and free storage are inputs.
