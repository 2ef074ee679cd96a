/** `OptimizedProcessingPipeline.processAudio`: the stages run one at a time,
    each loading its model through the single-slot manager, running, and
    releasing it before the next loads. Progress reports and manager calls
    are recorded as a trace of events.

    The stages (`*WithSession`), the audio probe and loader, the clock and the
    memory probe are inputs: the stages are uninterpreted functions that
    either produce a value or fail (`None`). */
module OptimizedPipeline {
  import opened Wrappers
  import opened ModelLifecycle
  import SpeakerDiarization

  type SpeakerSegment = SpeakerDiarization.SpeakerSegment

  /** What the progress callback and the manager see, in order. */
  datatype Event =
    | Progress(percent: int)
    | Load(model: ModelType)
    | ReleaseModel
    | ReleaseLease

  datatype ProcessingStats = ProcessingStats(
    totalTimeMs: int, audioLengthMs: int, peakMemoryUsageMB: int, modelLoadTimes: map<string, int>)

  datatype ProcessingResult = ProcessingResult(
    transcription: string, translation: string, summary: string,
    speakerSegments: seq<SpeakerSegment>, processingStats: ProcessingStats)

  /** The runtime's byte counts as read by `getMemoryUsage`. */
  datatype MemoryReading = MemoryReading(totalBytes: int, freeBytes: int, maxBytes: int)

  /** Everything the host supplies: the audio probe's duration (or its
      failure), the fractions the loader reports and the samples it returns
      (or its failure), whether the runtime accepts each model file, each
      load's duration, the memory reading taken after each release, and the
      run's total time. */
  datatype Host = Host(
    audioInfo: Option<int>,
    loadFractions: seq<real>,
    samples: Result<seq<real>>,
    accepts: ModelType -> bool,
    loadTimeMs: ModelType -> int,
    memoryAfter: ModelType -> MemoryReading,
    totalTimeMs: int)

  /** The four `*WithSession` stages; `None` is a stage that threw. Speaker
      diarization is called with `numSpeakers = 2`. */
  datatype Stages = Stages(
    diarize: seq<real> -> Option<seq<SpeakerSegment>>,
    transcribe: seq<real> -> Option<string>,
    translate: string -> Option<string>,
    summarize: string -> Option<string>)

  /** Kotlin `Float.toInt()` on a finite value: truncation toward zero. */
  function Truncate(x: real): int
  {
    if x >= 0.0 then x.Floor else -((-x).Floor)
  }

  /** The loader callback `10 + (fileProgress * 10).toInt()`, for each fraction, with an exact product. */
  function LoadingProgress(fractions: seq<real>): (events: seq<Event>)
    ensures |events| == |fractions|
    ensures forall i :: 0 <= i < |fractions| && 0.0 <= fractions[i] <= 1.0 ==>
              events[i].Progress? && 10 <= events[i].percent <= 20
  {
    seq(|fractions|, i requires 0 <= i < |fractions| => Progress(10 + Truncate(10.0 * fractions[i])))
  }

  /** Key of a model in `modelLoadTimes`. */
  function LoadTimeKey(t: ModelType): string
  {
    match t
    case WAVLM => "WavLM"
    case WHISPER => "Whisper"
    case NLLB => "NLLB"
    case QWEN => "Qwen"
  }

  /** One stage as traced: its progress report, its load, its release. */
  function StageEvents(percent: int, t: ModelType): seq<Event>
  {
    [Progress(percent), Load(t), ReleaseModel]
  }

  /** The trace of a run that succeeds, before the `finally` block. */
  function SuccessTrace(enableDiarization: bool, fractions: seq<real>): seq<Event>
  {
    [Progress(5), Progress(10)] + LoadingProgress(fractions) +
    (if enableDiarization then StageEvents(25, WAVLM) else []) +
    StageEvents(40, WHISPER) + StageEvents(60, NLLB) + StageEvents(80, QWEN) +
    [Progress(100)]
  }

  /** The models a run loads, in order. */
  function ModelsInOrder(enableDiarization: bool): seq<ModelType>
  {
    (if enableDiarization then [WAVLM] else []) + [WHISPER, NLLB, QWEN]
  }

  function Max(a: int, b: int): int
  {
    if a >= b then a else b
  }

  /** The used-MB figure read after releasing model `t`. */
  function UsedAfter(host: Host, t: ModelType): int
  {
    var m := host.memoryAfter(t);
    MemoryUsage(m.totalBytes, m.freeBytes, m.maxBytes).usedMemoryMB
  }

  /** `modelLoadTimes` after a successful run. */
  function LoadTimes(enableDiarization: bool, host: Host): (m: map<string, int>)
    ensures m.Keys == (if enableDiarization then {"WavLM"} else {}) + {"Whisper", "NLLB", "Qwen"}
  {
    var base := map["Whisper" := host.loadTimeMs(WHISPER), "NLLB" := host.loadTimeMs(NLLB),
                    "Qwen" := host.loadTimeMs(QWEN)];
    if enableDiarization then base["WavLM" := host.loadTimeMs(WAVLM)] else base
  }

  /** `peakMemoryUsage` after a successful run: `maxOf` folded over the
      used-MB readings taken after each release, starting from 0. It is the
      largest reading, or 0 when every reading is negative. */
  function PeakMemory(enableDiarization: bool, host: Host): (peak: int)
    ensures peak >= 0
    ensures enableDiarization ==> peak >= UsedAfter(host, WAVLM)
    ensures peak >= UsedAfter(host, WHISPER) && peak >= UsedAfter(host, NLLB) && peak >= UsedAfter(host, QWEN)
    ensures peak == 0 || (enableDiarization && peak == UsedAfter(host, WAVLM)) ||
            peak in {UsedAfter(host, WHISPER), UsedAfter(host, NLLB), UsedAfter(host, QWEN)}
  {
    var start := if enableDiarization then Max(0, UsedAfter(host, WAVLM)) else 0;
    Max(Max(Max(start, UsedAfter(host, WHISPER)), UsedAfter(host, NLLB)), UsedAfter(host, QWEN))
  }

  /** Load a model, run its stage with it, release it and read the memory.
      A refused load leaves nothing resident; a stage that fails leaves its
      model resident, because nothing releases it on the way out. */
  method LoadRunRelease<T>(mgr: OptimizedModelManager, t: ModelType, host: Host, stageName: string, run: Option<T>)
    returns (out: Result<T>, events: seq<Event>, usedMB: int)
    requires mgr.Valid()
    modifies mgr, mgr.sessions, mgr.leases
    ensures mgr.Valid() && mgr.env == old(mgr.env) && mgr.wakeLock != null
    ensures old(mgr.wakeLock) != null ==> mgr.wakeLock == old(mgr.wakeLock)
    ensures fresh(mgr.sessions - old(mgr.sessions)) && fresh(mgr.leases - old(mgr.leases))
    ensures out.Ok? <==> mgr.env == Open && host.accepts(t) && run.Some?
    ensures events == [Load(t)] + if out.Ok? then [ReleaseModel] else []
    ensures out.Ok? ==> out.value == run.value && usedMB == UsedAfter(host, t) &&
                        mgr.currentSession == null
    ensures out.Err? && !(mgr.env == Open && host.accepts(t)) ==>
              mgr.currentSession == null &&
              out.error == if mgr.env == Uninitialized then EnvironmentNotInitialized
                           else ModelLoadFailure(ModelPath(mgr.filesDir, t))
    ensures out.Err? && mgr.env == Open && host.accepts(t) ==>
              out.error == StageFailure(stageName) && mgr.currentSession != null &&
              mgr.currentModelType == Some(t)
  {
    events := [Load(t)];
    usedMB := 0;
    var session := mgr.LoadModel(t, host.accepts(t));
    if session.Err? {
      return Err(session.error), events, usedMB;
    }
    if run.None? {
      return Err(StageFailure(stageName)), events, usedMB;
    }
    mgr.ReleaseCurrentModel();
    events := events + [ReleaseModel];
    var m := host.memoryAfter(t);
    usedMB := MemoryUsage(m.totalBytes, m.freeBytes, m.maxBytes).usedMemoryMB;
    out := Ok(run.value);
  }

  /** What the four stages hand back. */
  datatype Outputs = Outputs(
    speakerSegments: seq<SpeakerSegment>, transcription: string, translation: string, summary: string)

  /** The outputs of a run whose stages all produce a value: the segments
      (none when diarization is off) and the text stages' chain. */
  function ExpectedOutputs(enableDiarization: bool, stages: Stages, audio: seq<real>): (o: Outputs)
    requires enableDiarization ==> stages.diarize(audio).Some?
    requires TextProduced(stages, audio)
    ensures o.speakerSegments == (if enableDiarization then stages.diarize(audio).value else [])
    ensures Some(o.transcription) == stages.transcribe(audio)
    ensures Some(o.translation) == stages.translate(o.transcription)
    ensures Some(o.summary) == stages.summarize(o.translation)
  {
    var text := TextOutputs(stages, audio);
    Outputs(if enableDiarization then stages.diarize(audio).value else [], text.0, text.1, text.2)
  }

  /** The text part of the schedule: transcription, translation, summary. */
  function TextTrace(): seq<Event>
  {
    StageEvents(40, WHISPER) + StageEvents(60, NLLB) + StageEvents(80, QWEN)
  }

  /** The stage part of the schedule: progress, load and release per model. */
  function StagesTrace(enableDiarization: bool): seq<Event>
  {
    (if enableDiarization then StageEvents(25, WAVLM) else []) + TextTrace()
  }

  /** The text stages produce a value on `audio`, each from the previous one. */
  predicate TextProduced(stages: Stages, audio: seq<real>)
  {
    stages.transcribe(audio).Some? &&
    stages.translate(stages.transcribe(audio).value).Some? &&
    stages.summarize(stages.translate(stages.transcribe(audio).value).value).Some?
  }

  /** What the text stages hand back: transcript, translation, summary. */
  function TextOutputs(stages: Stages, audio: seq<real>): (o: (string, string, string))
    requires TextProduced(stages, audio)
    ensures Some(o.0) == stages.transcribe(audio) && Some(o.1) == stages.translate(o.0) &&
            Some(o.2) == stages.summarize(o.1)
  {
    var text := stages.transcribe(audio).value;
    var translated := stages.translate(text).value;
    (text, translated, stages.summarize(translated).value)
  }

  /** Everything the stage part needs to succeed on `audio`. */
  predicate StagesSucceed(env: EnvState, enableDiarization: bool, host: Host, stages: Stages, audio: seq<real>)
  {
    env == Open &&
    (enableDiarization ==> host.accepts(WAVLM) && stages.diarize(audio).Some?) &&
    host.accepts(WHISPER) && host.accepts(NLLB) && host.accepts(QWEN) &&
    TextProduced(stages, audio)
  }

  /** Everything a run needs to succeed. */
  predicate Succeeds(env: EnvState, enableDiarization: bool, host: Host, stages: Stages)
  {
    host.audioInfo.Some? && host.samples.Ok? &&
    StagesSucceed(env, enableDiarization, host, stages, host.samples.value)
  }

  /** Transcription, translation and summarization, in that order, each
      with its own model; the first failure ends the run. The load times and
      the peak so far come in and go out updated. */
  method TextStages(mgr: OptimizedModelManager, host: Host, stages: Stages, audio: seq<real>,
                    loadTimes0: map<string, int>, peak0: int)
    returns (r: Result<(string, string, string)>, events: seq<Event>, loadTimes: map<string, int>, peak: int)
    requires mgr.Valid()
    modifies mgr, mgr.sessions, mgr.leases
    ensures mgr.Valid() && mgr.env == old(mgr.env)
    ensures fresh(mgr.sessions - old(mgr.sessions)) && fresh(mgr.leases - old(mgr.leases))
    ensures events <= TextTrace()
    ensures r.Ok? <==>
              mgr.env == Open && host.accepts(WHISPER) && host.accepts(NLLB) && host.accepts(QWEN) &&
              TextProduced(stages, audio)
    ensures r.Ok? ==>
              events == TextTrace() && mgr.currentSession == null && r.value == TextOutputs(stages, audio) &&
              loadTimes == loadTimes0["Whisper" := host.loadTimeMs(WHISPER)]["NLLB" := host.loadTimeMs(NLLB)]
                                     ["Qwen" := host.loadTimeMs(QWEN)] &&
              peak == Max(Max(Max(peak0, UsedAfter(host, WHISPER)), UsedAfter(host, NLLB)), UsedAfter(host, QWEN))
    ensures r.Err? && r.error.StageFailure? ==> mgr.currentSession != null
  {
    var transcribed, ev1, translated, ev2, summarized, ev3;
    transcribed, ev1, loadTimes, peak :=
      RunStage(mgr, WHISPER, 40, host, "transcription", stages.transcribe(audio), loadTimes0, peak0);
    events := ev1;
    if transcribed.Err? {
      PrefixWithin([], ev1, StageEvents(40, WHISPER), StageEvents(60, NLLB) + StageEvents(80, QWEN));
      return Err(transcribed.error), events, loadTimes, peak;
    }
    translated, ev2, loadTimes, peak :=
      RunStage(mgr, NLLB, 60, host, "translation", stages.translate(transcribed.value), loadTimes, peak);
    events := events + ev2;
    if translated.Err? {
      PrefixWithin(ev1, ev2, StageEvents(60, NLLB), StageEvents(80, QWEN));
      return Err(translated.error), events, loadTimes, peak;
    }
    summarized, ev3, loadTimes, peak :=
      RunStage(mgr, QWEN, 80, host, "summarization", stages.summarize(translated.value), loadTimes, peak);
    events := events + ev3;
    if summarized.Err? {
      PrefixWithin(ev1 + ev2, ev3, StageEvents(80, QWEN), []);
      return Err(summarized.error), events, loadTimes, peak;
    }
    r := Ok((transcribed.value, translated.value, summarized.value));
  }

  /** A trace that follows `a` with a prefix of `c` is a prefix of `a`, `c`
      and whatever comes after. */
  lemma PrefixWithin(a: seq<Event>, b: seq<Event>, c: seq<Event>, d: seq<Event>)
    requires b <= c
    ensures a + b <= a + c + d
  {
    assert a + c + d == a + b + (c[|b|..] + d);
  }

  /** One stage as the run performs it: report `percent`, then load the
      model, run the stage, release the model and record its load time and
      the memory reading. A failure ends the stage after the load. */
  method RunStage<T>(mgr: OptimizedModelManager, t: ModelType, percent: int, host: Host, stageName: string,
                     run: Option<T>, loadTimes0: map<string, int>, peak0: int)
    returns (out: Result<T>, events: seq<Event>, loadTimes: map<string, int>, peak: int)
    requires mgr.Valid()
    modifies mgr, mgr.sessions, mgr.leases
    ensures mgr.Valid() && mgr.env == old(mgr.env)
    ensures fresh(mgr.sessions - old(mgr.sessions)) && fresh(mgr.leases - old(mgr.leases))
    ensures out.Ok? <==> old(mgr.env) == Open && host.accepts(t) && run.Some?
    ensures events <= StageEvents(percent, t)
    ensures out.Ok? ==>
              out.value == run.value && events == StageEvents(percent, t) && mgr.currentSession == null &&
              loadTimes == loadTimes0[LoadTimeKey(t) := host.loadTimeMs(t)] && peak == Max(peak0, UsedAfter(host, t))
    ensures out.Err? && out.error.StageFailure? ==> mgr.currentSession != null
  {
    loadTimes, peak := loadTimes0, peak0;
    var ev, used;
    out, ev, used := LoadRunRelease(mgr, t, host, stageName, run);
    events := [Progress(percent)] + ev;
    if out.Ok? {
      loadTimes := loadTimes[LoadTimeKey(t) := host.loadTimeMs(t)];
      peak := Max(peak, used);
    }
  }

  /** The result of a run that succeeds: the stages' outputs, the host's
      timings, the peak memory and the load times. */
  function ExpectedResult(enableDiarization: bool, host: Host, stages: Stages): (res: ProcessingResult)
    requires host.audioInfo.Some? && host.samples.Ok?
    requires enableDiarization ==> stages.diarize(host.samples.value).Some?
    requires TextProduced(stages, host.samples.value)
    ensures var audio := host.samples.value;
            res.speakerSegments == (if enableDiarization then stages.diarize(audio).value else []) &&
            Some(res.transcription) == stages.transcribe(audio) &&
            Some(res.translation) == stages.translate(res.transcription) &&
            Some(res.summary) == stages.summarize(res.translation)
    ensures res.processingStats.audioLengthMs == host.audioInfo.value &&
            res.processingStats.totalTimeMs == host.totalTimeMs &&
            res.processingStats.peakMemoryUsageMB == PeakMemory(enableDiarization, host) &&
            res.processingStats.modelLoadTimes == LoadTimes(enableDiarization, host)
  {
    var o := ExpectedOutputs(enableDiarization, stages, host.samples.value);
    ProcessingResult(o.transcription, o.translation, o.summary, o.speakerSegments,
                     ProcessingStats(host.totalTimeMs, host.audioInfo.value,
                                     PeakMemory(enableDiarization, host), LoadTimes(enableDiarization, host)))
  }

  /** The body of the `try` block from the diarization stage on: each stage
      loads its model, runs and releases it; the first failure ends the run. */
  method RunStages(mgr: OptimizedModelManager, enableDiarization: bool, host: Host, stages: Stages, audio: seq<real>)
    returns (r: Result<Outputs>, events: seq<Event>, loadTimes: map<string, int>, peak: int)
    requires mgr.Valid()
    modifies mgr, mgr.sessions, mgr.leases
    ensures mgr.Valid() && mgr.env == old(mgr.env)
    ensures fresh(mgr.sessions - old(mgr.sessions)) && fresh(mgr.leases - old(mgr.leases))
    ensures events <= StagesTrace(enableDiarization)
    ensures r.Ok? <==> StagesSucceed(old(mgr.env), enableDiarization, host, stages, audio)
    ensures r.Ok? ==>
              events == StagesTrace(enableDiarization) && mgr.currentSession == null &&
              loadTimes == LoadTimes(enableDiarization, host) && peak == PeakMemory(enableDiarization, host) &&
              r.value == ExpectedOutputs(enableDiarization, stages, audio)
    ensures r.Err? && r.error.StageFailure? ==> mgr.currentSession != null
  {
    var segments: seq<SpeakerSegment> := [];
    var diarEvents: seq<Event> := [];
    var times: map<string, int> := map[];
    var peak0 := 0;
    if enableDiarization {
      var out;
      out, diarEvents, times, peak0 := RunStage(mgr, WAVLM, 25, host, "diarization", stages.diarize(audio), times, peak0);
      if out.Err? {
        PrefixWithin([], diarEvents, StageEvents(25, WAVLM), TextTrace());
        return Err(out.error), diarEvents, times, peak0;
      }
      segments := out.value;
    }
    assert times == if enableDiarization then map["WavLM" := host.loadTimeMs(WAVLM)] else map[];
    assert peak0 == if enableDiarization then Max(0, UsedAfter(host, WAVLM)) else 0;
    assert segments == if enableDiarization then stages.diarize(audio).value else [];
    LoadTimesParts(enableDiarization, host);
    var text, textEvents;
    text, textEvents, loadTimes, peak := TextStages(mgr, host, stages, audio, times, peak0);
    events := diarEvents + textEvents;
    if text.Err? {
      PrefixWithin(diarEvents, textEvents, TextTrace(), []);
      return Err(text.error), events, loadTimes, peak;
    }
    r := Ok(Outputs(segments, text.value.0, text.value.1, text.value.2));
  }

  /** Proof helper: unfolds LoadTimes into its stage-by-stage map updates. */
  lemma LoadTimesParts(enableDiarization: bool, host: Host)
    ensures LoadTimes(enableDiarization, host) ==
            (if enableDiarization then map["WavLM" := host.loadTimeMs(WAVLM)] else map[])
              ["Whisper" := host.loadTimeMs(WHISPER)]["NLLB" := host.loadTimeMs(NLLB)]["Qwen" := host.loadTimeMs(QWEN)]
  {
  }

  /** The `try` block of `processAudio`: probe the audio, load it while
      reporting progress, run the stages, report 100. */
  method TryProcess(mgr: OptimizedModelManager, enableDiarization: bool, host: Host, stages: Stages)
    returns (r: Result<ProcessingResult>, trace: seq<Event>)
    requires mgr.Valid()
    modifies mgr, mgr.sessions, mgr.leases
    ensures mgr.Valid() && mgr.env == old(mgr.env)
    ensures fresh(mgr.sessions - old(mgr.sessions)) && fresh(mgr.leases - old(mgr.leases))
    ensures trace <= SuccessTrace(enableDiarization, host.loadFractions)
    ensures r.Ok? <==> Succeeds(old(mgr.env), enableDiarization, host, stages)
    ensures r.Ok? ==>
              trace == SuccessTrace(enableDiarization, host.loadFractions) &&
              mgr.currentSession == null && r.value == ExpectedResult(enableDiarization, host, stages)
    ensures r.Err? && r.error.StageFailure? && host.samples.Ok? ==> mgr.currentSession != null
  {
    ghost var intro := [Progress(5), Progress(10)] + LoadingProgress(host.loadFractions);
    ghost var rest := StagesTrace(enableDiarization) + [Progress(100)];
    SuccessTraceParts(enableDiarization, host.loadFractions);
    trace := [Progress(5)];
    if host.audioInfo.None? {
      PrefixWithin([], trace, intro, rest);
      return Err(AudioReadFailure), trace;
    }
    trace := trace + [Progress(10)] + LoadingProgress(host.loadFractions);
    assert trace == intro;
    if host.samples.Err? {
      PrefixWithin([], trace, intro, rest);
      return Err(host.samples.error), trace;
    }
    var audio := host.samples.value;
    var out, events, loadTimes, peak := RunStages(mgr, enableDiarization, host, stages, audio);
    trace := trace + events;
    if out.Err? {
      PrefixWithin(intro, events, StagesTrace(enableDiarization), [Progress(100)]);
      return Err(out.error), trace;
    }
    trace := trace + [Progress(100)];
    var stats := ProcessingStats(host.totalTimeMs, host.audioInfo.value, peak, loadTimes);
    var o := out.value;
    r := Ok(ProcessingResult(o.transcription, o.translation, o.summary, o.speakerSegments, stats));
  }

  /** Proof helper: unfolds SuccessTrace (and StagesTrace) into the probe and loading reports, the stages and 100. */
  lemma SuccessTraceParts(enableDiarization: bool, fractions: seq<real>)
    ensures var intro := [Progress(5), Progress(10)] + LoadingProgress(fractions);
            SuccessTrace(enableDiarization, fractions) == intro + StagesTrace(enableDiarization) + [Progress(100)] &&
            SuccessTrace(enableDiarization, fractions) == [] + intro + (StagesTrace(enableDiarization) + [Progress(100)])
  {
  }

  /** `processAudio`. The `finally` block releases the lease whether the run
      succeeds or fails; it does not release the resident model. */
  method ProcessAudio(mgr: OptimizedModelManager, enableDiarization: bool, host: Host, stages: Stages)
    returns (r: Result<ProcessingResult>, trace: seq<Event>)
    requires mgr.Valid()
    modifies mgr, mgr.sessions, mgr.leases
    ensures mgr.Valid() && mgr.env == old(mgr.env)
    ensures mgr.wakeLock == null && forall l :: l in mgr.leases ==> !l.held
    ensures |trace| > 0 && trace[|trace| - 1] == ReleaseLease
    ensures trace[..|trace| - 1] <= SuccessTrace(enableDiarization, host.loadFractions)
    ensures r.Ok? <==> Succeeds(old(mgr.env), enableDiarization, host, stages)
    ensures r.Ok? ==>
              trace == SuccessTrace(enableDiarization, host.loadFractions) + [ReleaseLease] &&
              mgr.currentSession == null && r.value == ExpectedResult(enableDiarization, host, stages)
    ensures r.Err? && r.error.StageFailure? && host.samples.Ok? ==> mgr.currentSession != null
  {
    r, trace := TryProcess(mgr, enableDiarization, host, stages);
    // finally
    mgr.ReleaseWakeLock();
    assert (trace + [ReleaseLease])[..|trace|] == trace;
    trace := trace + [ReleaseLease];
  }

  // ---------------------------------------------------------------------------
  // Properties of the traced schedule

  /** The progress values of a trace, in order. */
  function ProgressValues(trace: seq<Event>): seq<int>
  {
    if trace == [] then []
    else (if trace[0].Progress? then [trace[0].percent] else []) + ProgressValues(trace[1..])
  }

  /** The models a trace loads, in order. */
  function LoadsOf(trace: seq<Event>): seq<ModelType>
  {
    if trace == [] then []
    else (if trace[0].Load? then [trace[0].model] else []) + LoadsOf(trace[1..])
  }

  predicate NonDecreasing(xs: seq<int>)
  {
    forall i, j :: 0 <= i <= j < |xs| ==> xs[i] <= xs[j]
  }

  lemma {:induction false} ProgressValuesAppend(a: seq<Event>, b: seq<Event>)
    ensures ProgressValues(a + b) == ProgressValues(a) + ProgressValues(b)
    decreases |a|
  {
    if a == [] {
      assert a + b == b;
    } else {
      ProgressValuesAppend(a[1..], b);
      assert (a + b)[1..] == a[1..] + b;
    }
  }

  lemma {:induction false} LoadsOfAppend(a: seq<Event>, b: seq<Event>)
    ensures LoadsOf(a + b) == LoadsOf(a) + LoadsOf(b)
    decreases |a|
  {
    if a == [] {
      assert a + b == b;
    } else {
      LoadsOfAppend(a[1..], b);
      assert (a + b)[1..] == a[1..] + b;
    }
  }

  /** The loader's reports, as progress values. */
  lemma {:induction false} LoadingProgressValues(fractions: seq<real>)
    ensures ProgressValues(LoadingProgress(fractions)) ==
            seq(|fractions|, i requires 0 <= i < |fractions| => 10 + Truncate(10.0 * fractions[i]))
    ensures LoadsOf(LoadingProgress(fractions)) == []
    decreases |fractions|
  {
    if fractions != [] {
      LoadingProgressValues(fractions[1..]);
      assert LoadingProgress(fractions)[1..] == LoadingProgress(fractions[1..]);
    }
  }

  lemma StageValues(percent: int, t: ModelType)
    ensures ProgressValues(StageEvents(percent, t)) == [percent]
    ensures LoadsOf(StageEvents(percent, t)) == [t]
  {
    var s := StageEvents(percent, t);
    assert s[1..][1..][1..] == [];
    assert ProgressValues(s[1..][1..]) == [] && LoadsOf(s[1..][1..]) == [];
    assert ProgressValues(s[1..]) == [] && LoadsOf(s[1..]) == [t];
  }

  /** The progress values and loads of the stage part, stage by stage. */
  lemma {:induction false} StagesValues(enableDiarization: bool)
    ensures ProgressValues(StagesTrace(enableDiarization)) == (if enableDiarization then [25] else []) + [40, 60, 80]
    ensures LoadsOf(StagesTrace(enableDiarization)) == ModelsInOrder(enableDiarization)
  {
    var s40, s60, s80 := StageEvents(40, WHISPER), StageEvents(60, NLLB), StageEvents(80, QWEN);
    ProgressValuesAppend(s40 + s60, s80);
    ProgressValuesAppend(s40, s60);
    LoadsOfAppend(s40 + s60, s80);
    LoadsOfAppend(s40, s60);
    StageValues(40, WHISPER);
    StageValues(60, NLLB);
    StageValues(80, QWEN);
    var text := s40 + s60 + s80;
    assert ProgressValues(text) == [40, 60, 80] && LoadsOf(text) == [WHISPER, NLLB, QWEN];
    if enableDiarization {
      var d := StageEvents(25, WAVLM);
      assert StagesTrace(enableDiarization) == d + text;
      ProgressValuesAppend(d, text);
      LoadsOfAppend(d, text);
      StageValues(25, WAVLM);
    } else {
      assert StagesTrace(enableDiarization) == text;
    }
  }

  /** A single event contributes its own percentage or load. */
  lemma SingleEvent(e: Event)
    ensures ProgressValues([e]) == if e.Progress? then [e.percent] else []
    ensures LoadsOf([e]) == if e.Load? then [e.model] else []
  {
    assert [e][1..] == [];
  }

  /** The progress values of the whole schedule. */
  lemma ScheduleProgress(enableDiarization: bool, fractions: seq<real>)
    ensures ProgressValues(SuccessTrace(enableDiarization, fractions)) ==
            [5, 10] + ProgressValues(LoadingProgress(fractions)) +
            (if enableDiarization then [25] else []) + [40, 60, 80, 100]
  {
    var p5, p10, p100 := [Progress(5)], [Progress(10)], [Progress(100)];
    var lp := LoadingProgress(fractions);
    var mid := StagesTrace(enableDiarization);
    assert SuccessTrace(enableDiarization, fractions) == p5 + p10 + lp + mid + p100;
    ProgressValuesAppend(p5 + p10 + lp + mid, p100);
    ProgressValuesAppend(p5 + p10 + lp, mid);
    ProgressValuesAppend(p5 + p10, lp);
    ProgressValuesAppend(p5, p10);
    SingleEvent(Progress(5));
    SingleEvent(Progress(10));
    SingleEvent(Progress(100));
    StagesValues(enableDiarization);
    var d := if enableDiarization then [25] else [];
    ScheduleShape(ProgressValues(lp), d);
  }

  /** Regrouping the percentages of the schedule. */
  lemma ScheduleShape(loading: seq<int>, d: seq<int>)
    ensures [5] + [10] + loading + (d + [40, 60, 80]) + [100] == [5, 10] + loading + d + [40, 60, 80, 100]
  {
  }

  /** The models the whole schedule loads. */
  lemma ScheduleLoads(enableDiarization: bool, fractions: seq<real>)
    ensures LoadsOf(SuccessTrace(enableDiarization, fractions)) == ModelsInOrder(enableDiarization)
  {
    var p5, p10, p100 := [Progress(5)], [Progress(10)], [Progress(100)];
    var lp := LoadingProgress(fractions);
    var mid := StagesTrace(enableDiarization);
    assert SuccessTrace(enableDiarization, fractions) == p5 + p10 + lp + mid + p100;
    LoadsOfAppend(p5 + p10 + lp + mid, p100);
    LoadsOfAppend(p5 + p10 + lp, mid);
    LoadsOfAppend(p5 + p10, lp);
    LoadsOfAppend(p5, p10);
    SingleEvent(Progress(5));
    SingleEvent(Progress(10));
    SingleEvent(Progress(100));
    LoadingProgressValues(fractions);
    StagesValues(enableDiarization);
  }

  /** Two non-decreasing runs, the first nowhere above the second, join into one. */
  lemma NonDecreasingJoin(a: seq<int>, b: seq<int>)
    requires NonDecreasing(a) && NonDecreasing(b)
    requires forall i, j :: 0 <= i < |a| && 0 <= j < |b| ==> a[i] <= b[j]
    ensures NonDecreasing(a + b)
  {
    var ab := a + b;
    forall i, j | 0 <= i <= j < |ab|
      ensures ab[i] <= ab[j]
    {
      if j < |a| {
        assert ab[i] == a[i] && ab[j] == a[j];
      } else if i >= |a| {
        assert ab[i] == b[i - |a|] && ab[j] == b[j - |a|];
      } else {
        assert ab[i] == a[i] && ab[j] == b[j - |a|];
      }
    }
  }

  /** The loader's progress values grow within [10, 20] when the fractions
      grow within [0, 1]. */
  lemma LoadingProgressNonDecreasing(fractions: seq<real>)
    requires forall i :: 0 <= i < |fractions| ==> 0.0 <= fractions[i] <= 1.0
    requires forall i, j :: 0 <= i <= j < |fractions| ==> fractions[i] <= fractions[j]
    ensures var lps := ProgressValues(LoadingProgress(fractions));
            NonDecreasing(lps) && forall i :: 0 <= i < |lps| ==> 10 <= lps[i] <= 20
  {
    LoadingProgressValues(fractions);
    var lps := ProgressValues(LoadingProgress(fractions));
    forall i, j | 0 <= i <= j < |lps|
      ensures lps[i] <= lps[j]
    {
      assert (10.0 * fractions[i]).Floor <= (10.0 * fractions[j]).Floor;
    }
  }

  /** The percentages a successful run reports, given the loader's. */
  function ScheduledPercents(enableDiarization: bool, loading: seq<int>): seq<int>
  {
    [5, 10] + loading + (if enableDiarization then [25] else []) + [40, 60, 80, 100]
  }

  lemma ScheduledPercentsNonDecreasing(enableDiarization: bool, loading: seq<int>)
    requires NonDecreasing(loading) && forall i :: 0 <= i < |loading| ==> 10 <= loading[i] <= 20
    ensures NonDecreasing(ScheduledPercents(enableDiarization, loading))
  {
    var rest := (if enableDiarization then [25] else []) + [40, 60, 80, 100];
    assert NonDecreasing(rest);
    NonDecreasingJoin([5, 10], loading);
    var front := [5, 10] + loading;
    forall i, j | 0 <= i < |front| && 0 <= j < |rest|
      ensures front[i] <= rest[j]
    {
      if i >= 2 {
        assert front[i] == loading[i - 2];
      }
    }
    NonDecreasingJoin(front, rest);
    assert ScheduledPercents(enableDiarization, loading) == front + rest;
  }

  /** With loader fractions that grow within [0, 1], the reported progress
      never goes down, starts at 5 and ends at 100. */
  lemma ProgressNonDecreasing(enableDiarization: bool, fractions: seq<real>)
    requires forall i :: 0 <= i < |fractions| ==> 0.0 <= fractions[i] <= 1.0
    requires forall i, j :: 0 <= i <= j < |fractions| ==> fractions[i] <= fractions[j]
    ensures var ps := ProgressValues(SuccessTrace(enableDiarization, fractions));
            NonDecreasing(ps) && ps[0] == 5 && ps[|ps| - 1] == 100
  {
    ScheduleProgress(enableDiarization, fractions);
    ScheduleLoads(enableDiarization, fractions);
    LoadingProgressNonDecreasing(fractions);
    var lps := ProgressValues(LoadingProgress(fractions));
    ScheduledPercentsNonDecreasing(enableDiarization, lps);
    assert ProgressValues(SuccessTrace(enableDiarization, fractions)) == ScheduledPercents(enableDiarization, lps);
  }

  /** A successful run loads WavLM (only when diarization is on), then
      Whisper, NLLB and Qwen, and each load is followed at once by a release. */
  lemma LoadOrder(enableDiarization: bool, fractions: seq<real>)
    ensures LoadsOf(SuccessTrace(enableDiarization, fractions)) == ModelsInOrder(enableDiarization)
    ensures var t := SuccessTrace(enableDiarization, fractions);
            forall i :: 0 <= i < |t| && t[i].Load? ==> i + 1 < |t| && t[i + 1] == ReleaseModel
  {
    ScheduleLoads(enableDiarization, fractions);
    LoadsReleased(enableDiarization, fractions);
  }

  /** In a successful run's trace, every load is followed at once by a release. */
  lemma LoadsReleased(enableDiarization: bool, fractions: seq<real>)
    ensures var t := SuccessTrace(enableDiarization, fractions);
            forall i :: 0 <= i < |t| && t[i].Load? ==> i + 1 < |t| && t[i + 1] == ReleaseModel
  {
    SuccessTraceParts(enableDiarization, fractions);
    var intro := [Progress(5), Progress(10)] + LoadingProgress(fractions);
    var stages := StagesTrace(enableDiarization);
    var t := SuccessTrace(enableDiarization, fractions);
    StagesLoadsReleased(enableDiarization);
    forall i | 0 <= i < |t| && t[i].Load?
      ensures i + 1 < |t| && t[i + 1] == ReleaseModel
    {
      if i < |intro| {
        assert false;
      } else {
        var k := i - |intro|;
        assert k < |stages| && t[i] == stages[k];
        assert t[i + 1] == stages[k + 1];
      }
    }
  }

  /** In the stage part, every load is followed at once by a release. */
  lemma StagesLoadsReleased(enableDiarization: bool)
    ensures var s := StagesTrace(enableDiarization);
            forall k :: 0 <= k < |s| && s[k].Load? ==> k + 1 < |s| && s[k + 1] == ReleaseModel
  {
  }
}
