/** `ProcessingPipeline`: the plain pipeline without model management. It
    loads the audio, optionally diarizes it into two speakers, then
    transcribes, translates and summarizes, reporting progress before each
    step.

    The four stages are parameters; a stage that throws gives `None` and
    ends the run with the progress reported so far. The text that goes
    with each progress value is left out. */
module ProcessingPipeline {
  import opened Wrappers
  import opened SpeakerDiarization

  datatype Stages = Stages(
    diarize: (seq<real>, int) -> Option<seq<SpeakerSegment>>,
    transcribe: seq<real> -> Option<string>,
    translate: string -> Option<string>,
    summarize: string -> Option<string>)

  datatype ProcessingResult = ProcessingResult(
    transcription: string, translation: string, summary: string, speakerSegments: seq<SpeakerSegment>)

  /** The outcome of `processAudio` and the progress values it reported. */
  datatype Run = Run(result: Result<ProcessingResult>, progress: seq<int>)

  /** The progress values of a complete run. */
  const Schedule: seq<int> := [5, 15, 35, 55, 75, 100]

  /** The number of speakers the pipeline asks for. */
  const NumSpeakers: int := 2

  /** `loadAudioFile`: thirty minutes of silence at 16 kHz, whatever the file. */
  function LoadAudioFile(): (audio: seq<real>)
    ensures |audio| == 16000 * 60 * 30
    ensures forall i :: 0 <= i < |audio| ==> audio[i] == 0.0
  {
    seq(16000 * 60 * 30, _ => 0.0)
  }

  /** The segments step: `diarize(audio, 2)` when enabled, none otherwise. */
  function Segments(enable: bool, stages: Stages, audio: seq<real>): Option<seq<SpeakerSegment>>
  {
    if enable then stages.diarize(audio, NumSpeakers) else Some([])
  }

  /** `processAudio`. */
  function ProcessAudio(enable: bool, stages: Stages): (run: Run)
    ensures run.progress <= Schedule && |run.progress| >= 2
    ensures run.result.Ok? <==> run.progress == Schedule
    ensures run.result.Err? ==> run.result.error.StageFailure?
  {
    var audio := LoadAudioFile();
    match Segments(enable, stages, audio)
    case None => Run(Err(StageFailure("diarization")), Schedule[..2])
    case Some(segments) =>
      match stages.transcribe(audio)
      case None => Run(Err(StageFailure("transcription")), Schedule[..3])
      case Some(text) =>
        match stages.translate(text)
        case None => Run(Err(StageFailure("translation")), Schedule[..4])
        case Some(translated) =>
          match stages.summarize(translated)
          case None => Run(Err(StageFailure("summarization")), Schedule[..5])
          case Some(summary) => Run(Ok(ProcessingResult(text, translated, summary, segments)), Schedule)
  }

  /** Every stage produces a value on the loaded audio. */
  predicate AllStagesSucceed(enable: bool, stages: Stages)
  {
    var audio := LoadAudioFile();
    Segments(enable, stages, audio).Some? &&
    stages.transcribe(audio).Some? &&
    stages.translate(stages.transcribe(audio).value).Some? &&
    stages.summarize(stages.translate(stages.transcribe(audio).value).value).Some?
  }

  /** A run succeeds exactly when every stage does, and then the
      transcription is the recognizer's text, the translation is made from
      the transcription, the summary from the translation, and the segments
      are those of `diarize(audio, 2)` (none when disabled). */
  lemma ProcessAudioWiring(enable: bool, stages: Stages)
    ensures var run := ProcessAudio(enable, stages);
            var audio := LoadAudioFile();
            (run.result.Ok? <==> AllStagesSucceed(enable, stages)) &&
            (run.result.Ok? ==>
               var r := run.result.value;
               stages.transcribe(audio) == Some(r.transcription) &&
               stages.translate(r.transcription) == Some(r.translation) &&
               stages.summarize(r.translation) == Some(r.summary) &&
               r.speakerSegments == if enable then stages.diarize(audio, NumSpeakers).value else [])
  {
  }

  /** The reported progress rises strictly, starts at 5, and always
      includes 15, even when diarization is disabled. */
  lemma ProgressIncreasing(enable: bool, stages: Stages)
    ensures var p := ProcessAudio(enable, stages).progress;
            p[0] == 5 && p[1] == 15 &&
            forall i, j :: 0 <= i < j < |p| ==> p[i] < p[j]
  {
    var p := ProcessAudio(enable, stages).progress;
    assert p == Schedule[..|p|];
  }

  /** With diarization disabled the diarization stage is never consulted:
      pipelines that differ only in it run identically, with no segments. */
  lemma DisabledDiarizationUnused(stages: Stages, other: Stages)
    requires stages.transcribe == other.transcribe && stages.translate == other.translate
    requires stages.summarize == other.summarize
    ensures ProcessAudio(false, stages) == ProcessAudio(false, other)
    ensures ProcessAudio(false, stages).result.Ok? ==> ProcessAudio(false, stages).result.value.speakerSegments == []
  {
  }

  /** A failing diarization stops the run after 5 and 15. */
  lemma DiarizationFailure(stages: Stages)
    requires stages.diarize(LoadAudioFile(), NumSpeakers).None?
    ensures ProcessAudio(true, stages) == Run(Err(StageFailure("diarization")), [5, 15])
  {
    assert Schedule[..2] == [5, 15];
  }
}
