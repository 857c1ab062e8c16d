/** The meeting-minutes pipeline: speech to text, text to summary, and which files get written. */
module MeetingPipeline {
  import opened Strings

  /** Every error string of the pipeline starts with this marker, and the pipeline recognises errors by it alone. */
  const ErrorMarker: string := "오류:"

  const InputAudioFile: string := "meeting.mp3"
  const TranscriptPath: string := "output/transcribed_text.txt"
  const SummaryPath: string := "output/final_summary.txt"

  const MissingAudioPrefix: string := "오류: 음성 파일을 찾을 수 없습니다 - "
  const SpeechErrorPrefix: string := "오류: 음성 인식 중 문제가 발생했습니다 - "
  const OllamaErrorPrefix: string := "오류: Ollama API 호출 중 문제가 발생했습니다 - "

  /** What loading the Whisper model and transcribing gives: the text of the exception raised, or `result["text"]`. */
  datatype WhisperOutcome = WhisperRaised(error: string) | Transcribed(text: string)

  /** The string `transcribe_audio` returns, and whether it went as far as loading a model. */
  datatype Transcription = Transcription(text: string, modelLoaded: bool)

  /** `transcribe_audio(filePath)`; `fileExists` is `os.path.exists(filePath)`. */
  function TranscribeAudio(filePath: string, fileExists: bool, whisper: WhisperOutcome): (r: Transcription)
    ensures !fileExists ==> r == Transcription(MissingAudioPrefix + filePath, false)
    ensures fileExists ==> r.modelLoaded
    ensures fileExists && whisper.WhisperRaised? ==> r.text == SpeechErrorPrefix + whisper.error
    ensures fileExists && whisper.Transcribed? ==> r.text == whisper.text
  {
    if !fileExists then Transcription(MissingAudioPrefix + filePath, false)
    else match whisper
      case WhisperRaised(error) => Transcription(SpeechErrorPrefix + error, true)
      case Transcribed(text) => Transcription(text, true)
  }

  /** What `ollama.chat(...)['message']['content']` gives: the text of the exception raised, or the content. */
  datatype OllamaOutcome = OllamaRaised(error: string) | Replied(content: string)

  const Marker: string := "---"
  const SummaryInstructions: string :=
    "\n    당신은 회의록을 전문적으로 요약하는 AI 어시스턴트입니다.\n"
    + "    아래에 제공되는 회의록 텍스트를 분석하여, 다음 세 가지 항목으로 구분하여 정리해 주세요.\n"
    + "    결과는 반드시 한국어로 작성해 주세요.\n\n"
    + "    1. **핵심 안건 요약**: 회의에서 논의된 주요 주제들을 간결하게 요약합니다.\n"
    + "    2. **주요 결정 사항**: 회의를 통해 결정된 내용들을 명확하게 정리합니다.\n"
    + "    3. **Action Items (담당자 및 기한)**: 앞으로 수행해야 할 작업, 담당자, 기한을 목록 형태로 정리합니다.\n\n"
    + "    "
  const SourceHeader: string := "\n    [회의록 원본 텍스트]\n    "
  const LineIndent: string := "\n    "
  const Closing: string := "\n\n    위 형식에 맞춰 회의록을 요약해 주세요:\n    "

  /** The prompt `summarize_text_with_gemma` sends for `text`. */
  function SummaryPrompt(text: string): string {
    SummaryInstructions + Marker + SourceHeader + text + LineIndent + Marker + Closing
  }

  /** `summarize_text_with_gemma(text)`; `chat` is what Ollama does with a prompt. */
  function SummarizeText(text: string, chat: string -> OllamaOutcome): (r: string)
    ensures chat(SummaryPrompt(text)).OllamaRaised? ==> r == OllamaErrorPrefix + chat(SummaryPrompt(text)).error
    ensures chat(SummaryPrompt(text)).Replied? ==> r == chat(SummaryPrompt(text)).content
  {
    match chat(SummaryPrompt(text))
    case OllamaRaised(error) => OllamaErrorPrefix + error
    case Replied(content) => content
  }

  /** A file the pipeline writes. */
  datatype Artifact = Artifact(path: string, content: string)

  /** The files one run writes, in order, and whether it asked for a summary. */
  datatype PipelineRun = PipelineRun(written: seq<Artifact>, summaryRequested: bool)

  /** The stage gate: which files a run writes for given stage outcomes. */
  function Pipeline(audioExists: bool, whisper: WhisperOutcome, chat: string -> OllamaOutcome): PipelineRun {
    AfterTranscription(TranscribeAudio(InputAudioFile, audioExists, whisper).text, chat)
  }

  /** The run from the transcription stage's result on: an error string or a blank transcript stops it. */
  function AfterTranscription(transcript: string, chat: string -> OllamaOutcome): PipelineRun {
    if StartsWith(transcript, ErrorMarker) || IsBlank(transcript) then PipelineRun([], false)
    else
      var summary := SummarizeText(transcript, chat);
      PipelineRun([Artifact(TranscriptPath, transcript)] + (if StartsWith(summary, ErrorMarker) then [] else [Artifact(SummaryPath, summary)]), true)
  }

  /** `main_pipeline`: transcribe the recording, then let the stages run from its result. */
  method MainPipeline(audioExists: bool, whisper: WhisperOutcome, chat: string -> OllamaOutcome)
    returns (written: seq<Artifact>, summaryRequested: bool)
    ensures PipelineRun(written, summaryRequested) == Pipeline(audioExists, whisper, chat)
  {
    var transcribedText := TranscribeAudio(InputAudioFile, audioExists, whisper).text;
    written, summaryRequested := RunStages(transcribedText, chat);
  }

  /**
   * The part of `main_pipeline` after transcription: each stage's result decides whether the run
   * goes on, and files are appended to `written` as they are written.
   */
  method RunStages(transcribedText: string, chat: string -> OllamaOutcome)
    returns (written: seq<Artifact>, summaryRequested: bool)
    ensures PipelineRun(written, summaryRequested) == AfterTranscription(transcribedText, chat)
  {
    written := [];
    summaryRequested := false;
    if StartsWith(transcribedText, ErrorMarker) {
      return;
    }
    StripEmptyIffBlank(transcribedText);
    if Strip(transcribedText) == "" {
      return;
    }
    written := written + [Artifact(TranscriptPath, transcribedText)];
    summaryRequested := true;
    var summaryResult := SummarizeText(transcribedText, chat);
    if StartsWith(summaryResult, ErrorMarker) {
      assert written == [Artifact(TranscriptPath, transcribedText)] + [];
      return;
    }
    written := written + [Artifact(SummaryPath, summaryResult)];
  }

  lemma PrefixThenStartsWith(prefix: string, rest: string)
    requires StartsWith(prefix, ErrorMarker)
    ensures StartsWith(prefix + rest, ErrorMarker)
  {
    assert (prefix + rest)[..|ErrorMarker|] == prefix[..|ErrorMarker|];
  }

  /** Every error string `transcribe_audio` returns starts with the error marker; a missing file is reported before any model is loaded. */
  lemma TranscriptionErrorsMarked(filePath: string, fileExists: bool, whisper: WhisperOutcome)
    requires !fileExists || whisper.WhisperRaised?
    ensures StartsWith(TranscribeAudio(filePath, fileExists, whisper).text, ErrorMarker)
    ensures !fileExists ==> !TranscribeAudio(filePath, fileExists, whisper).modelLoaded
  {
    if !fileExists {
      PrefixThenStartsWith(MissingAudioPrefix, filePath);
    } else {
      PrefixThenStartsWith(SpeechErrorPrefix, whisper.error);
    }
  }

  /** A failed Ollama call always yields a marked error string. */
  lemma SummaryErrorsMarked(text: string, chat: string -> OllamaOutcome)
    requires chat(SummaryPrompt(text)).OllamaRaised?
    ensures StartsWith(SummarizeText(text, chat), ErrorMarker)
  {
    PrefixThenStartsWith(OllamaErrorPrefix, chat(SummaryPrompt(text)).error);
  }

  /** The prompt holds the text verbatim, between an opening and a closing `---` line. */
  lemma SummaryPromptEmbedsText(text: string)
    ensures var opening := |SummaryInstructions|;
      var at := opening + |Marker| + |SourceHeader|;
      OccursAt(SummaryPrompt(text), Marker, opening)
      && OccursAt(SummaryPrompt(text), text, at)
      && OccursAt(SummaryPrompt(text), Marker, at + |text| + |LineIndent|)
  {
    var opening := |SummaryInstructions|;
    var at := opening + |Marker| + |SourceHeader|;
    var closing := at + |text| + |LineIndent|;
    OccursAfter(SummaryInstructions, Marker);
    OccursExtend(SummaryInstructions + Marker, SourceHeader, Marker, opening);
    OccursExtend(SummaryInstructions + Marker + SourceHeader, text, Marker, opening);
    OccursAfter(SummaryInstructions + Marker + SourceHeader, text);
    var upToText := SummaryInstructions + Marker + SourceHeader + text;
    OccursExtend(upToText, LineIndent, Marker, opening);
    OccursExtend(upToText, LineIndent, text, at);
    OccursExtend(upToText + LineIndent, Marker, Marker, opening);
    OccursExtend(upToText + LineIndent, Marker, text, at);
    OccursAfter(upToText + LineIndent, Marker);
    var upToClose := upToText + LineIndent + Marker;
    OccursExtend(upToClose, Closing, Marker, opening);
    OccursExtend(upToClose, Closing, text, at);
    OccursExtend(upToClose, Closing, Marker, closing);
  }

  /** A missing recording or a failed transcription stops the run before anything is written or summarised. */
  lemma TranscriptionErrorHalts(audioExists: bool, whisper: WhisperOutcome, chat: string -> OllamaOutcome)
    requires !audioExists || whisper.WhisperRaised?
    ensures Pipeline(audioExists, whisper, chat) == PipelineRun([], false)
  {
    TranscriptionErrorsMarked(InputAudioFile, audioExists, whisper);
  }

  /** Errors are recognised by prefix only: a genuine transcript starting with the marker halts the run like an error. */
  lemma MarkedTranscriptHalts(text: string, chat: string -> OllamaOutcome)
    requires StartsWith(text, ErrorMarker)
    ensures Pipeline(true, Transcribed(text), chat) == PipelineRun([], false)
  {}

  /** A transcript of whitespace only stops the run with nothing written. */
  lemma BlankTranscriptHalts(text: string, chat: string -> OllamaOutcome)
    requires IsBlank(text)
    ensures Pipeline(true, Transcribed(text), chat) == PipelineRun([], false)
  {}

  /** Once a summary is requested the transcript is already written, and it is the first file. */
  lemma TranscriptWrittenFirst(audioExists: bool, whisper: WhisperOutcome, chat: string -> OllamaOutcome)
    ensures var run := Pipeline(audioExists, whisper, chat);
      (run.summaryRequested <==> run.written != [])
      && (run.written != [] ==> run.written[0].path == TranscriptPath)
      && (|run.written| == 2 ==> run.written[1].path == SummaryPath)
      && |run.written| <= 2
  {}

  /** A failed summary leaves exactly one file: the transcript. */
  lemma SummaryErrorLeavesTranscriptOnly(text: string, chat: string -> OllamaOutcome)
    requires !StartsWith(text, ErrorMarker) && !IsBlank(text)
    requires chat(SummaryPrompt(text)).OllamaRaised?
    ensures Pipeline(true, Transcribed(text), chat) == PipelineRun([Artifact(TranscriptPath, text)], true)
  {
    SummaryErrorsMarked(text, chat);
  }

  /** A run where every stage succeeds writes the transcript and then the model's summary. */
  lemma SuccessfulRunWritesBoth(text: string, summary: string, chat: string -> OllamaOutcome)
    requires !StartsWith(text, ErrorMarker) && !IsBlank(text)
    requires chat(SummaryPrompt(text)) == Replied(summary) && !StartsWith(summary, ErrorMarker)
    ensures Pipeline(true, Transcribed(text), chat).written
         == [Artifact(TranscriptPath, text), Artifact(SummaryPath, summary)]
  {}
}
