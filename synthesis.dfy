/**
 * The synthesis adapter: one text is spoken by the speech provider and the
 * audio lands at a file of the output store. The provider is an oracle from
 * the call it receives to the outcome it reports.
 */
module Synthesis {
  import opened Wrappers
  import opened Storage

  /** The provider's output encodings the adapter selects. */
  datatype OutputFormat = Riff16Khz16BitMonoPcm | Audio16Khz32KBitRateMonoMp3

  /** Where the provider sends audio: the default speaker (kept in memory) or a WAV file. */
  datatype AudioSink = DefaultSpeakerOutput | WavFileOutput(path: string)

  /** Everything the provider is told for one synthesis. */
  datatype SynthesisCall = SynthesisCall(text: string, language: string, voice: string,
                                         outputFormat: OutputFormat, sink: AudioSink)

  /** The provider objects the adapter builds before speaking, each of which can fail. */
  datatype SetupStage = SpeechConfigStage | AudioConfigStage | SynthesizerStage

  /** The result reason; `shown` is how any other reason is rendered in an error message. */
  datatype ResultReason = SynthesizingAudioCompleted | OtherReason(shown: string)

  /**
   * What the provider reports: a failure while building its objects, or the
   * outcome of speaking: an error, the result reason, the in-memory audio, and
   * whatever it left at the WAV file it was bound to.
   */
  datatype Outcome =
    | SetupFailed(stage: SetupStage, detail: string)
    | Spoken(error: Option<string>, reason: ResultReason, audioData: Bytes, wavFile: Option<Bytes>)

  /** The errors the adapter returns, one per early return. */
  datatype SynthError =
    | MkdirFailed(detail: string)
    | SetupError(stage: SetupStage, detail: string)
    | SpeakFailed(detail: string)
    | NotCompleted(reason: ResultReason)
    | EmptyAudio
    | Mp3WriteFailed(detail: string)

  /** The provider's or the filesystem's own message an error wraps, if it wraps one. */
  function Detail(e: SynthError): Option<string> {
    match e
    case MkdirFailed(d) => Some(d)
    case SetupError(_, d) => Some(d)
    case SpeakFailed(d) => Some(d)
    case NotCompleted(r) => if r.OtherReason? then Some(r.shown) else None
    case EmptyAudio => None
    case Mp3WriteFailed(d) => Some(d)
  }

  /** `t` is some non-empty text followed by `suffix`. */
  predicate EndsWith(t: string, suffix: string) {
    |suffix| < |t| && t[|t| - |suffix|..] == suffix
  }

  /** Both errors come from the same step of the adapter. */
  predicate SameStep(e1: SynthError, e2: SynthError) {
    && e1.MkdirFailed? == e2.MkdirFailed?
    && e1.SetupError? == e2.SetupError?
    && (e1.SetupError? && e2.SetupError? ==> e1.stage == e2.stage)
    && e1.SpeakFailed? == e2.SpeakFailed?
    && e1.NotCompleted? == e2.NotCompleted?
    && e1.EmptyAudio? == e2.EmptyAudio?
    && e1.Mp3WriteFailed? == e2.Mp3WriteFailed?
  }

  /**
   * The error text err.Error() carries: a message naming the failed step,
   * followed by the wrapped message, if any.
   */
  function ErrorText(e: SynthError): (t: string)
    ensures |t| > 0
    ensures Detail(e).Some? ==> EndsWith(t, Detail(e).value)
  {
    match e
    case MkdirFailed(d) => "创建输出目录失败: " + d
    case SetupError(SpeechConfigStage, d) => "创建语音配置失败: " + d
    case SetupError(AudioConfigStage, d) => "创建音频配置失败: " + d
    case SetupError(SynthesizerStage, d) => "创建语音合成器失败: " + d
    case SpeakFailed(d) => "语音合成失败: " + d
    case NotCompleted(r) => "语音合成未完成: " + (if r.OtherReason? then r.shown else "SynthesizingAudioCompleted")
    case EmptyAudio => "生成的音频数据为空"
    case Mp3WriteFailed(d) => "保存MP3文件失败: " + d
  }

  /** The error text names the step that failed: texts of different steps never coincide. */
  lemma ErrorTextNamesStep(e1: SynthError, e2: SynthError)
    requires ErrorText(e1) == ErrorText(e2)
    ensures SameStep(e1, e2)
  {
    ErrorTextOpening(e1);
    ErrorTextOpening(e2);
  }

  /** The first five characters of each step's text. */
  function Opening(e: SynthError): string {
    match e
    case MkdirFailed(_) => "创建输出目"
    case SetupError(SpeechConfigStage, _) => "创建语音配"
    case SetupError(AudioConfigStage, _) => "创建音频配"
    case SetupError(SynthesizerStage, _) => "创建语音合"
    case SpeakFailed(_) => "语音合成失"
    case NotCompleted(_) => "语音合成未"
    case EmptyAudio => "生成的音频"
    case Mp3WriteFailed(_) => "保存MP3"
  }

  lemma ErrorTextOpening(e: SynthError)
    ensures |ErrorText(e)| >= 5 && ErrorText(e)[..5] == Opening(e)
  {
  }

  /** Only "mp3" is synthesised in memory; every other format string streams to a WAV file. */
  predicate InMemory(format: string) {
    format == "mp3"
  }

  /** The call the adapter makes for a request; the sink depends on the format alone. */
  function CallFor(text: string, language: string, voice: string, format: string, name: string): (c: SynthesisCall)
    ensures c.text == text && c.language == language && c.voice == voice
    ensures c.outputFormat == Audio16Khz32KBitRateMonoMp3 <==> InMemory(format)
    ensures c.sink == DefaultSpeakerOutput <==> InMemory(format)
    ensures c.sink.WavFileOutput? ==> c.sink.path == name
  {
    var outputFormat := match format
      case "wav" => Riff16Khz16BitMonoPcm
      case "mp3" => Audio16Khz32KBitRateMonoMp3
      case _ => Riff16Khz16BitMonoPcm;
    var sink := if format == "mp3" then DefaultSpeakerOutput else WavFileOutput(name);
    SynthesisCall(text, language, voice, outputFormat, sink)
  }

  /** The error the adapter returns, given the filesystem's answers and the provider's outcome. */
  function AdapterError(faults: Faults, format: string, name: string, o: Outcome): (r: Option<SynthError>)
    ensures faults.mkdirErr(name).Some? ==> r == Some(MkdirFailed(faults.mkdirErr(name).value))
    ensures r.None? <==>
      && faults.mkdirErr(name).None?
      && o.Spoken? && o.error.None? && o.reason == SynthesizingAudioCompleted
      && (InMemory(format) ==> |o.audioData| > 0 && faults.writeErr(name).None?)
    ensures r == Some(EmptyAudio) ==> InMemory(format)
  {
    if faults.mkdirErr(name).Some? then Some(MkdirFailed(faults.mkdirErr(name).value))
    else match o
      case SetupFailed(stage, d) => Some(SetupError(stage, d))
      case Spoken(error, reason, audioData, _) =>
        if error.Some? then Some(SpeakFailed(error.value))
        else if reason != SynthesizingAudioCompleted then Some(NotCompleted(reason))
        else if format == "mp3" then
          if |audioData| == 0 then Some(EmptyAudio)
          else if faults.writeErr(name).Some? then Some(Mp3WriteFailed(faults.writeErr(name).value))
          else None
        else None
  }

  /**
   * Which error the adapter returns: the first failing step, in the order the
   * adapter runs them, wrapping that step's own provider or filesystem message.
   */
  lemma AdapterErrorNamesStep(faults: Faults, format: string, name: string, o: Outcome)
    ensures var r := AdapterError(faults, format, name, o);
      && (faults.mkdirErr(name).None? && o.SetupFailed? ==> r == Some(SetupError(o.stage, o.detail)))
      && (faults.mkdirErr(name).None? && o.Spoken? && o.error.Some? ==> r == Some(SpeakFailed(o.error.value)))
      && (faults.mkdirErr(name).None? && o.Spoken? && o.error.None? && o.reason != SynthesizingAudioCompleted ==>
            r == Some(NotCompleted(o.reason)))
      && (&& faults.mkdirErr(name).None? && InMemory(format)
          && o.Spoken? && o.error.None? && o.reason == SynthesizingAudioCompleted && |o.audioData| == 0
          ==> r == Some(EmptyAudio))
      && (&& faults.mkdirErr(name).None? && InMemory(format)
          && o.Spoken? && o.error.None? && o.reason == SynthesizingAudioCompleted && |o.audioData| > 0
          && faults.writeErr(name).Some?
          ==> r == Some(Mp3WriteFailed(faults.writeErr(name).value)))
  {
  }

  /** What the adapter leaves at the target file (None: the file is not touched). */
  function Written(faults: Faults, format: string, name: string, o: Outcome): (w: Option<Bytes>)
    ensures faults.mkdirErr(name).Some? ==> w.None?
    ensures InMemory(format) ==> (w.Some? <==> AdapterError(faults, format, name, o).None?)
    ensures InMemory(format) && w.Some? ==> w.value == o.audioData && |w.value| > 0
    ensures !InMemory(format) && faults.mkdirErr(name).None? ==> w == (if o.Spoken? then o.wavFile else None)
  {
    if faults.mkdirErr(name).Some? then None
    else if format == "mp3" then
      if AdapterError(faults, format, name, o).None? then Some(o.audioData) else None
    else if o.Spoken? then o.wavFile
    else None
  }

  /** The speech provider: answers each call by its oracle and keeps a log of the calls it received. */
  class SpeechService {
    const respond: SynthesisCall -> Outcome
    ghost var calls: seq<SynthesisCall>

    constructor (respond: SynthesisCall -> Outcome)
      ensures this.respond == respond && calls == []
    {
      this.respond := respond;
      calls := [];
    }

    method Speak(call: SynthesisCall) returns (o: Outcome)
      modifies this
      ensures o == respond(call)
      ensures calls == old(calls) + [call]
    {
      o := respond(call);
      calls := calls + [call];
    }
  }

  /**
   * Synthesises `text` into the store file `name`: the directory is created
   * first, then the provider is called once; mp3 audio is written by hand.
   */
  method SynthesizeToFile(store: Store, speech: SpeechService,
                          text: string, language: string, voice: string, format: string, name: string)
    returns (err: Option<SynthError>)
    modifies store, speech
    ensures var o := speech.respond(CallFor(text, language, voice, format, name));
      && err == AdapterError(store.faults, format, name, o)
      && store.files == Put(old(store.files), name, Written(store.faults, format, name, o))
    ensures speech.calls == old(speech.calls) +
      if store.faults.mkdirErr(name).None? then [CallFor(text, language, voice, format, name)] else []
  {
    var mkdirErr := store.MkdirAll(name);
    if mkdirErr.Some? {
      return Some(MkdirFailed(mkdirErr.value));
    }

    var call := CallFor(text, language, voice, format, name);
    var outcome := speech.Speak(call);
    if outcome.SetupFailed? {
      return Some(SetupError(outcome.stage, outcome.detail));
    }
    if call.sink.WavFileOutput? && outcome.wavFile.Some? {
      store.Deposit(name, outcome.wavFile.value);
    }

    if outcome.error.Some? {
      return Some(SpeakFailed(outcome.error.value));
    }
    if outcome.reason != SynthesizingAudioCompleted {
      return Some(NotCompleted(outcome.reason));
    }

    if format == "mp3" {
      var audioData := outcome.audioData;
      if |audioData| == 0 {
        return Some(EmptyAudio);
      }
      var writeErr := store.WriteFile(name, audioData);
      if writeErr.Some? {
        return Some(Mp3WriteFailed(writeErr.value));
      }
    }
    return None;
  }
}
