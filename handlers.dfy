/**
 * The two synthesis endpoints: POST /api/tts (one text) and POST
 * /api/batch-tts (a list of texts run one after another).
 */
module Handlers {
  import opened Wrappers
  import Decimal
  import Paths
  import opened Settings
  import opened Storage
  import opened Synthesis

  /** The JSON body after binding, or the binding error gin reports. */
  datatype Bound<T> = BindError(detail: string) | Bound(value: T)

  datatype TtsRequest = TtsRequest(text: string, voice: string, language: string, format: string)
  datatype BatchRequest = BatchRequest(texts: seq<string>, voice: string, language: string, format: string)

  /** The fields both endpoints default. */
  datatype Options = Options(language: string, voice: string, format: string)

  datatype TtsResponse = TtsResponse(status: int, success: bool, message: string, filename: string, duration: string)

  /** One element of the batch `results` array; absent JSON keys are None. */
  datatype BatchItem = BatchItem(index: int, text: string, filename: string, success: bool,
                                 error: Option<string>, downloadUrl: Option<string>)

  datatype BatchResponse =
    | BatchRejected(error: string)
    | BatchDone(results: seq<BatchItem>, total: int, successCount: int, failedCount: int, duration: string)
  {
    function Status(): int {
      if BatchDone? then 200 else 400
    }
  }

  const DefaultLanguage: string := "zh-CN"
  const DefaultVoice: string := "zh-CN-XiaoxiaoNeural"
  const DefaultFormat: string := "wav"

  const BadRequest: string := "请求参数错误: "
  const RequiredText: string := "Key: 'TTSRequest.Text' Error:Field validation for 'Text' failed on the 'required' tag"
  const NotConfigured: string := "服务未配置，请设置 SPEECH_KEY 和 SPEECH_REGION 环境变量"
  const SynthesisFailed: string := "语音合成失败: "
  const FileNotGenerated: string := "语音文件生成失败"
  const SynthesisSucceeded: string := "语音合成成功"
  const EmptyTexts: string := "文本列表不能为空"

  // ------------------------------------------------------------ defaulting

  /** Empty fields take the service defaults; fields the client set are kept. */
  function Defaulted(o: Options): (r: Options)
    ensures r.language != "" && r.voice != "" && r.format != ""
    ensures o.language != "" ==> r.language == o.language
    ensures o.voice != "" ==> r.voice == o.voice
    ensures o.format != "" ==> r.format == o.format
    ensures o.language == "" ==> r.language == DefaultLanguage
    ensures o.voice == "" ==> r.voice == DefaultVoice
    ensures o.format == "" ==> r.format == DefaultFormat
  {
    Options(if o.language == "" then DefaultLanguage else o.language,
            if o.voice == "" then DefaultVoice else o.voice,
            if o.format == "" then DefaultFormat else o.format)
  }

  // ------------------------------------------------------------- file names

  /** The file of a single request: "tts_" + timestamp + "." + format. */
  function TtsFilename(timestamp: string, format: string): (name: string)
    ensures |name| == 5 + |timestamp| + |format| && name[..4] == "tts_"
  {
    "tts_" + timestamp + "." + format
  }

  /** The file of batch item i (0-based): "batch_" + (i+1) + "_" + timestamp + "." + format. */
  function BatchFilename(i: nat, timestamp: string, format: string): (name: string)
    ensures |name| > 7 && name[..6] == "batch_"
  {
    "batch_" + Decimal.NatToDecimal(i + 1) + "_" + timestamp + "." + format
  }

  /** The 1-based index in a batch file name makes the names of distinct items distinct,
      whatever their timestamps and formats. */
  lemma BatchFilenamesDistinct(i: nat, j: nat, ts1: string, ts2: string, f1: string, f2: string)
    requires i != j
    ensures BatchFilename(i, ts1, f1) != BatchFilename(j, ts2, f2)
  {
    var a, b := Decimal.NatToDecimal(i + 1), Decimal.NatToDecimal(j + 1);
    var s, t := BatchFilename(i, ts1, f1), BatchFilename(j, ts2, f2);
    assert s[6..6 + |a|] == a && s[6 + |a|] == '_';
    assert t[6..6 + |b|] == b && t[6 + |b|] == '_';
    if |a| == |b| {
      assert a != b;
      var p :| 0 <= p < |a| && a[p] != b[p];
      assert s[6 + p] != t[6 + p];
    } else if |a| < |b| {
      assert Decimal.IsDigit(b[|a|]) && t[6 + |a|] == b[|a|];
    } else {
      assert Decimal.IsDigit(a[|b|]) && s[6 + |b|] == a[|b|];
    }
  }

  /** Single-request files and batch files never share a name. */
  lemma TtsAndBatchNamesDiffer(i: nat, ts1: string, ts2: string, f1: string, f2: string)
    ensures TtsFilename(ts1, f1) != BatchFilename(i, ts2, f2)
  {
    assert TtsFilename(ts1, f1)[0] == 't';
    assert BatchFilename(i, ts2, f2)[0] == 'b';
  }

  /** A generated file is later served with the type its format names. */
  lemma GeneratedNamesContentType(i: nat, timestamp: string, format: string)
    requires Paths.NoDotOrSeparator(format)
    ensures var expected := if format == "wav" then ContentTypeWav else if format == "mp3" then ContentTypeMp3 else ContentTypeOther;
      ContentType(TtsFilename(timestamp, format)) == expected && ContentType(BatchFilename(i, timestamp, format)) == expected
  {
    ContentTypeOfFormat("tts_" + timestamp, format);
    ContentTypeOfFormat("batch_" + Decimal.NatToDecimal(i + 1) + "_" + timestamp, format);
  }

  // -------------------------------------------------------- single request

  function OptionsOf(req: TtsRequest): Options {
    Options(req.language, req.voice, req.format)
  }

  /**
   * POST /api/tts: binding (text required), the credential check, defaults,
   * the file name, synthesis, and a final check that the file exists.
   */
  method TextToSpeech(config: Config, store: Store, speech: SpeechService,
                      body: Bound<TtsRequest>, timestamp: string, elapsed: string)
    returns (resp: TtsResponse)
    modifies store, speech
    ensures resp.success <==> resp.status == 200
    ensures resp.status == 400 <==> body.BindError? || body.value.text == ""
    ensures body.BindError? ==> resp == TtsResponse(400, false, BadRequest + body.detail, "", "")
    ensures body.Bound? && body.value.text == "" ==> resp == TtsResponse(400, false, BadRequest + RequiredText, "", "")
    ensures resp.status == 503 <==> body.Bound? && body.value.text != "" && !Configured(config)
    ensures resp.status == 503 ==> resp.message == NotConfigured
    ensures resp.status == 400 || resp.status == 503 ==>
      store.files == old(store.files) && speech.calls == old(speech.calls)
    ensures body.Bound? && body.value.text != "" && Configured(config) ==>
      var d := Defaulted(OptionsOf(body.value));
      var name := TtsFilename(timestamp, d.format);
      var call := CallFor(body.value.text, d.language, d.voice, d.format, name);
      var err := AdapterError(store.faults, d.format, name, speech.respond(call));
      && store.files == Put(old(store.files), name, Written(store.faults, d.format, name, speech.respond(call)))
      && speech.calls == old(speech.calls) + (if store.faults.mkdirErr(name).None? then [call] else [])
      && (err.Some? ==> resp == TtsResponse(500, false, SynthesisFailed + ErrorText(err.value), "", ""))
      && (err.None? && name !in store.files ==> resp == TtsResponse(500, false, FileNotGenerated, "", ""))
      && (err.None? && name in store.files ==> resp == TtsResponse(200, true, SynthesisSucceeded, name, elapsed))
      && (InMemory(d.format) ==> (resp.status == 200 <==> err.None?))
    ensures resp.status == 200 ==> Download(resp.filename, store.files).Served?
  {
    if body.BindError? {
      return TtsResponse(400, false, BadRequest + body.detail, "", "");
    }
    var req := body.value;
    if req.text == "" {
      return TtsResponse(400, false, BadRequest + RequiredText, "", "");
    }

    if config.speechKey == "" || config.speechRegion == "" {
      return TtsResponse(503, false, NotConfigured, "", "");
    }

    if req.language == "" {
      req := req.(language := DefaultLanguage);
    }
    if req.voice == "" {
      req := req.(voice := DefaultVoice);
    }
    if req.format == "" {
      req := req.(format := DefaultFormat);
    }
    assert OptionsOf(req) == Defaulted(OptionsOf(body.value));

    var filename := TtsFilename(timestamp, req.format);
    var err := SynthesizeToFile(store, speech, req.text, req.language, req.voice, req.format, filename);
    if err.Some? {
      return TtsResponse(500, false, SynthesisFailed + ErrorText(err.value), "", "");
    }

    if filename !in store.files {
      return TtsResponse(500, false, FileNotGenerated, "", "");
    }
    resp := TtsResponse(200, true, SynthesisSucceeded, filename, elapsed);
  }

  // ------------------------------------------------------------------ batch

  function BatchOptions(req: BatchRequest): Options {
    Options(req.language, req.voice, req.format)
  }

  /** The file name and provider call of batch item i, whose timestamp is clock(i). */
  function ItemName(d: Options, clock: nat -> string, i: nat): string {
    BatchFilename(i, clock(i), d.format)
  }

  function ItemCall(d: Options, texts: seq<string>, clock: nat -> string, i: nat): SynthesisCall
    requires i < |texts|
  {
    CallFor(texts[i], d.language, d.voice, d.format, ItemName(d, clock, i))
  }

  function ItemOutcome(respond: SynthesisCall -> Outcome, d: Options, texts: seq<string>, clock: nat -> string, i: nat): Outcome
    requires i < |texts|
  {
    respond(ItemCall(d, texts, clock, i))
  }

  /** The result entry of batch item i: success exactly when its synthesis returned no error,
      a download link only on success and an error text only on failure. */
  function ItemResult(faults: Faults, respond: SynthesisCall -> Outcome, d: Options,
                      texts: seq<string>, clock: nat -> string, i: nat): (item: BatchItem)
    requires i < |texts|
    ensures item.index == i + 1 && item.text == texts[i] && item.filename == ItemName(d, clock, i)
    ensures item.success <==> AdapterError(faults, d.format, ItemName(d, clock, i), ItemOutcome(respond, d, texts, clock, i)).None?
    ensures item.downloadUrl.Some? <==> item.success
    ensures item.error.Some? <==> !item.success
    ensures item.success ==> item.downloadUrl.value == DownloadPrefix + item.filename
    ensures !item.success ==>
      var err := AdapterError(faults, d.format, ItemName(d, clock, i), ItemOutcome(respond, d, texts, clock, i));
      item.error == Some(ErrorText(err.value))
  {
    var name := ItemName(d, clock, i);
    var err := AdapterError(faults, d.format, ItemName(d, clock, i), ItemOutcome(respond, d, texts, clock, i));
    if err.Some? then BatchItem(i + 1, texts[i], name, false, Some(ErrorText(err.value)), None)
    else BatchItem(i + 1, texts[i], name, true, None, Some(DownloadPrefix + name))
  }

  /** The result entries of the first n items, in input order. */
  function BatchResults(faults: Faults, respond: SynthesisCall -> Outcome, d: Options,
                        texts: seq<string>, clock: nat -> string, n: nat): (r: seq<BatchItem>)
    requires n <= |texts|
    ensures |r| == n
  {
    if n == 0 then []
    else BatchResults(faults, respond, d, texts, clock, n - 1) + [ItemResult(faults, respond, d, texts, clock, n - 1)]
  }

  /** Entry k of the results is item k's own result, whatever the other items did. */
  lemma {:induction false} BatchResultsAt(faults: Faults, respond: SynthesisCall -> Outcome, d: Options,
                                          texts: seq<string>, clock: nat -> string, n: nat, k: nat)
    requires k < n <= |texts|
    ensures BatchResults(faults, respond, d, texts, clock, n)[k] == ItemResult(faults, respond, d, texts, clock, k)
  {
    if k < n - 1 {
      BatchResultsAt(faults, respond, d, texts, clock, n - 1, k);
    }
  }

  /** The store after the first n items of a batch have run. */
  function BatchFiles(files: map<string, Bytes>, faults: Faults, respond: SynthesisCall -> Outcome,
                      d: Options, texts: seq<string>, clock: nat -> string, n: nat): map<string, Bytes>
    requires n <= |texts|
  {
    if n == 0 then files
    else Put(BatchFiles(files, faults, respond, d, texts, clock, n - 1), ItemName(d, clock, n - 1),
             Written(faults, d.format, ItemName(d, clock, n - 1), ItemOutcome(respond, d, texts, clock, n - 1)))
  }

  /**
   * The provider calls made by the first n items, in order: one for each item
   * whose output directory could be made.
   */
  function BatchCalls(faults: Faults, d: Options, texts: seq<string>, clock: nat -> string, n: nat): seq<SynthesisCall>
    requires n <= |texts|
  {
    if n == 0 then []
    else
      var made := faults.mkdirErr(ItemName(d, clock, n - 1)).None?;
      BatchCalls(faults, d, texts, clock, n - 1) + (if made then [ItemCall(d, texts, clock, n - 1)] else [])
  }

  /** The number of successful entries. */
  function Succeeded(results: seq<BatchItem>): nat {
    if results == [] then 0
    else Succeeded(results[..|results| - 1]) + if results[|results| - 1].success then 1 else 0
  }

  /** The number of failed entries. */
  function Failed(results: seq<BatchItem>): nat {
    if results == [] then 0
    else Failed(results[..|results| - 1]) + if results[|results| - 1].success then 0 else 1
  }

  /** Every entry is counted once, as a success or as a failure. */
  lemma {:induction false} SucceededPlusFailed(results: seq<BatchItem>)
    ensures Succeeded(results) + Failed(results) == |results|
  {
    if results != [] {
      SucceededPlusFailed(results[..|results| - 1]);
    }
  }

  /** When exactly entry k failed, the batch reports one failure and |results| - 1 successes. */
  lemma {:induction false} OneFailure(results: seq<BatchItem>, k: nat)
    requires k < |results|
    requires forall i :: 0 <= i < |results| ==> (results[i].success <==> i != k)
    ensures Failed(results) == 1 && Succeeded(results) == |results| - 1
  {
    var prefix := results[..|results| - 1];
    if k < |results| - 1 {
      OneFailure(prefix, k);
    } else {
      AllSucceeded(prefix);
    }
  }

  lemma {:induction false} AllSucceeded(results: seq<BatchItem>)
    requires forall i :: 0 <= i < |results| ==> results[i].success
    ensures Failed(results) == 0 && Succeeded(results) == |results|
  {
    if results != [] {
      AllSucceeded(results[..|results| - 1]);
    }
  }

  /**
   * Later items never overwrite an earlier item's file: after n items, the file
   * of every item k < n holds exactly what k's synthesis left there, if anything.
   */
  lemma {:induction false} BatchFilesHoldEachItem(files: map<string, Bytes>, faults: Faults,
                                                   respond: SynthesisCall -> Outcome, d: Options,
                                                   texts: seq<string>, clock: nat -> string, n: nat, k: nat)
    requires k < n <= |texts|
    ensures var w := Written(faults, d.format, ItemName(d, clock, k), ItemOutcome(respond, d, texts, clock, k));
      var after := BatchFiles(files, faults, respond, d, texts, clock, n);
      w.Some? ==> ItemName(d, clock, k) in after && after[ItemName(d, clock, k)] == w.value
  {
    var lastName := ItemName(d, clock, n - 1);
    var lastWritten := Written(faults, d.format, lastName, ItemOutcome(respond, d, texts, clock, n - 1));
    var before := BatchFiles(files, faults, respond, d, texts, clock, n - 1);
    assert BatchFiles(files, faults, respond, d, texts, clock, n) == Put(before, lastName, lastWritten);
    if k < n - 1 {
      BatchFilesHoldEachItem(files, faults, respond, d, texts, clock, n - 1, k);
      BatchFilenamesDistinct(k, n - 1, clock(k), clock(n - 1), d.format, d.format);
    }
  }

  /** Files whose names no item of the batch uses are left as they were. */
  lemma {:induction false} BatchFilesKeepOthers(files: map<string, Bytes>, faults: Faults,
                                                 respond: SynthesisCall -> Outcome, d: Options,
                                                 texts: seq<string>, clock: nat -> string, n: nat, name: string)
    requires n <= |texts|
    requires forall i :: 0 <= i < n ==> ItemName(d, clock, i) != name
    ensures var after := BatchFiles(files, faults, respond, d, texts, clock, n);
      (name in after <==> name in files) && (name in files ==> after[name] == files[name])
  {
    if n > 0 {
      BatchFilesKeepOthers(files, faults, respond, d, texts, clock, n - 1, name);
    }
  }

  /**
   * One pass of the batch loop: item i is synthesised into its own file, its
   * entry is appended to the results and counted when it succeeded.
   */
  method RunBatchItem(store: Store, speech: SpeechService, d: Options, texts: seq<string>, clock: nat -> string,
                      i: nat, results: seq<BatchItem>, successCount: nat,
                      ghost initialFiles: map<string, Bytes>, ghost initialCalls: seq<SynthesisCall>)
    returns (results': seq<BatchItem>, successCount': nat)
    requires i < |texts|
    requires results == BatchResults(store.faults, speech.respond, d, texts, clock, i)
    requires successCount == Succeeded(results)
    requires store.files == BatchFiles(initialFiles, store.faults, speech.respond, d, texts, clock, i)
    requires speech.calls == initialCalls + BatchCalls(store.faults, d, texts, clock, i)
    modifies store, speech
    ensures results' == BatchResults(store.faults, speech.respond, d, texts, clock, i + 1)
    ensures successCount' == Succeeded(results')
    ensures store.files == BatchFiles(initialFiles, store.faults, speech.respond, d, texts, clock, i + 1)
    ensures speech.calls == initialCalls + BatchCalls(store.faults, d, texts, clock, i + 1)
  {
    var text := texts[i];
    var timestamp := clock(i);
    var filename := BatchFilename(i, timestamp, d.format);
    assert filename == ItemName(d, clock, i);
    var err := SynthesizeToFile(store, speech, text, d.language, d.voice, d.format, filename);

    var result: BatchItem;
    successCount' := successCount;
    if err.Some? {
      result := BatchItem(i + 1, text, filename, false, Some(ErrorText(err.value)), None);
    } else {
      result := BatchItem(i + 1, text, filename, true, None, Some(DownloadPrefix + filename));
      successCount' := successCount' + 1;
    }
    results' := results + [result];

    assert result == ItemResult(store.faults, speech.respond, d, texts, clock, i);
    assert results'[..|results'| - 1] == results;
    assert speech.calls == initialCalls + (BatchCalls(store.faults, d, texts, clock, i) +
      if store.faults.mkdirErr(filename).None? then [ItemCall(d, texts, clock, i)] else []);
  }

  /** The batch loop: every text in input order, a failing item never stopping the next. */
  method RunBatch(store: Store, speech: SpeechService, d: Options, texts: seq<string>, clock: nat -> string)
    returns (results: seq<BatchItem>, successCount: nat)
    modifies store, speech
    ensures results == BatchResults(store.faults, speech.respond, d, texts, clock, |texts|)
    ensures successCount == Succeeded(results) && |texts| - successCount == Failed(results)
    ensures store.files == BatchFiles(old(store.files), store.faults, speech.respond, d, texts, clock, |texts|)
    ensures speech.calls == old(speech.calls) + BatchCalls(store.faults, d, texts, clock, |texts|)
  {
    results := [];
    successCount := 0;
    assert speech.calls == old(speech.calls) + BatchCalls(store.faults, d, texts, clock, 0);
    var i := 0;
    while i < |texts|
      invariant 0 <= i <= |texts|
      invariant results == BatchResults(store.faults, speech.respond, d, texts, clock, i)
      invariant successCount == Succeeded(results)
      invariant store.files == BatchFiles(old(store.files), store.faults, speech.respond, d, texts, clock, i)
      invariant speech.calls == old(speech.calls) + BatchCalls(store.faults, d, texts, clock, i)
    {
      results, successCount := RunBatchItem(store, speech, d, texts, clock, i,
                                            results, successCount, old(store.files), old(speech.calls));
      i := i + 1;
    }
    SucceededPlusFailed(results);
  }

  /**
   * POST /api/batch-tts: binding, the non-empty check, defaults, then every
   * text in order; a failing item is recorded and the loop goes on.
   */
  method BatchTextToSpeech(store: Store, speech: SpeechService, body: Bound<BatchRequest>,
                           clock: nat -> string, elapsed: string)
    returns (resp: BatchResponse)
    modifies store, speech
    ensures body.BindError? ==> resp == BatchRejected(BadRequest + body.detail)
    ensures body.Bound? && body.value.texts == [] ==> resp == BatchRejected(EmptyTexts)
    ensures resp.Status() == 400 ==> store.files == old(store.files) && speech.calls == old(speech.calls)
    ensures body.Bound? && body.value.texts != [] ==>
      var texts := body.value.texts;
      var d := Defaulted(BatchOptions(body.value));
      && resp.BatchDone?
      && |resp.results| == resp.total == |texts|
      && resp.results == BatchResults(store.faults, speech.respond, d, texts, clock, |texts|)
      && resp.successCount == Succeeded(resp.results)
      && resp.failedCount == Failed(resp.results)
      && resp.successCount + resp.failedCount == resp.total
      && resp.duration == elapsed
      && store.files == BatchFiles(old(store.files), store.faults, speech.respond, d, texts, clock, |texts|)
      && speech.calls == old(speech.calls) + BatchCalls(store.faults, d, texts, clock, |texts|)
  {
    if body.BindError? {
      return BatchRejected(BadRequest + body.detail);
    }
    var req := body.value;
    if |req.texts| == 0 {
      return BatchRejected(EmptyTexts);
    }

    if req.language == "" {
      req := req.(language := DefaultLanguage);
    }
    if req.voice == "" {
      req := req.(voice := DefaultVoice);
    }
    if req.format == "" {
      req := req.(format := DefaultFormat);
    }
    assert BatchOptions(req) == Defaulted(BatchOptions(body.value));

    var results, successCount := RunBatch(store, speech, BatchOptions(req), req.texts, clock);
    resp := BatchDone(results, |req.texts|, successCount, |req.texts| - successCount, elapsed);
  }
}
