# Azure text-to-speech HTTP service: a Dafny model

This project models the HTTP text-to-speech service of `api/main.go`. The service takes text, has a
cloud speech provider synthesise it, stores the audio as a `.wav` or `.mp3` file in a flat
output directory, and lets clients list and download those files. The model covers these parts:

- **Configuration and health** (`Settings`): `getEnv`, the configuration assembled at start-up,
  and `GET /api/health`. Health is 503 `unhealthy` with an `error` entry exactly when the speech
  key or region is empty, and 200 `healthy` otherwise.
- **Output store** (`Storage`): the directory is a `Store` object whose `files` map the handlers
  update. Its answers to `os.MkdirAll` and `os.WriteFile` can be errors, and they are given per
  target file, so one item of a batch can fail where the next succeeds.
  - `GET /api/files` is an imperative loop over the `os.ReadDir` entries. It is proved equal to a
    reference listing: the first `limit` non-directory entries whose extension is exactly
    `.wav` or `.mp3`, in enumeration order.
  - `GET /api/download/:filename` gives 400 for an empty name and 404 for a missing file.
    Otherwise it serves the file with an `attachment` disposition and a Content-Type taken from
    the extension.
- **Synthesis adapter** (`Synthesis`): `synthesizeToFile`, with the Azure SDK replaced by a
  `SpeechService` object.
  - The provider answers each call through an oracle and keeps a ghost log of the calls it
    received.
  - The adapter creates the directory before any provider call.
  - `"mp3"` is synthesised in memory and written by hand; empty audio is an error. Every other
    format string streams to a WAV file.
  - A provider error, or a result reason other than `SynthesizingAudioCompleted`, is an error.
- **Handlers** (`Handlers`): `POST /api/tts` and `POST /api/batch-tts`.
  - Both fill empty language, voice and format fields with defaults.
  - Files are named `tts_<ts>.<fmt>` for a single request and `batch_<i+1>_<ts>.<fmt>` for a
    batch item.
  - A single request maps bind errors to 400, missing credentials to 503, and synthesis or
    missing-file failures to 500.
  - A batch runs every text in order and isolates failures per item. It counts successes and
    failures and answers 200 for any non-empty list.
- **Decimal text and paths** (`Decimal`, `Paths`): the `%d` formatting, `strconv.Atoi` and
  `filepath.Ext` behaviour the handlers depend on.

The main proved properties:

- The listing returns at most `max(limit, 0)` entries. They are a prefix of all audio entries in
  directory order, each comes from a non-directory `.wav`/`.mp3` entry, and every one of them can
  be downloaded.
- `limit` is 50 when absent or not an integer, and parsing the decimal text of any 64-bit
  integer gives it back.
- Batch file names of distinct items never collide, whatever the timestamps. So after a batch,
  each item's file holds exactly what its own synthesis wrote.
- `success_count + failed_count = total`, and exactly one failing item gives `failed_count = 1`.
- A successful single request leaves a downloadable file. For `mp3` that file holds exactly the
  provider's audio.

Notable behaviours of the code, which the model follows:

- After synthesis the single request checks only that the file exists (`os.Stat`), not that it
  is non-empty.
- `format` is never validated. Any string other than `"mp3"` takes the WAV path but keeps its own
  extension in the file name.
- The batch handler never checks credentials and never rejects an individual empty text.
- A negative `limit` is accepted: nothing is listed and the negative value is echoed.
- An empty `text` is rejected by gin's `required` binding with 400, before the credential check.

## Model

| member | source | states |
|---|---|---|
| `Settings.GetEnv` | api/main.go:81-86 | the variable's value when it is set and non-empty, the default otherwise |
| `Settings.LoadConfig` | api/main.go:45-50 | output directory and port always non-empty (defaults `/app/output`, `8080`) |
| `Settings.ConfiguredFromEnvironment` | api/main.go:45-47 | the loaded configuration has credentials iff `SPEECH_KEY` and `SPEECH_REGION` are both set non-empty |
| `Settings.HealthCheck` | api/main.go:89-108 | 503 with status `unhealthy` and the `error` entry iff key or region is empty, else 200 `healthy` without `error`; the other keys carry time, version, service, region, output dir |
| `Decimal.NatToDecimal` | api/main.go:395 | `%d` text is non-empty, all digits, has no leading zero and denotes the number |
| `Decimal.Atoi` | api/main.go:227 | a value only for an optional '+' or '-' followed by one or more digits, equal to the signed digits' value and inside Go's 64-bit int; empty or sign-only text is an error; unsigned, '+' and '-' digit strings in range give their value |
| `Decimal.AtoiOfDecimal` | api/main.go:226-229 | parsing the decimal text of any 64-bit integer yields that integer |
| `Decimal.NatToDecimalInjective` | api/main.go:395 | distinct indices have distinct decimal texts |
| `Paths.DotIndex` | api/main.go:210 | the scan stops at the last '.' of the last path element, with no '.' or '/' after it, or reports none when every '.' is followed by '/' |
| `Paths.Ext` | api/main.go:248 | the extension is a suffix of the name and starts with '.' when non-empty |
| `Paths.ExtHasOneDot` | api/main.go:248 | a non-empty extension holds no further '.' or '/' |
| `Paths.ExtEmptyWithoutDot` | api/main.go:248 | the extension is empty only when the last path element has no '.' |
| `Paths.ExtOfSuffix` | api/main.go:143 | a name ending in "." + format (format free of '.' and '/') has extension "." + format |
| `Storage.Store.MkdirAll` | api/main.go:272-275 | directory creation reports the filesystem's answer for the target being produced |
| `Storage.Store.WriteFile` | api/main.go:346-349 | reports the filesystem's answer for that file; a successful write replaces the whole file, a failed one leaves the directory unchanged |
| `Storage.Store.Deposit` | api/main.go:309 | the WAV file the provider streams replaces the named file |
| `Storage.Put` | api/main.go:346 | the written file holds exactly the data, nothing is added besides it, every other file keeps its presence and contents, and no data leaves the directory unchanged |
| `Storage.Qualifying` | api/main.go:242-259 | the audio entries in directory order, never more than the entries |
| `Storage.QualifyingAppend` | api/main.go:242 | listing a concatenation lists the parts in order (enumeration order is kept) |
| `Storage.QualifyingMembers` | api/main.go:247-258 | a file is listed iff some non-directory `.wav`/`.mp3` entry yields it, with `download_url` "/api/download/" + name |
| `Storage.QualifyingStep` | api/main.go:247-258 | one more entry extends the listing by its description exactly when it is audio |
| `Storage.DescribeLinksToEntry` | api/main.go:251-256 | a listing entry carries its directory entry's name, size and time, and its `download_url` is "/api/download/" followed by exactly that name |
| `Storage.ParseLimit` | api/main.go:225-230 | `limit` is 50 when the query is absent or not an integer, else the parsed integer |
| `Storage.Listed` | api/main.go:241-245 | at most max(limit, 0) files, exactly min(max(limit, 0), audio entries), a prefix of the full audio listing |
| `Storage.TakenIsListed` | api/main.go:242-245 | files collected until the end or until `limit` are the listing |
| `Storage.ListedAreAudio` | api/main.go:247-255 | each listed file is a non-directory entry with extension `.wav`/`.mp3`, its listed size, and link "/api/download/" + name |
| `Storage.CollectAudio` | api/main.go:239-260 | the scan that stops before the next entry once `limit` files are taken returns exactly the listing |
| `Storage.ListAudioFiles` | api/main.go:224-267 | unreadable directory gives the 500 error; otherwise `files` is the listing, `total` its length, `limit` the parsed limit |
| `Storage.ContentType` | api/main.go:210-218 | `audio/wav` iff extension `.wav`, `audio/mpeg` iff `.mp3`, `application/octet-stream` iff neither |
| `Storage.Download` | api/main.go:185-221 | 400 iff the name is empty and 404 iff non-empty and absent, each with its fixed error text; 200 iff present, with the stored bytes, `attachment; filename=` + name and the extension's Content-Type |
| `Storage.ContentTypeOfFormat` | api/main.go:210-218 | a name ending in "." + format is served as `audio/wav` for wav, `audio/mpeg` for mp3, octet-stream otherwise |
| `Storage.ListedAreDownloadable` | api/main.go:196-218 | when the listing reflects the store, every listed file downloads with its listed size and an audio Content-Type |
| `Synthesis.ErrorText` | api/main.go:274-348 | every adapter error has a non-empty message that ends with the wrapped provider or filesystem message, when there is one |
| `Synthesis.ErrorTextNamesStep` | api/main.go:274-348 | messages of different steps (directory, speech config, audio config, synthesizer, speaking, incomplete result, empty audio, mp3 write) never coincide |
| `Synthesis.CallFor` | api/main.go:285-313 | the provider gets the text, language and voice; mp3 encoding and the in-memory sink iff format is "mp3", else RIFF PCM into the target WAV file |
| `Synthesis.AdapterError` | api/main.go:270-353 | directory failure for the target is reported first; no error iff the directory exists, the provider spoke without error, reason completed and, for mp3, audio non-empty and write succeeded |
| `Synthesis.AdapterErrorNamesStep` | api/main.go:278-350 | once the directory exists, the error is that of the first failing step, in the adapter's order: setup stage with its message, speaking error with the provider's message, an incomplete result with its reason, then for mp3 empty audio, then the write error with the filesystem's message |
| `Synthesis.Written` | api/main.go:301-350 | nothing is written after a directory failure; for mp3 the file gets exactly the non-empty audio iff there is no error; otherwise whatever the provider streamed |
| `Synthesis.SpeechService.Speak` | api/main.go:324-328 | the outcome is the oracle's answer to the call, and the call is logged |
| `Synthesis.SynthesizeToFile` | api/main.go:270-353 | returns `AdapterError` and leaves `Written` at the target, every other file unchanged; the provider is called once, and never when the directory cannot be created |
| `Handlers.Defaulted` | api/main.go:131-139 | empty fields get `zh-CN`, `zh-CN-XiaoxiaoNeural`, `wav`; non-empty fields are unchanged |
| `Handlers.TtsFilename` | api/main.go:142-143 | the name starts with `tts_` and has length 5 + timestamp + format |
| `Handlers.BatchFilename` | api/main.go:394-395 | the name starts with `batch_` |
| `Handlers.BatchFilenamesDistinct` | api/main.go:394-395 | items with different indices get different names, whatever their timestamps and formats |
| `Handlers.TtsAndBatchNamesDiffer` | api/main.go:143 | single-request and batch names never coincide |
| `Handlers.GeneratedNamesContentType` | api/main.go:143 | generated tts and batch files are later served with their format's Content-Type |
| `Handlers.TextToSpeech` | api/main.go:111-182 | 400 iff bind error or empty text, with the bind detail or the required-text message; 503 iff bound, non-empty and unconfigured, both with no store change and no provider call; otherwise 500 on adapter error or missing file, 200 with `tts_<ts>.<fmt>` and a downloadable file |
| `Handlers.ItemResult` | api/main.go:400-413 | entry i has index i+1, its text and name; success iff its synthesis returned no error; `download_url` is "/api/download/" + name on success; on failure `error` is the adapter error's text |
| `Handlers.BatchResults` | api/main.go:393-416 | one entry per processed item |
| `Handlers.BatchResultsAt` | api/main.go:393-416 | entry k is item k's own result, whatever other items did |
| `Handlers.SucceededPlusFailed` | api/main.go:420-425 | every entry is counted once, as a success or a failure |
| `Handlers.OneFailure` | api/main.go:405-424 | if exactly entry k fails, one failure and n-1 successes are reported |
| `Handlers.BatchFilesHoldEachItem` | api/main.go:393-398 | later items never overwrite an earlier item's file |
| `Handlers.BatchFilesKeepOthers` | api/main.go:393-398 | files no item names are left untouched |
| `Handlers.RunBatchItem` | api/main.go:394-415 | one loop pass appends item i's entry, counts it on success, writes its file and logs its call |
| `Handlers.RunBatch` | api/main.go:389-416 | all items in input order; `success_count` counts successes and `len - success_count` equals the failures |
| `Handlers.BatchTextToSpeech` | api/main.go:356-427 | 400 on bind error or empty list, with no store change; otherwise 200 with `len(texts)` results in order, counts summing to `total`, and the store and call log of all items |

## Left out

- The Azure Speech SDK is not modelled. `SpeechService` is an oracle from the call to the outcome.
  - Errors while building the SDK objects are reported as a setup-stage outcome.
  - The WAV bytes the SDK leaves at its target file are part of the outcome.
  - The `defer Close()` calls, the wait on the result channel and the playback through the
    default speaker on the mp3 path are not modelled.
- The provider answers every identical call identically. Nondeterministic provider failures
  are not modelled.
- gin is not modelled: the router, CORS middleware, JSON rendering and `c.File` streaming, and
  the `/` documentation endpoint. JSON binding is an input that is either a bound request or a
  bind error. A missing `texts` key is one such bind error. An empty result list renders as JSON
  `null` in Go, and that rendering is not modelled.
- `init()` directory bootstrapping, the home-directory fallback and the write test are not
  modelled. `LoadConfig` covers only the configuration values.
- There is no real clock. Timestamps are inputs: one for a single request, and `clock(i)` for
  batch item i. Durations are opaque strings passed in.
- The store is keyed by file name, and `filepath.Join`/`Clean` are not modelled. A `format` or a
  download name containing `/` or `..` escapes the output directory in the source; the model does
  not capture that.
- `os.ReadDir` sorts entries by name, but the model takes the enumeration order as given.
- Directories as download targets are not modelled.
- `os.Stat` errors other than "does not exist" are not modelled, and neither is the
  nil-pointer panic when `file.Info()` fails in the listing.
- `Storage.Store.MkdirAll`, `Storage.Store.WriteFile`: the filesystem's answers are a function of
  the target file name. Each batch item has its own name, so its answers are independent of the
  other items'. Two attempts at the same name, such as single requests within the same second,
  get the same answer.
- `Storage.Store.WriteFile`: a failed write is modelled as leaving the directory unchanged.
  A partially written or truncated file is not modelled.
- The error strings of the provider, the filesystem and `%v` of a result reason are opaque detail
  strings.
- Logging with `fmt.Printf` is not modelled.
- Concurrency is not modelled. Each handler runs alone against the store, so same-second
  collisions between concurrent single requests are only visible as an existing file of the same
  name.
- `azure_speech_demo.go`, `main.go`, `translate.go` and `text_to_speech.go` are not part of this
  model. They are interactive or one-shot demos: microphone recognition, a translation call, and
  a scripted loop that duplicates the batch loop.
