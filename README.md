# ruach-api transcription gateway: a Dafny model of the recent-history store and the transcribe handler

The gateway takes an uploaded audio clip on `POST /transcribe` and stages it in a temporary file. It converts the clip to a 16 kHz mono waveform with ffmpeg and sends the waveform to a Whisper-style engine. It rejects results longer than the duration limit. Finally it records the result in a bounded list of recent transcriptions and answers with the text, the duration and the segments.

This project models the two parts of the repository that carry logic.

- **The recent-history ledger** (`store/recent.go`, module `Store`). A class `RecentStore` holds the bbolt bucket as a map. The ledger is the list stored under the key `"list"`, and a missing key reads as the empty list. `Add` runs in one transaction. It reads the list, puts the new record in front, keeps the first 10 entries and writes the list back. If the transaction does not commit (a marshalling error, a failed `Put` or a failed commit), the bucket keeps its old contents. `GetAll` reads the list without changing anything. The JSON encoding of the list is modelled as the list itself.
- **The transcribe handler** (`handler/transcribe.go`, module `Handler`). Each external step is an input outcome carried by a `World` value:
  - the multipart parse behind `MaxBytesReader`;
  - the `file` part;
  - `os.Create`;
  - `io.Copy`;
  - the ffmpeg exit status;
  - the engine call;
  - the store's commit.

  The UUID, the temp directory and the clock readings are inputs too. The method `Handler.Transcribe` follows the source's early returns. Like Go's `defer`, it keeps a stack of deferred calls and unwinds it last-registered-first at every exit. It also tracks the files in the temp directory. The method is proved equal to the reference function `Handler.Expected`, which is defined differently: the request runs the seven gates up to the first one that fails, answers with that gate's error, and removes both temp paths once the temp file exists. The lemmas in `HandlerProperties` state the handler's promises about `Expected`.

Supporting modules:
- `FilePath`: `filepath.Ext` and `filepath.Join`, which name the temp files.
- `Fmt`: the `%.0f` verb used in the duration message.
- `Service`: the engine's response types.
- `Configuration`: the limits set by `config.Load`.
- `Wrappers`: `Option` and `Outcome`.

Behaviour of the code worth noting:
- The ledger's capacity is the literal 10 in `Add`. `Config.RecentLimit` is never read.
- An oversized body is answered with 400, not 413. Every parse failure gets the message "file too large, max 2MB", including a body that is not a multipart form. The message is fixed text and does not follow `MaxFileSize`.
- A failed copy of the upload into the temp file is a 500 "server error".

## Model

| member | source | states |
|---|---|---|
| `Store.Prepend` | store/recent.go:26-32 | the list written back has the new record first, then the old entries in their old order; its length is min(old length + 1, 10) |
| `Store.RecentStore.constructor` | store/db.go:20-24 | a freshly created bucket has no key and reads as the empty ledger |
| `Store.RecentStore.Add` | store/recent.go:19-42 | one atomic step: on commit the `"list"` key holds `Prepend(t, old ledger)` and nothing else in the bucket changes; without a commit the bucket is unchanged; reports whether it committed |
| `Store.RecentStore.GetAll` | store/recent.go:45-53 | returns the current ledger without changing it; empty when the key was never written |
| `Store.ReadBeforeWriteIsEmpty` | store/recent.go:55-62 | reading a bucket where `"list"` was never written gives the empty list |
| `Store.ReplayKeepsNewest` | store/recent.go:18-42 | starting from an empty store, N committed Adds leave exactly the last min(N, 10) records added, newest first |
| `Store.RetainedUntilEvicted` | store/recent.go:29-32 | the j-th record added sits behind the records added after it until 10 later records have pushed it out |
| `Store.AddKeepsOrder` | store/recent.go:26-32 | after an Add, entry i + 1 is the old entry i: nothing is reordered or altered |
| `Store.ReadBackAfterAdd` | store/recent.go:34-40 | the first record read back after a committed Add is the record added, field for field |
| `FilePath.ExtShape` | handler/transcribe.go:54 | the extension of the upload's file name is empty or a dot followed by no other dot and no separator, and it is a suffix of the name |
| `FilePath.ExtFindsLastElementDot` | handler/transcribe.go:54 | the extension is non-empty exactly when some dot of the name lies in its last path element |
| `FilePath.JoinInjective` | handler/transcribe.go:54-55 | joining one directory with two different plain names (non-empty, no separator, not "." or "..") gives two different paths |
| `Fmt.Decimal` | handler/transcribe.go:101 | a whole number prints as at least one decimal digit, with no leading zero |
| `Fmt.DecimalRoundTrip` | handler/transcribe.go:101 | reading the printed digits back gives the number |
| `Fmt.RoundHalfEven` | handler/transcribe.go:101 | `%.0f` rounds to a whole number at most 1/2 away, and picks the even one on a tie |
| `Fmt.FormatWhole` | handler/transcribe.go:101 | a whole-number limit prints as its own digits |
| `Handler.FirstFailureFrom` | handler/transcribe.go:36-105 | the gate where the request stops: every earlier gate passed and this one failed, or no gate failed |
| `Handler.Unwind` | handler/transcribe.go:49-64 | deferred calls run in reverse order of registration |
| `Handler.RunCleanup` | handler/transcribe.go:63-64 | after the deferred calls, the temp directory holds the old files minus every removed path |
| `Handler.StagedCleanup` | handler/transcribe.go:63-64 | once the temp file exists, the unwound calls remove the waveform path, then the input path, then close the upload, leaving neither path |
| `Handler.Reject` | handler/transcribe.go:131-135 | writing the error of the failing gate and returning gives the reference trace |
| `Handler.Succeed` | handler/transcribe.go:121-127 | the success answer plus the deferred calls gives the reference trace |
| `Handler.Transcribe` | handler/transcribe.go:31-129 | the handler's trace (response, steps run, deferred calls run, temp files left, record handed to the store) equals `Expected`; the store changes only when the record was stored, and then by `Prepend` |
| `HandlerProperties.TempPathsDistinct` | handler/transcribe.go:52-55 | for a UUID in its text form, the input path and the waveform path always differ, and both begin with the temp directory joined with the UUID |
| `HandlerProperties.DefaultDurationMessage` | handler/transcribe.go:99-105 | with the configured 30-second limit the message is "audio too long, max 30 seconds" |
| `HandlerProperties.ParseFailureStops` | handler/transcribe.go:36-42 | a parse failure gives 400 "file too large, max 2MB"; no later step runs, no file is touched, nothing is recorded |
| `HandlerProperties.AdmissionBoundary` | handler/transcribe.go:36-42 | a well-formed body passes admission exactly when its size is at most `MaxFileSize` |
| `HandlerProperties.MissingFileStops` | handler/transcribe.go:44-48 | a form without a `file` part gives 400 "missing audio file"; no temp file is created and no later step runs |
| `HandlerProperties.CreateFailureStops` | handler/transcribe.go:58-62 | a failed create gives 500 "server error"; only the upload is closed and there is nothing to remove |
| `HandlerProperties.StagedRequestsCleanUp` | handler/transcribe.go:58-71 | for a UUID in its text form, once the create succeeds, every exit, success or error, removes both distinct temp paths, and neither is left |
| `HandlerProperties.CopyFailureStops` | handler/transcribe.go:66-70 | a failed copy gives 500 "server error" and conversion never runs |
| `HandlerProperties.ConversionFailureStops` | handler/transcribe.go:82-88 | a nonzero ffmpeg exit gives 400 "audio conversion failed"; the engine is never called and nothing is recorded |
| `HandlerProperties.UpstreamFailureStops` | handler/transcribe.go:91-96 | an engine failure gives 500 "transcription failed" and nothing is recorded |
| `HandlerProperties.DurationLimit` | handler/transcribe.go:99-105 | a duration strictly above the limit gives 400 naming the limit, with nothing recorded; a duration equal to the limit succeeds |
| `HandlerProperties.SuccessResponse` | handler/transcribe.go:107-127 | on success exactly one record (UUID, text, duration, elapsed time) goes to the store, and the answer is 200 with text, duration and segments whatever the store does |
| `HandlerProperties.AppendOnlyOnSuccess` | handler/transcribe.go:107-118 | a record reaches the store if and only if the answer is 200, and it is stored if and only if the store also commits |
| `HandlerProperties.StoreOutcomeInvisible` | handler/transcribe.go:116-118 | the store's commit or failure changes neither the response nor the steps run nor the cleanup nor the temp files |
| `HandlerProperties.FirstFailureDependsOnlyOnGates` | handler/transcribe.go:36-105 | two requests whose gates all agree stop at the same gate |
| `HandlerProperties.StepsRunInOrder` | handler/transcribe.go:36-127 | the steps run are always a prefix of the full run; an error answer comes from the last step run, and every earlier step passed |

## Left out

- The engine client (`service/whisper.go`: building the multipart body, the HTTP POST, decoding the JSON). The handler sees only its decoded response or a failure.
- The ffmpeg invocation and its captured output. Only its exit status is an input. A failed conversion is assumed to leave no waveform file; the waveform path is removed on every exit either way.
- The handler's own log output: the ffmpeg output and error, the engine error and the ignored store error (handler/transcribe.go:83, 85, 93, 117).
- Routing, CORS, logging, the request timeout, the global throttle and the per-IP rate limit (`main.go`), and the `/recent` and `/health` handlers.
- Concurrency between requests. Each `Add` is one atomic step, as the bbolt write transaction makes it.
- Opening and closing the database (`store/db.go`). The store starts with an empty bucket. Re-running the idempotent bucket creation is not modelled.
- Loading the configuration from the environment. Only the limits are modelled.
- Wall-clock time. The elapsed processing time and the `CreatedAt` timestamp are inputs.
- JSON encoding of the ledger is the identity. So the model does not capture:
  - a marshalling failure for a non-finite duration (reals have no NaN);
  - `getAll` ignoring a corrupt blob;
  - `GetAll` returning a nil list, which the `/recent` handler encodes as `null` rather than `[]`.
- Durations are exact reals, not 64-bit floats.
- Go's lexical clean-up inside `filepath.Join`. `JoinInjective` is stated for plain names, which the clean-up leaves unchanged. `TempPathsDistinct` shows that both names joined to the temp directory are plain whenever the UUID has its text form (`IsUuid`).
- The explicit close of the temp file after the copy, and panics. A panic would run the same deferred calls.
- The contents of the uploaded bytes. Only the file name of the `file` part matters to the model.
