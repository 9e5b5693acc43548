/** handler/transcribe.go: the POST /transcribe handler. It is a strictly
    sequential pipeline with early returns: parse the form, take the "file"
    part, stage it in a temporary file, convert it, call the engine, check
    the duration, record the result (best effort) and respond. Every
    external step is an input outcome here; the request's deferred cleanup
    is a stack unwound at each return. */
module Handler {
  import opened Wrappers
  import opened Configuration
  import opened FilePath
  import opened Fmt
  import opened Service
  import opened Store

  const StatusOK: int := 200
  const StatusBadRequest: int := 400
  const StatusInternalServerError: int := 500

  /** The error messages the handler writes. */
  const TooLargeMessage: string := "file too large, max 2MB"
  const MissingFileMessage: string := "missing audio file"
  const ServerErrorMessage: string := "server error"
  const ConversionFailedMessage: string := "audio conversion failed"
  const TranscriptionFailedMessage: string := "transcription failed"

  /** What the handler sees of the request: the body size, whether the body
      parses as a multipart form, and the file name of its "file" part, if any. */
  datatype Request = Request(bodySize: nat, multipartOk: bool, upload: Option<string>)

  /** Everything else the handler depends on: the temp directory, the fresh
      UUID, the files already in the temp directory, the outcome of each
      external step, and the clock readings used for the record. */
  datatype World = World(
    tmpDir: string,
    tmpID: string,
    files: set<string>,
    create: Outcome,
    copy: Outcome,
    convert: Outcome,
    upstream: UpstreamResult,
    commit: Commit,
    elapsed: real,
    now: int)

  /** The steps of the pipeline, in order. */
  datatype Step =
    | ParseForm | ExtractFile | CreateTemp | CopyUpload | Convert
    | CallUpstream | CheckDuration | StoreAdd | Respond

  /** The steps that can end the request early, in the order they run. */
  const Gates: seq<Step> :=
    [ParseForm, ExtractFile, CreateTemp, CopyUpload, Convert, CallUpstream, CheckDuration]

  /** The steps of a request that passes every gate. */
  const FullRun: seq<Step> := Gates + [StoreAdd, Respond]

  /** A deferred call: closing the uploaded part, or removing a path. */
  datatype Cleanup = CloseUpload | Remove(path: string)

  datatype Body =
    | ErrorBody(error: string)
    | TranscribeBody(text: string, duration: real, processingTime: real, segments: seq<Segment>)

  datatype Response = Response(status: int, body: Body)

  /** What one request did: its response, the steps it ran, the deferred
      calls run at its end (in the order they ran), the temp directory's
      files afterwards, the record handed to store.Add, and whether that
      Add committed. */
  datatype Trace = Trace(
    response: Response,
    ran: seq<Step>,
    cleanup: seq<Cleanup>,
    files: set<string>,
    appended: Option<Transcription>,
    stored: bool)

  /** The text form of uuid.New(): 36 lower-case hexadecimal digits and dashes. */
  predicate IsUuid(id: string)
  {
    |id| == 36 && forall i :: 0 <= i < |id| ==> id[i] in "0123456789abcdef-"
  }

  /** ParseMultipartForm behind MaxBytesReader succeeds: the body is no
      larger than the limit and is a well-formed multipart form. */
  predicate Admitted(cfg: Config, req: Request)
  {
    req.bodySize <= cfg.maxFileSize && req.multipartOk
  }

  /** Where the upload is staged: the UUID plus the upload's extension. */
  function InputPath(w: World, filename: string): string
  {
    Join(w.tmpDir, w.tmpID + Ext(filename))
  }

  /** Where the converter writes the waveform. */
  function WavPath(w: World): string
  {
    Join(w.tmpDir, w.tmpID + "_out.wav")
  }

  function DurationMessage(limit: real): string
  {
    "audio too long, max " + FormatFixed0(limit) + " seconds"
  }

  /** Whether step s lets the request go on. */
  predicate Passes(cfg: Config, req: Request, w: World, s: Step)
  {
    match s
    case ParseForm => Admitted(cfg, req)
    case ExtractFile => req.upload.Some?
    case CreateTemp => w.create == Ok
    case CopyUpload => w.copy == Ok
    case Convert => w.convert == Ok
    case CallUpstream => w.upstream.Transcribed?
    case CheckDuration => !(w.upstream.Transcribed? && w.upstream.response.duration > cfg.maxDuration)
    case StoreAdd => true
    case Respond => true
  }

  /** The index of the first gate from i on that stops the request, or
      |Gates| when none does. */
  function FirstFailureFrom(cfg: Config, req: Request, w: World, i: nat): (k: nat)
    requires i <= |Gates|
    ensures i <= k <= |Gates|
    ensures forall j :: i <= j < k ==> Passes(cfg, req, w, Gates[j])
    ensures k < |Gates| ==> !Passes(cfg, req, w, Gates[k])
    decreases |Gates| - i
  {
    if i == |Gates| || !Passes(cfg, req, w, Gates[i]) then i
    else FirstFailureFrom(cfg, req, w, i + 1)
  }

  function FirstFailure(cfg: Config, req: Request, w: World): nat
  {
    FirstFailureFrom(cfg, req, w, 0)
  }

  /** The error response of each gate. */
  function ErrorFor(cfg: Config, s: Step): Response
    requires s in Gates
  {
    if s == ParseForm then Response(StatusBadRequest, ErrorBody(TooLargeMessage))
    else if s == ExtractFile then Response(StatusBadRequest, ErrorBody(MissingFileMessage))
    else if s == CreateTemp || s == CopyUpload then Response(StatusInternalServerError, ErrorBody(ServerErrorMessage))
    else if s == Convert then Response(StatusBadRequest, ErrorBody(ConversionFailedMessage))
    else if s == CallUpstream then Response(StatusInternalServerError, ErrorBody(TranscriptionFailedMessage))
    else Response(StatusBadRequest, ErrorBody(DurationMessage(cfg.maxDuration)))
  }

  /** Go runs deferred calls last-registered first. */
  function Unwind(stack: seq<Cleanup>): (order: seq<Cleanup>)
    ensures |order| == |stack|
    ensures forall i :: 0 <= i < |stack| ==> order[i] == stack[|stack| - 1 - i]
  {
    if stack == [] then [] else [stack[|stack| - 1]] + Unwind(stack[..|stack| - 1])
  }

  /** The paths some action removes. */
  function RemovedPaths(actions: seq<Cleanup>): set<string>
  {
    set c | c in actions && c.Remove? :: c.path
  }

  /** The files left after running the actions; removing a missing file is
      an ignored error. */
  function RunCleanup(actions: seq<Cleanup>, files: set<string>): (after: set<string>)
    ensures after == files - RemovedPaths(actions)
  {
    if actions == [] then files
    else if actions[0].Remove? then RunCleanup(actions[1..], files - {actions[0].path})
    else RunCleanup(actions[1..], files)
  }

  /** Once the upload is staged, the deferred calls remove both temp paths,
      last registered first. */
  lemma StagedCleanup(files: set<string>, filename: string, w: World)
    ensures
      var input, wav := InputPath(w, filename), WavPath(w);
      var order := Unwind([CloseUpload, Remove(input), Remove(wav)]);
      order == [Remove(wav), Remove(input), CloseUpload] &&
      RunCleanup(order, files) == files - {input, wav}
  {
    var input, wav := InputPath(w, filename), WavPath(w);
    var order := Unwind([CloseUpload, Remove(input), Remove(wav)]);
    assert order == [Remove(wav), Remove(input), CloseUpload];
    assert RemovedPaths(order) == {input, wav};
  }

  /** The steps run by a request stopped at each gate. */
  lemma GatePrefixes()
    ensures Gates[0] == ParseForm && Gates[1] == ExtractFile && Gates[2] == CreateTemp
    ensures Gates[3] == CopyUpload && Gates[4] == Convert && Gates[5] == CallUpstream
    ensures Gates[6] == CheckDuration
    ensures Gates[..1] == [ParseForm]
    ensures Gates[..2] == [ParseForm, ExtractFile]
    ensures Gates[..3] == [ParseForm, ExtractFile, CreateTemp]
    ensures Gates[..4] == [ParseForm, ExtractFile, CreateTemp, CopyUpload]
    ensures Gates[..5] == [ParseForm, ExtractFile, CreateTemp, CopyUpload, Convert]
    ensures Gates[..6] == [ParseForm, ExtractFile, CreateTemp, CopyUpload, Convert, CallUpstream]
    ensures Gates[..7] == Gates
    ensures FullRun == Gates + [StoreAdd, Respond]
  {
  }

  /** A request's end: the deferred calls run, the trace is complete. */
  function Finish(response: Response, ran: seq<Step>, deferred: seq<Cleanup>, files: set<string>,
                  appended: Option<Transcription>, stored: bool): Trace
  {
    var order := Unwind(deferred);
    Trace(response, ran, order, RunCleanup(order, files), appended, stored)
  }

  /** The reference behaviour: the request runs the gates up to the first
      that fails and answers with that gate's error; once the temp file is
      created, both temp paths are removed on the way out; only a request
      that passes every gate hands a record to the store, and it answers
      with the transcription whether or not the store commits. */
  function Expected(cfg: Config, req: Request, w: World): Trace
  {
    var k := FirstFailure(cfg, req, w);
    var ran := if k < |Gates| then Gates[..k + 1] else FullRun;
    // k > 1: the "file" part was found; k > 2: the temp file was created
    var cleanup :=
      if k <= 1 then []
      else if k == 2 then [CloseUpload]
      else [Remove(WavPath(w)), Remove(InputPath(w, req.upload.value)), CloseUpload];
    var files :=
      if k <= 2 then w.files else w.files - {InputPath(w, req.upload.value), WavPath(w)};
    if k < |Gates| then
      Trace(ErrorFor(cfg, Gates[k]), ran, cleanup, files, None, false)
    else
      var r := w.upstream.response;
      var t := Transcription(w.tmpID, r.text, r.duration, w.elapsed, w.now);
      Trace(Response(StatusOK, TranscribeBody(r.text, r.duration, w.elapsed, r.segments)),
            ran, cleanup, files, Some(t), w.commit == Committed)
  }

  /** writeError with the error of gate k, then return: the deferred calls
      registered so far run. The caller has run the steps up to gate k,
      registered those deferred calls and created those temp files. */
  method Reject(cfg: Config, req: Request, w: World, k: nat,
                ran: seq<Step>, deferred: seq<Cleanup>, files: set<string>) returns (trace: Trace)
    requires FirstFailure(cfg, req, w) == k < |Gates|
    requires ran == Gates[..k + 1]
    requires k <= 2 ==> files == w.files
    requires k <= 1 ==> deferred == []
    requires k == 2 ==> deferred == [CloseUpload]
    requires k > 2 ==>
      req.upload.Some? &&
      var input, wav := InputPath(w, req.upload.value), WavPath(w);
      deferred == [CloseUpload, Remove(input), Remove(wav)] &&
      files - {input, wav} == w.files - {input, wav}
    ensures trace == Expected(cfg, req, w)
  {
    if k <= 1 {
      assert Unwind(deferred) == [];
    } else if k == 2 {
      assert Unwind(deferred) == [CloseUpload];
      assert RemovedPaths([CloseUpload]) == {};
    } else {
      StagedCleanup(files, req.upload.value, w);
    }
    trace := Finish(ErrorFor(cfg, Gates[k]), ran, deferred, files, None, false);
  }

  /** The success response: encode the transcription, then return: the
      deferred calls run. The caller has passed every gate and handed the
      record to the store, with the given outcome. */
  method Succeed(cfg: Config, req: Request, w: World, ran: seq<Step>,
                 deferred: seq<Cleanup>, files: set<string>, stored: bool) returns (trace: Trace)
    requires FirstFailure(cfg, req, w) == |Gates|
    requires ran == FullRun
    requires req.upload.Some? && w.upstream.Transcribed?
    requires
      var input, wav := InputPath(w, req.upload.value), WavPath(w);
      deferred == [CloseUpload, Remove(input), Remove(wav)] &&
      files - {input, wav} == w.files - {input, wav}
    requires stored == (w.commit == Committed)
    ensures trace == Expected(cfg, req, w)
  {
    StagedCleanup(files, req.upload.value, w);
    var r := w.upstream.response;
    var t := Transcription(w.tmpID, r.text, r.duration, w.elapsed, w.now);
    trace := Finish(Response(StatusOK, TranscribeBody(r.text, r.duration, w.elapsed, r.segments)),
                    ran, deferred, files, Some(t), stored);
  }

  /** The handler. Each early return writes an error and unwinds the
      deferred calls registered so far. */
  method Transcribe(cfg: Config, req: Request, w: World, store: RecentStore) returns (trace: Trace)
    modifies store
    ensures trace == Expected(cfg, req, w)
    ensures trace.stored ==>
      store.bucket == old(store.bucket)[ListKey := Prepend(trace.appended.value, old(store.Ledger()))]
    ensures !trace.stored ==> store.bucket == old(store.bucket)
  {
    GatePrefixes();
    var ran: seq<Step> := [ParseForm];
    var deferred: seq<Cleanup> := [];
    var files := w.files;

    if !Admitted(cfg, req) {
      trace := Reject(cfg, req, w, 0, ran, deferred, files);  // ParseForm
      return;
    }

    assert FirstFailure(cfg, req, w) == FirstFailureFrom(cfg, req, w, 1);
    ran := ran + [ExtractFile];
    if req.upload.None? {
      trace := Reject(cfg, req, w, 1, ran, deferred, files);  // ExtractFile
      return;
    }
    assert FirstFailure(cfg, req, w) == FirstFailureFrom(cfg, req, w, 2);
    deferred := deferred + [CloseUpload];

    var inputPath := InputPath(w, req.upload.value);
    var wavPath := WavPath(w);

    ran := ran + [CreateTemp];
    if w.create == Err {
      trace := Reject(cfg, req, w, 2, ran, deferred, files);  // CreateTemp
      return;
    }
    assert FirstFailure(cfg, req, w) == FirstFailureFrom(cfg, req, w, 3);
    files := files + {inputPath};
    deferred := deferred + [Remove(inputPath), Remove(wavPath)];
    assert deferred == [CloseUpload, Remove(inputPath), Remove(wavPath)];

    ran := ran + [CopyUpload];
    if w.copy == Err {
      trace := Reject(cfg, req, w, 3, ran, deferred, files);  // CopyUpload
      return;
    }

    assert FirstFailure(cfg, req, w) == FirstFailureFrom(cfg, req, w, 4);
    ran := ran + [Convert];
    if w.convert == Err {
      trace := Reject(cfg, req, w, 4, ran, deferred, files);  // Convert
      return;
    }
    assert FirstFailure(cfg, req, w) == FirstFailureFrom(cfg, req, w, 5);
    files := files + {wavPath};

    ran := ran + [CallUpstream];
    if w.upstream.UpstreamFailed? {
      trace := Reject(cfg, req, w, 5, ran, deferred, files);  // CallUpstream
      return;
    }
    assert FirstFailure(cfg, req, w) == FirstFailureFrom(cfg, req, w, 6);
    var result := w.upstream.response;

    ran := ran + [CheckDuration];
    if result.duration > cfg.maxDuration {
      trace := Reject(cfg, req, w, 6, ran, deferred, files);  // CheckDuration
      return;
    }

    assert FirstFailure(cfg, req, w) == |Gates|;
    var t := Transcription(w.tmpID, result.text, result.duration, w.elapsed, w.now);
    ran := ran + [StoreAdd];
    var ok := store.Add(t, w.commit);
    // a failed Add is only logged

    ran := ran + [Respond];
    trace := Succeed(cfg, req, w, ran, deferred, files, ok);
  }
}

/** What the handler promises, stated about its reference behaviour. */
module HandlerProperties {
  import opened Wrappers
  import opened Configuration
  import opened FilePath
  import opened Fmt
  import opened Service
  import opened Store
  import opened Handler

  /** The two temp paths differ, and both are named after the request's UUID.
      Both names joined to the temp directory are plain, so the statement
      does not depend on the clean-up Go's Join also performs. */
  lemma TempPathsDistinct(w: World, filename: string)
    requires IsUuid(w.tmpID)
    ensures InputPath(w, filename) != WavPath(w)
    ensures Join(w.tmpDir, w.tmpID) <= InputPath(w, filename)
    ensures Join(w.tmpDir, w.tmpID) <= WavPath(w)
  {
    var input, wav := w.tmpID + Ext(filename), w.tmpID + "_out.wav";
    ExtShape(filename);
    assert Separator !in w.tmpID by {
      forall i | 0 <= i < |w.tmpID|
        ensures w.tmpID[i] != Separator
      {
        assert w.tmpID[i] in "0123456789abcdef-";
      }
    }
    assert Separator !in input && Separator !in wav;
    if Ext(filename) == [] {
      assert |input| < |wav|;
    } else {
      assert input[|w.tmpID|] == '.' && wav[|w.tmpID|] == '_';
    }
    JoinInjective(w.tmpDir, input, wav);
  }

  /** With the configured limit the duration error reads "... max 30 seconds". */
  lemma DefaultDurationMessage()
    ensures DurationMessage(Default.maxDuration) == "audio too long, max 30 seconds"
  {
    FormatWhole(30);
    assert Decimal(30) == Decimal(3) + [Digit(0)];
  }

  /** A body the form parser rejects (too large or malformed) gets 400
      "file too large, max 2MB", and nothing after the parse runs. */
  lemma ParseFailureStops(cfg: Config, req: Request, w: World)
    requires !Admitted(cfg, req)
    ensures var t := Expected(cfg, req, w);
      t.response == Response(StatusBadRequest, ErrorBody("file too large, max 2MB")) &&
      t.ran == [ParseForm] && t.cleanup == [] && t.files == w.files &&
      t.appended == None && !t.stored
  {
  }

  /** A well-formed body of exactly the limit is admitted; one byte more is not. */
  lemma AdmissionBoundary(cfg: Config, req: Request, w: World)
    requires req.multipartOk
    ensures ExtractFile in Expected(cfg, req, w).ran <==> req.bodySize <= cfg.maxFileSize
  {
    GatePrefixes();
  }

  /** A form without a "file" part gets 400 "missing audio file"; no temp
      file is created and no later step runs. */
  lemma MissingFileStops(cfg: Config, req: Request, w: World)
    requires Admitted(cfg, req) && req.upload.None?
    ensures var t := Expected(cfg, req, w);
      t.response == Response(StatusBadRequest, ErrorBody("missing audio file")) &&
      t.ran == [ParseForm, ExtractFile] && t.cleanup == [] && t.files == w.files &&
      t.appended == None
  {
  }

  /** When the temp file cannot be created the answer is 500 "server error"
      and only the upload is closed: there is nothing to remove. */
  lemma CreateFailureStops(cfg: Config, req: Request, w: World)
    requires Admitted(cfg, req) && req.upload.Some? && w.create == Err
    ensures var t := Expected(cfg, req, w);
      t.response == Response(StatusInternalServerError, ErrorBody("server error")) &&
      t.ran == [ParseForm, ExtractFile, CreateTemp] && t.cleanup == [CloseUpload] &&
      t.files == w.files && t.appended == None
  {
  }

  /** Once the temp file is created, every way out, success or error,
      removes both temp paths (the waveform first), and neither is left. */
  lemma StagedRequestsCleanUp(cfg: Config, req: Request, w: World)
    requires Admitted(cfg, req) && req.upload.Some? && w.create == Ok
    requires IsUuid(w.tmpID)
    ensures var t := Expected(cfg, req, w);
      var input, wav := InputPath(w, req.upload.value), WavPath(w);
      t.cleanup == [Remove(wav), Remove(input), CloseUpload] &&
      input != wav && input !in t.files && wav !in t.files &&
      t.files == w.files - {input, wav}
  {
    TempPathsDistinct(w, req.upload.value);
  }

  /** A copy failure after the create is a 500 "server error", still cleaned up. */
  lemma CopyFailureStops(cfg: Config, req: Request, w: World)
    requires Admitted(cfg, req) && req.upload.Some? && w.create == Ok && w.copy == Err
    ensures var t := Expected(cfg, req, w);
      t.response == Response(StatusInternalServerError, ErrorBody("server error")) &&
      Convert !in t.ran && t.appended == None
  {
    GatePrefixes();
    assert FirstFailure(cfg, req, w) == 3;
  }

  /** A failed conversion is a 400 "audio conversion failed": the engine is
      never called and nothing is recorded. */
  lemma ConversionFailureStops(cfg: Config, req: Request, w: World)
    requires Admitted(cfg, req) && req.upload.Some? && w.create == Ok && w.copy == Ok
    requires w.convert == Err
    ensures var t := Expected(cfg, req, w);
      t.response == Response(StatusBadRequest, ErrorBody("audio conversion failed")) &&
      CallUpstream !in t.ran && t.appended == None && !t.stored
  {
    GatePrefixes();
    assert FirstFailure(cfg, req, w) == 4;
  }

  /** A failed engine call is a 500 "transcription failed" and nothing is recorded. */
  lemma UpstreamFailureStops(cfg: Config, req: Request, w: World)
    requires Admitted(cfg, req) && req.upload.Some? && w.create == Ok && w.copy == Ok
    requires w.convert == Ok && w.upstream.UpstreamFailed?
    ensures var t := Expected(cfg, req, w);
      t.response == Response(StatusInternalServerError, ErrorBody("transcription failed")) &&
      StoreAdd !in t.ran && t.appended == None && !t.stored
  {
    GatePrefixes();
    assert FirstFailure(cfg, req, w) == 5;
  }

  /** Audio strictly longer than the limit is a 400 naming the limit, with
      nothing recorded; audio exactly as long as the limit goes through. */
  lemma DurationLimit(cfg: Config, req: Request, w: World)
    requires Admitted(cfg, req) && req.upload.Some? && w.create == Ok && w.copy == Ok
    requires w.convert == Ok && w.upstream.Transcribed?
    ensures var t := Expected(cfg, req, w);
      (w.upstream.response.duration > cfg.maxDuration ==>
        t.response == Response(StatusBadRequest, ErrorBody(DurationMessage(cfg.maxDuration))) &&
        t.appended == None && !t.stored) &&
      (w.upstream.response.duration == cfg.maxDuration ==> t.response.status == StatusOK)
  {
    GatePrefixes();
    if w.upstream.response.duration > cfg.maxDuration {
      assert FirstFailure(cfg, req, w) == 6;
    } else {
      assert FirstFailure(cfg, req, w) == |Gates|;
    }
  }

  /** On success exactly one record is handed to the store: the UUID, the
      engine's text and duration, the elapsed time. The answer carries the
      text, duration and segments, whatever the store does with the record. */
  lemma SuccessResponse(cfg: Config, req: Request, w: World)
    requires FirstFailure(cfg, req, w) == |Gates|
    ensures w.upstream.Transcribed?
    ensures var t := Expected(cfg, req, w);
      var r := w.upstream.response;
      t.ran == FullRun && multiset(t.ran)[StoreAdd] == 1 &&
      t.appended == Some(Transcription(w.tmpID, r.text, r.duration, w.elapsed, w.now)) &&
      t.response == Response(StatusOK, TranscribeBody(r.text, r.duration, w.elapsed, r.segments)) &&
      t.stored == (w.commit == Committed)
  {
    GatePrefixes();
    assert Passes(cfg, req, w, Gates[1]) && Passes(cfg, req, w, Gates[5]);
    assert multiset(FullRun)[StoreAdd] == 1 by {
      assert FullRun == [ParseForm, ExtractFile, CreateTemp, CopyUpload, Convert, CallUpstream,
                         CheckDuration, StoreAdd, Respond];
    }
  }

  /** A record reaches the store exactly when the request succeeds, and is
      stored only if the store also commits. */
  lemma AppendOnlyOnSuccess(cfg: Config, req: Request, w: World)
    ensures var t := Expected(cfg, req, w);
      (t.appended.Some? <==> t.response.status == StatusOK) &&
      (t.stored <==> t.appended.Some? && w.commit == Committed)
  {
  }

  /** Whether the store commits changes nothing the client or the temp
      directory can see. */
  lemma StoreOutcomeInvisible(cfg: Config, req: Request, w: World)
    ensures var a, b := Expected(cfg, req, w.(commit := Committed)), Expected(cfg, req, w.(commit := Aborted));
      a.response == b.response && a.ran == b.ran && a.cleanup == b.cleanup &&
      a.files == b.files && a.appended == b.appended
  {
    assert FirstFailure(cfg, req, w.(commit := Committed)) == FirstFailure(cfg, req, w.(commit := Aborted)) by {
      assert forall s :: Passes(cfg, req, w.(commit := Committed), s) == Passes(cfg, req, w.(commit := Aborted), s);
      FirstFailureDependsOnlyOnGates(cfg, req, w.(commit := Committed), w.(commit := Aborted), 0);
    }
  }

  /** Two worlds whose gates agree stop at the same gate. */
  lemma {:induction false} FirstFailureDependsOnlyOnGates(cfg: Config, req: Request, w1: World, w2: World, i: nat)
    requires i <= |Gates|
    requires forall s :: Passes(cfg, req, w1, s) == Passes(cfg, req, w2, s)
    ensures FirstFailureFrom(cfg, req, w1, i) == FirstFailureFrom(cfg, req, w2, i)
    decreases |Gates| - i
  {
    if i < |Gates| {
      FirstFailureDependsOnlyOnGates(cfg, req, w1, w2, i + 1);
    }
  }

  /** The steps run are always the first steps of the full run; an error
      comes from the last step run, and every step before it passed. */
  lemma StepsRunInOrder(cfg: Config, req: Request, w: World)
    ensures var t := Expected(cfg, req, w);
      t.ran <= FullRun && |t.ran| >= 1 &&
      (t.response.status != StatusOK ==>
        !Passes(cfg, req, w, t.ran[|t.ran| - 1]) &&
        forall i :: 0 <= i < |t.ran| - 1 ==> Passes(cfg, req, w, t.ran[i]))
  {
  }
}
