/** The request handler of internal/server.go: construction from options,
    admission, the POST signing pipeline and routing. External
    collaborators (body decoders, ULID source, temporary directory, file
    write, the `shortcuts sign` subprocess) are inputs bundled in
    `Collaborators`. */
module Server {
  import opened Wrappers
  import opened Errors
  import opened Options
  import Admission
  import Text
  import Http
  import Payload
  import Workspace

  const B := 1
  const KB := 1024 * B
  const MB := 1024 * KB

  /** `defaultServerOptions`, with `os.TempDir()` as a parameter. */
  function DefaultServerOptions(osTempDir: string): seq<ServerOption>
  {
    [TempDir(osTempDir), MaxContentSize(10 * MB), MaxFilenameLength(255)]
  }

  /** The options `NewServer` ends up with: the zero value (with the job
      limit, which no option sets), the defaults, then the caller's options,
      each applied left to right. */
  function NewServerConfig(userOptions: seq<ServerOption>, fs: FileSystem, osTempDir: string, maxConcurrentJobs: int): Config
  {
    var start := ZeroConfig.(maxConcurrentJobs := maxConcurrentJobs);
    ApplyOptions(ApplyOptions(start, DefaultServerOptions(osTempDir), fs), userOptions, fs)
  }

  /** What a new server's options hold: the 10 MB body cap and the 255
      filename length unless a caller's option overrides them (the last such
      option wins), the temporary directory when it resolves, full error
      responses exactly when the caller asked for them, TLS never. */
  lemma NewServerConfigFacts(userOptions: seq<ServerOption>, fs: FileSystem, osTempDir: string, maxConcurrentJobs: int)
    ensures var c := NewServerConfig(userOptions, fs, osTempDir, maxConcurrentJobs);
      && c.maxConcurrentJobs == maxConcurrentJobs
      && !c.tls
      && (c.responseWithFullError <==> EnableFullErrorsRespones in userOptions)
      && ((forall j :: 0 <= j < |userOptions| ==> !Assigns(userOptions[j], fs, MaxContentSizeField))
          ==> c.maxContentSize == 10 * MB)
      && ((forall j :: 0 <= j < |userOptions| ==> !Assigns(userOptions[j], fs, MaxFilenameLengthField))
          ==> c.maxFilenameLength == 255)
      && ((forall j :: 0 <= j < |userOptions| ==> !Assigns(userOptions[j], fs, TempDirField))
          && Assigns(TempDir(osTempDir), fs, TempDirField)
          ==> StrValue(c.tempDir) == Assignment(TempDir(osTempDir), fs).value.1)
  {
    var start := ZeroConfig.(maxConcurrentJobs := maxConcurrentJobs);
    var defaults := DefaultServerOptions(osTempDir);
    var mid := ApplyOptions(start, defaults, fs);
    UnassignedFieldKept(start, defaults, fs, MaxConcurrentJobsField);
    UnassignedFieldKept(mid, userOptions, fs, MaxConcurrentJobsField);
    TlsNeverEnabled(start, defaults, fs);
    TlsNeverEnabled(mid, userOptions, fs);
    FullErrorsIff(start, defaults, fs);
    FullErrorsIff(mid, userOptions, fs);
    if forall j :: 0 <= j < |userOptions| ==> !Assigns(userOptions[j], fs, MaxContentSizeField) {
      LastWriteWins(start, defaults, fs, MaxContentSizeField, 1);
      UnassignedFieldKept(mid, userOptions, fs, MaxContentSizeField);
    }
    if forall j :: 0 <= j < |userOptions| ==> !Assigns(userOptions[j], fs, MaxFilenameLengthField) {
      LastWriteWins(start, defaults, fs, MaxFilenameLengthField, 2);
      UnassignedFieldKept(mid, userOptions, fs, MaxFilenameLengthField);
    }
    if (forall j :: 0 <= j < |userOptions| ==> !Assigns(userOptions[j], fs, TempDirField))
       && Assigns(TempDir(osTempDir), fs, TempDirField) {
      LastWriteWins(start, defaults, fs, TempDirField, 0);
      UnassignedFieldKept(mid, userOptions, fs, TempDirField);
    }
  }

  /** No option sets `maxConcurrentJobs`, so a server built through its
      options alone keeps the zero limit: every acquire admits without
      counting, and no POST is answered 503. */
  lemma NoJobLimitFromOptions(userOptions: seq<ServerOption>, fs: FileSystem, osTempDir: string,
                              counter: int, fullErrors: bool, contentType: string, c: Collaborators)
    ensures var limit := NewServerConfig(userOptions, fs, osTempDir, ZeroConfig.maxConcurrentJobs).maxConcurrentJobs;
      && limit == 0
      && Admission.Acquire(limit, counter) == Admission.Acquired(true, counter)
      && Post(fullErrors, Admission.Acquire(limit, counter).admitted, contentType, c).response.status != 503
  {
    NewServerConfigFacts(userOptions, fs, osTempDir, ZeroConfig.maxConcurrentJobs);
    PostStatuses(fullErrors, true, contentType, c);
  }

  /** The parts of a request the handler looks at. `contentType` is
      `r.Header.Get("Content-Type")`, the empty string when absent. */
  datatype Request = Request(path: string, httpMethod: string, contentType: string)

  /** The answers of the external collaborators for one request: the body
      decoders, `ulid.New`, `createTempDir`, `saveShortcut` and
      `signShortcut`. */
  datatype Collaborators = Collaborators(
    decoding: Payload.Decoding,
    ulid: Result<string, GoError>,
    mkdir: Result<string, GoError>,
    save: Option<GoError>,
    sign: Result<string, GoError>)

  /** One observable step of handling a POST, in the order they happen. */
  datatype Effect =
    | Admit(admitted: bool)
    | CapBody(maxBytes: int)
    | CreateWorkspace(root: string, dir: string)
    | SaveUnsigned(path: string, content: string)
    | RunSigner(input: string, output: string)
    | Respond(response: Http.Response)
    | Cleanup(dir: string)
    | Release

  function Rank(e: Effect): nat
  {
    match e
    case Admit(_) => 0
    case CapBody(_) => 1
    case CreateWorkspace(_, _) => 2
    case SaveUnsigned(_, _) => 3
    case RunSigner(_, _) => 4
    case Respond(_) => 5
    case Cleanup(_) => 6
    case Release => 7
  }

  /** Each kind of step happens at most once, and in pipeline order: admit,
      create the workspace, save, sign, respond, clean up, release. */
  predicate InPipelineOrder(log: seq<Effect>)
  {
    forall i, j :: 0 <= i < j < |log| ==> Rank(log[i]) < Rank(log[j])
  }

  /** Ranks that rise from each step to the next rise along the whole log. */
  lemma {:induction false} StepwiseInOrder(log: seq<Effect>)
    requires forall i :: 0 <= i < |log| - 1 ==> Rank(log[i]) < Rank(log[i + 1])
    ensures InPipelineOrder(log)
    decreases |log|
  {
    if |log| > 1 {
      StepwiseInOrder(log[1..]);
      forall i, j | 0 <= i < j < |log|
        ensures Rank(log[i]) < Rank(log[j])
      {
        if i > 0 {
          assert log[i] == log[1..][i - 1] && log[j] == log[1..][j - 1];
        } else if j > 1 {
          assert log[1] == log[1..][0] && log[j] == log[1..][j - 1];
        }
      }
    }
  }

  /** What a POST request yields: the response, and the workspace when the
      pipeline got far enough to create one. */
  datatype PostOutcome = PostOutcome(response: Http.Response, workspace: Option<Workspace.Workspace>)

  /** The response once the workspace exists: save, sign, answer. */
  function SignInWorkspace(fullErrors: bool, p: Payload.SigningPayload, ws: Workspace.Workspace,
                           save: Option<GoError>, sign: Result<string, GoError>): Http.Response
  {
    if save.Some? then
      Http.Error(ErrorToString(fullErrors, save.value, "Internal server error"), Http.StatusInternalServerError)
    else match sign
      case Failure(e) =>
        Http.Error(ErrorToString(fullErrors, e, "Internal server error"), Http.StatusInternalServerError)
      case Success(signed) =>
        Workspace.SuccessResponse(Workspace.DownloadName(p.shortcutName, ws.unsignedPath), signed)
  }

  /** `handlePostSigningRequest` after `acquireJob` answered `admitted`:
      admit, parse, verify, prepare the workspace, save, sign, respond. */
  function Post(fullErrors: bool, admitted: bool, contentType: string, c: Collaborators): PostOutcome
  {
    if !admitted then
      PostOutcome(Http.Error("Too many concurrent jobs", Http.StatusServiceUnavailable), None)
    else match Payload.ParseOutcome(contentType, c.decoding, fullErrors)
      case Rejected(r) => PostOutcome(r, None)
      case Parsed(p) =>
        match Payload.VerifyPayload(p)
        case Some(r) => PostOutcome(r, None)
        case None =>
          match Workspace.PrepareFilepaths(fullErrors, c.ulid, c.mkdir)
          case Failure(r) => PostOutcome(r, None)
          case Success(ws) => PostOutcome(SignInWorkspace(fullErrors, p, ws, c.save, c.sign), Some(ws))
  }

  /** The statuses a POST can end in, and what each means. */
  lemma PostStatuses(fullErrors: bool, admitted: bool, contentType: string, c: Collaborators)
    ensures Post(fullErrors, admitted, contentType, c).response.status in {200, 400, 413, 415, 500, 503}
    ensures Post(fullErrors, admitted, contentType, c).response.status == 503 <==> !admitted
    ensures Post(fullErrors, admitted, contentType, c).response.status == 415
            <==> admitted && Payload.MediaTypeOf(contentType).None?
  {
    if admitted {
      if Payload.MediaTypeOf(contentType).None? {
        Payload.UnsupportedMediaType(contentType, c.decoding, fullErrors);
      } else {
        Payload.DecodeErrorMapping(contentType, c.decoding, fullErrors);
        match Payload.ParseOutcome(contentType, c.decoding, fullErrors)
        case Rejected(r) =>
        case Parsed(p) =>
          if p.shortcut != "" && Workspace.PrepareFilepaths(fullErrors, c.ulid, c.mkdir).Success? {
            var ws := Workspace.PrepareFilepaths(fullErrors, c.ulid, c.mkdir).value;
            assert SignInWorkspace(fullErrors, p, ws, c.save, c.sign).status in {200, 500};
          }
      }
    }
  }

  /** A workspace is created only after admission, a successful parse and a
      non-empty shortcut, and exactly when the id and directory were obtained. */
  lemma WorkspaceOnlyAfterValidation(fullErrors: bool, admitted: bool, contentType: string, c: Collaborators)
    ensures Post(fullErrors, admitted, contentType, c).workspace.Some?
            <==> && admitted
                 && Payload.ParseOutcome(contentType, c.decoding, fullErrors).Parsed?
                 && Payload.ParseOutcome(contentType, c.decoding, fullErrors).payload.shortcut != ""
                 && c.ulid.Success? && c.ulid.value != "" && c.mkdir.Success?
  {
  }

  /** An admitted request whose decoded shortcut is empty is answered 400
      "Missing shortcut" before any workspace exists. */
  lemma EmptyShortcutRejected(fullErrors: bool, contentType: string, c: Collaborators)
    requires Payload.ParseOutcome(contentType, c.decoding, fullErrors).Parsed?
    requires Payload.ParseOutcome(contentType, c.decoding, fullErrors).payload.shortcut == ""
    ensures Post(fullErrors, true, contentType, c)
            == PostOutcome(Http.Error("Missing shortcut", Http.StatusBadRequest), None)
  {
  }

  /** A multipart request whose file part cannot be read ends in 400
      "Missing shortcut", not in "Error parsing content", whatever the
      verbosity. */
  lemma MultipartFileErrorIsMissingShortcut(fullErrors: bool, contentType: string, c: Collaborators)
    requires Payload.MediaTypeOf(contentType) == Some(Payload.MultipartForm)
    requires c.decoding.form.Success? && c.decoding.filePart.Failure?
    ensures Post(fullErrors, true, contentType, c).response == Http.Error("Missing shortcut", Http.StatusBadRequest)
  {
    Payload.MultipartFilePartErrorSwallowed(contentType, c.decoding, fullErrors);
  }

  /** Failing to save or to sign, once the workspace exists, gives 500 whose
      text follows `errorToString`; the workspace is still reported, so the
      handler cleans it up. */
  lemma SaveOrSignFailureIs500(fullErrors: bool, contentType: string, c: Collaborators)
    requires Post(fullErrors, true, contentType, c).workspace.Some?
    requires c.save.Some? || c.sign.Failure?
    ensures var err := if c.save.Some? then c.save.value else c.sign.error;
      Post(fullErrors, true, contentType, c).response
        == Http.Error(if fullErrors then err.text else "Internal server error", 500)
  {
  }

  /** The request succeeds exactly when every stage does; it then answers
      200 with the signer's output as an octet stream, named after the
      payload's name, or after the workspace's ULID when that is blank. */
  lemma SuccessIffAllStagesSucceed(fullErrors: bool, contentType: string, c: Collaborators)
    ensures var o := Post(fullErrors, true, contentType, c);
      o.response.status == 200
      <==> o.workspace.Some? && c.save.None? && c.sign.Success?
    ensures var o := Post(fullErrors, true, contentType, c);
      o.response.status == 200 ==>
        var p := Payload.ParseOutcome(contentType, c.decoding, fullErrors).payload;
        && o.response.body == c.sign.value
        && o.response.header["Content-Type"] == "application/octet-stream"
        && o.response.header["Content-Disposition"]
           == "attachment; filename=" + Workspace.DownloadName(p.shortcutName, o.workspace.value.unsignedPath) + ".shortcut"
        && Workspace.FileNameOf(o.response.header["Content-Disposition"])
           == Some(Workspace.DownloadName(p.shortcutName, o.workspace.value.unsignedPath))
        && (Text.AllSpace(p.shortcutName) && Workspace.IsUlidText(c.ulid.value)
            ==> Workspace.DownloadName(p.shortcutName, o.workspace.value.unsignedPath) == c.ulid.value)
        && (!Text.AllSpace(p.shortcutName)
            ==> Workspace.DownloadName(p.shortcutName, o.workspace.value.unsignedPath) == p.shortcutName)
  {
    var o := Post(fullErrors, true, contentType, c);
    if o.response.status == 200 {
      var p := Payload.ParseOutcome(contentType, c.decoding, fullErrors).payload;
      var ws := o.workspace.value;
      if Text.AllSpace(p.shortcutName) && Workspace.IsUlidText(c.ulid.value) {
        Workspace.UlidFallback(p.shortcutName, c.mkdir.value, c.ulid.value);
      }
      if !Text.AllSpace(p.shortcutName) {
        Workspace.NamedDownload(p.shortcutName, ws.unsignedPath);
      }
    }
  }

  /** The content a POST writes to the unsigned file: the decoded shortcut. */
  function SavedContent(fullErrors: bool, contentType: string, c: Collaborators): string
  {
    match Payload.ParseOutcome(contentType, c.decoding, fullErrors)
    case Parsed(p) => p.shortcut
    case Rejected(_) => ""
  }

  /** The steps between admission and release for outcome `o`: the body
      is capped at `maxBytes`; when the workspace exists, its creation under
      `root`, the save of `content` and (if the save worked) the signer; the
      response; then the deferred cleanup. */
  function AdmittedSteps(o: PostOutcome, content: string, saved: bool, root: string, maxBytes: int): seq<Effect>
  {
    match o.workspace
    case None => [CapBody(maxBytes), Respond(o.response)]
    case Some(ws) => [CapBody(maxBytes)] + WorkspaceSteps(root, ws, content, saved, o.response)
  }

  /** The steps once workspace `ws` exists: its creation under `root`, the
      save of `content`, the signer if the save worked, the response, and
      the deferred cleanup. */
  function WorkspaceSteps(root: string, ws: Workspace.Workspace, content: string, saved: bool,
                          response: Http.Response): seq<Effect>
  {
    [CreateWorkspace(root, ws.dir), SaveUnsigned(ws.unsignedPath, content)]
    + (if saved then [RunSigner(ws.unsignedPath, ws.signedPath)] else [])
    + [Respond(response), Cleanup(ws.dir)]
  }

  /** The steps a POST with outcome `o` takes: admission, then either the
      refusal or the admitted steps followed by the deferred release. */
  function PostLog(admitted: bool, o: PostOutcome, content: string, saved: bool, root: string, maxBytes: int)
    : seq<Effect>
  {
    if admitted then [Admit(true)] + AdmittedSteps(o, content, saved, root, maxBytes) + [Release]
    else [Admit(false), Respond(o.response)]
  }

  /** The steps follow pipeline order, each at most once. */
  lemma PostLogInOrder(admitted: bool, o: PostOutcome, content: string, saved: bool, root: string, maxBytes: int)
    ensures InPipelineOrder(PostLog(admitted, o, content, saved, root, maxBytes))
  {
    var log := PostLog(admitted, o, content, saved, root, maxBytes);
    forall i | 0 <= i < |log| - 1
      ensures Rank(log[i]) < Rank(log[i + 1])
    {
    }
    StepwiseInOrder(log);
  }

  /** Every POST is admitted or refused first and answered exactly once; an
      admitted one has its body capped at `maxBytes` and its job released,
      last; a refused one neither. */
  lemma PostLogAdmission(admitted: bool, o: PostOutcome, content: string, saved: bool, root: string, maxBytes: int)
    ensures var log := PostLog(admitted, o, content, saved, root, maxBytes);
      && log[0] == Admit(admitted)
      && Respond(o.response) in log
      && (forall r :: Respond(r) in log ==> r == o.response)
      && (forall n :: CapBody(n) in log <==> admitted && n == maxBytes)
      && (Release in log <==> admitted)
      && (admitted ==> log[|log| - 1] == Release)
  {
    if admitted {
      match o.workspace
      case None =>
        assert PostLog(admitted, o, content, saved, root, maxBytes)
               == [Admit(true), CapBody(maxBytes), Respond(o.response), Release];
      case Some(ws) =>
        var steps := WorkspaceSteps(root, ws, content, saved, o.response);
        assert PostLog(admitted, o, content, saved, root, maxBytes)
               == [Admit(true), CapBody(maxBytes)] + steps + [Release];
        assert forall r :: Respond(r) in steps ==> r == o.response;
    }
  }

  /** A workspace that was created, under `root`, is cleaned up, and none is
      created or cleaned up otherwise; the signer runs only on a saved file.
      (A refused request never has a workspace: `WorkspaceOnlyAfterValidation`.) */
  lemma PostLogWorkspace(admitted: bool, o: PostOutcome, content: string, saved: bool, root: string, maxBytes: int)
    requires !admitted ==> o.workspace.None?
    ensures var log := PostLog(admitted, o, content, saved, root, maxBytes);
      && (forall r, dir :: CreateWorkspace(r, dir) in log
                           <==> o.workspace.Some? && r == root && dir == o.workspace.value.dir)
      && (forall dir :: Cleanup(dir) in log <==> o.workspace.Some? && dir == o.workspace.value.dir)
      && (forall i, out :: RunSigner(i, out) in log ==> saved && o.workspace.Some?)
  {
  }

  /** What `ServeHTTP` did: answered, or handed the request to the form
      renderer, which is not part of this model. */
  datatype Handled = Answered(response: Http.Response) | FormRequested

  /** The server: its options, the `errorToString` it installed, and the job
      counter, the only state shared between requests. */
  class Server {
    const options: ServerOptions
    /** Which `errorToString` closure `NewServer` installed: the raw error
        text (true) or the short phrase (false). */
    const fullErrors: bool
    var jobCounter: int

    function Limit(): int
      reads options
    {
      options.maxConcurrentJobs
    }

    /** The counter's bound; `Admission.RunKeepsInv` shows why it holds
        across interleaved requests. */
    ghost predicate Valid()
      reads this, options
    {
      if Limit() > 0 then 0 <= jobCounter <= Limit() else jobCounter == 0
    }

    /** `NewServer`: default options first, then the caller's in order; the
        errors the options return are dropped. The source has no option for
        the job limit, so it is a parameter here. */
    constructor (userOptions: seq<ServerOption>, fs: FileSystem, osTempDir: string, maxConcurrentJobs: int)
      ensures fresh(options)
      ensures options.Value() == NewServerConfig(userOptions, fs, osTempDir, maxConcurrentJobs)
      ensures fullErrors == options.responseWithFullError
      ensures jobCounter == 0 && Valid()
    {
      var so := new ServerOptions();
      so.maxConcurrentJobs := maxConcurrentJobs;
      var start := so.Value();
      var defaults := DefaultServerOptions(osTempDir);
      for i := 0 to |defaults|
        invariant so.Value() == ApplyOptions(start, defaults[..i], fs)
      {
        var _ := so.Apply(defaults[i], fs);
        assert defaults[..i + 1][..i] == defaults[..i];
      }
      assert defaults[..|defaults|] == defaults;
      var mid := so.Value();
      for i := 0 to |userOptions|
        invariant so.Value() == ApplyOptions(mid, userOptions[..i], fs)
      {
        var _ := so.Apply(userOptions[i], fs);
        assert userOptions[..i + 1][..i] == userOptions[..i];
      }
      assert userOptions[..|userOptions|] == userOptions;
      options := so;
      fullErrors := so.responseWithFullError;
      jobCounter := 0;
    }

    /** `acquireJob`. */
    method AcquireJob() returns (admitted: bool)
      requires Valid()
      modifies this
      ensures Valid()
      ensures Admission.Acquire(Limit(), old(jobCounter)) == Admission.Acquired(admitted, jobCounter)
    {
      if options.maxConcurrentJobs <= 0 {
        return true;
      }
      if options.maxConcurrentJobs > 0 && jobCounter >= options.maxConcurrentJobs {
        return false;
      }
      jobCounter := jobCounter + 1;
      admitted := true;
    }

    /** `releaseJob`. */
    method ReleaseJob()
      requires Valid() && (Limit() > 0 ==> jobCounter > 0)
      modifies this
      ensures Valid()
      ensures jobCounter == Admission.Release(Limit(), old(jobCounter))
    {
      if options.maxConcurrentJobs > 0 {
        jobCounter := jobCounter - 1;
      }
    }

    /** `parsePayload`: the payload, or the error response it wrote. The
        branches fill the payload field by field, as the source does. */
    method ParsePayload(contentType: string, d: Payload.Decoding)
      returns (payload: Option<Payload.SigningPayload>, written: Option<Http.Response>)
      ensures match Payload.ParseOutcome(contentType, d, fullErrors)
        case Parsed(p) => payload == Some(p) && written.None?
        case Rejected(r) => payload.None? && written == Some(r)
    {
      var mediaType := Text.Cut(contentType, ';').before;
      var selected := Payload.MediaTypeNamed(mediaType);
      if selected.None? {
        return None, Some(Http.Error("Unsupported Content-Type", Http.StatusUnsupportedMediaType));
      }
      var p, err := DecodeBody(selected.value, d);

      if err.Some? && IsMaxBytesError(err.value) {
        return None, Some(Http.Error("Content too large", Http.StatusRequestEntityTooLarge));
      }
      if err.Some? {
        var text := ErrorToString(fullErrors, err.value, "Error parsing content");
        return None, Some(Http.Error(text, Http.StatusBadRequest));
      }
      return Some(p), None;
    }

    /** The branches of `parsePayload`'s switch for a supported media type:
        the payload they fill field by field, and the error they leave. */
    method DecodeBody(m: Payload.MediaType, d: Payload.Decoding)
      returns (p: Payload.SigningPayload, err: Option<GoError>)
      ensures Payload.Extract(m, d) == Payload.Extracted(p, err)
    {
      p := Payload.EmptyPayload;
      err := None;
      match m {
        case Json =>
          match d.structured {
            case Success(decoded) => p := decoded;
            case Failure(e) => err := Some(e);
          }
        case FormUrlEncoded =>
          match d.form {
            case Failure(e) => err := Some(e);
            case Success(form) =>
              p := p.(shortcutName := Payload.FormValue(form, "shortcutName"));
              p := p.(shortcut := Payload.FormValue(form, "shortcut"));
          }
        case MultipartForm =>
          match d.form {
            case Failure(e) => err := Some(e);
            case Success(form) =>
              p := p.(shortcutName := Payload.FormValue(form, "shortcutName"));
              // The source binds the file part's error to a shadowed `err`,
              // so a failure here leaves `err` untouched.
              match d.filePart {
                case Failure(_) =>
                case Success(content) => p := p.(shortcut := content);
              }
          }
        case Yaml =>
          match d.structured {
            case Success(decoded) => p := decoded;
            case Failure(e) => err := Some(e);
          }
        case Plist =>
          match d.body {
            case Failure(e) => err := Some(e);
            case Success(data) => p := p.(shortcut := data);
          }
      }
    }

    /** `handlePostSigningRequest`. A deferred call runs at every return
        after the point where it was registered: the job release, once
        admitted, runs after everything `HandleAdmitted` does. */
    method HandlePostSigningRequest(contentType: string, c: Collaborators)
      returns (resp: Http.Response, log: seq<Effect>)
      requires Valid()
      modifies this
      ensures Valid() && jobCounter == old(jobCounter)
      ensures var admitted := Admission.Acquire(Limit(), old(jobCounter)).admitted;
        && resp == Post(fullErrors, admitted, contentType, c).response
        && log == PostLog(admitted, Post(fullErrors, admitted, contentType, c),
                          SavedContent(fullErrors, contentType, c), c.save.None?,
                          options.tempDir, options.maxContentSize)
    {
      var admitted := AcquireJob();
      if !admitted {
        resp := Http.Error("Too many concurrent jobs", Http.StatusServiceUnavailable);
        log := [Admit(false), Respond(resp)];
        return;
      }
      // defer releaseJob()
      var steps;
      resp, steps := HandleAdmitted(contentType, c);
      ReleaseJob();
      log := [Admit(true)] + steps + [Release];
    }

    /** The body of `handlePostSigningRequest` after `acquireJob` admitted
        the request: parse, verify, prepare the workspace, save, sign,
        respond. A deferred cleanup runs at every return once the workspace
        exists. */
    method HandleAdmitted(contentType: string, c: Collaborators)
      returns (resp: Http.Response, steps: seq<Effect>)
      ensures resp == Post(fullErrors, true, contentType, c).response
      ensures steps == AdmittedSteps(Post(fullErrors, true, contentType, c),
                                     SavedContent(fullErrors, contentType, c), c.save.None?,
                                     options.tempDir, options.maxContentSize)
    {
      // The request body is read through a reader capped at the configured
      // content size.
      steps := [CapBody(options.maxContentSize)];

      var payload, written := ParsePayload(contentType, c.decoding);
      if payload.None? {
        resp := written.value;
        steps := steps + [Respond(resp)];
        return;
      }
      var p := payload.value;

      var missing := Payload.VerifyPayload(p);
      if missing.Some? {
        resp := missing.value;
        steps := steps + [Respond(resp)];
        return;
      }

      var prepared := Workspace.PrepareFilepaths(fullErrors, c.ulid, c.mkdir);
      if prepared.Failure? {
        resp := prepared.error;
        steps := steps + [Respond(resp)];
        return;
      }
      var ws := prepared.value;
      assert Post(fullErrors, true, contentType, c)
             == PostOutcome(SignInWorkspace(fullErrors, p, ws, c.save, c.sign), Some(ws));
      var wsSteps;
      resp, wsSteps := SignInDirectory(p, ws, c);
      steps := steps + wsSteps;
    }

    /** The rest of `handlePostSigningRequest` once the workspace exists:
        the directory was made under the configured temporary directory and
        its cleanup is deferred; save, sign, respond. */
    method SignInDirectory(p: Payload.SigningPayload, ws: Workspace.Workspace, c: Collaborators)
      returns (resp: Http.Response, steps: seq<Effect>)
      ensures resp == SignInWorkspace(fullErrors, p, ws, c.save, c.sign)
      ensures steps == WorkspaceSteps(options.tempDir, ws, p.shortcut, c.save.None?, resp)
    {
      steps := [CreateWorkspace(options.tempDir, ws.dir), SaveUnsigned(ws.unsignedPath, p.shortcut)];
      if c.save.Some? {
        resp := Http.Error(ErrorToString(fullErrors, c.save.value, "Internal server error"),
                           Http.StatusInternalServerError);
        steps := steps + [Respond(resp), Cleanup(ws.dir)];
        return;
      }

      steps := steps + [RunSigner(ws.unsignedPath, ws.signedPath)];
      if c.sign.Failure? {
        resp := Http.Error(ErrorToString(fullErrors, c.sign.error, "Internal server error"),
                           Http.StatusInternalServerError);
        steps := steps + [Respond(resp), Cleanup(ws.dir)];
        return;
      }

      var name := Workspace.DownloadName(p.shortcutName, ws.unsignedPath);
      resp := Workspace.SuccessResponse(name, c.sign.value);
      steps := steps + [Respond(resp), Cleanup(ws.dir)];
    }

    /** `ServeHTTP` with `handleSigningRequest`: only `/sign` is served,
        GET goes to the form renderer, POST to the signing pipeline, every
        other method is refused. */
    method ServeHTTP(r: Request, c: Collaborators) returns (h: Handled)
      requires Valid()
      modifies this
      ensures Valid() && jobCounter == old(jobCounter)
      ensures r.path != "/sign" ==> h == Answered(Http.NotFound())
      ensures r.path == "/sign" && r.httpMethod == "GET" ==> h == FormRequested
      ensures r.path == "/sign" && r.httpMethod == "POST" ==>
        h == Answered(Post(fullErrors, Admission.Acquire(Limit(), old(jobCounter)).admitted, r.contentType, c).response)
      ensures r.path == "/sign" && r.httpMethod != "GET" && r.httpMethod != "POST" ==>
        h == Answered(Http.Error("Method not allowed", Http.StatusMethodNotAllowed))
    {
      if r.path == "/sign" {
        if r.httpMethod == "GET" {
          h := FormRequested;
        } else if r.httpMethod == "POST" {
          var resp, _ := HandlePostSigningRequest(r.contentType, c);
          h := Answered(resp);
        } else {
          h := Answered(Http.Error("Method not allowed", Http.StatusMethodNotAllowed));
        }
      } else {
        h := Answered(Http.NotFound());
      }
    }
  }
}
