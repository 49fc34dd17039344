# shortcut-signing-server: the request handler, modelled and proved in Dafny

This project models the core of the shortcut signing server. That core is
the `Server` type of `internal/server.go` and the functional options of
`internal/options.go`.

- **Construction.** `NewServer` applies the default options, then the
  caller's options, and installs an `errorToString` policy.
- **Routing.** `ServeHTTP` serves only `/sign`. `handleSigningRequest`
  dispatches there on the method: GET renders the form, POST signs, and any
  other method is refused.
- **Admission.** `acquireJob` and `releaseJob` cap the number of
  concurrent signing jobs with a counter.
- **The POST pipeline.** `handlePostSigningRequest` admits the request,
  parses the payload by Content-Type, checks for an empty shortcut, creates
  a per-request workspace and saves the unsigned shortcut. It then runs the
  signer and answers with the signed bytes. Deferred calls clean up the
  workspace and release the job slot on every path that reaches them.

External collaborators are inputs (`Server.Collaborators`, `Payload.Decoding`,
`Options.FileSystem`):

- the JSON, YAML and form decoders;
- the ULID generator and `os.MkdirTemp`;
- the file write and the `shortcuts sign` subprocess;
- `os.Getwd` and `os.Stat`.

A POST records its observable steps in an effect log (`Server.Effect`).
The handler methods are proved against specification functions (`Post`,
`PostLog`, `AdmittedSteps`). Lemmas then state what those functions
promise.

Modules, one file each:

| module | file | covers |
|---|---|---|
| `Wrappers` | `wrappers.dfy` | `Option` and `Result` |
| `Errors` | `errors.dfy` | Go errors, `errors.Is` versus a type test, and `errorToString` |
| `Text` | `text.dfy` | `strings.Cut` and `strings.TrimSpace` |
| `FilePath` | `filepath.dfy` | `filepath.Join` and `filepath.Base` |
| `Http` | `http.dfy` | responses, `http.Error` and `http.NotFound` |
| `Options` | `options.dfy` | `serverOptions` as a value and as a class; the option closures |
| `Admission` | `admission.dfy` | the job counter as a state machine |
| `Payload` | `payload.dfy` | `parsePayload` and `verifyPayload` |
| `Workspace` | `workspace.dfy` | `prepareFilepaths` and the download name |
| `Server` | `server.dfy` | `NewServer`, the POST pipeline, and the `Server` class |

## Model

| member | source | states |
|---|---|---|
| Options.ServerOptions.Apply | internal/options.go:20-75 | Running an option's closure in place leaves the struct holding `ApplyOption` of its old value and returns that closure's error. |
| Options.ApplyOptionAssignsOneField | internal/options.go:22-75 | Every option writes at most one field, with the value `Assignment` names (an independent field-by-field reading). All other fields are unchanged. |
| Options.TempDirOutcome | internal/options.go:22-38 | `TempDir` fails exactly when `filepath.Abs` or `os.Stat` fails. It then returns that error and leaves `tempDir` unchanged; otherwise it stores the absolute path. No other option ever returns an error. |
| Options.ApplyOptionIdempotent | internal/options.go:20-75 | Applying the same option twice gives the same struct and error as applying it once. |
| Options.EnableTlsIsInert | internal/options.go:62-68 | `EnableTls` is a stub whose closure changes nothing and returns nil. |
| Options.UnassignedFieldKept | internal/options.go:20-75 | After a sequence of options, a field that none of them assigns keeps its starting value. |
| Options.LastWriteWins | internal/options.go:20-75 | A field ends with the value of the last option in the sequence that assigns it. |
| Options.FullErrorsIff | internal/options.go:55-60 | Full error responses end up enabled iff they were enabled already or `EnableFullErrorsRespones` is among the options. No option turns them off. |
| Options.TlsNeverEnabled | internal/options.go:62-68 | No sequence of options changes `tls`. |
| Server.NewServerConfigFacts | internal/server.go:40-57 | On a new server:<br>• the content cap is 10 MB and the filename limit is 255 unless a caller's option assigns them;<br>• `tempDir` is the resolved OS temporary directory when that default resolves (otherwise it stays empty), unless a caller's option sets it;<br>• full errors are on iff the caller asked for them;<br>• TLS is off;<br>• the job limit is the one given. |
| Server.NoJobLimitFromOptions | internal/server.go:101-105 | No option sets the job limit, so a server built through options alone has limit 0. Every acquire then admits without counting, and no POST is answered 503. |
| Server.Server.constructor | internal/server.go:46-66 | Applies the defaults, then the caller's options, in order, to a zero-valued struct, giving `NewServerConfig`. The installed `errorToString` is the raw-text one iff `responseWithFullError` is set. |
| Server.Server.AcquireJob | internal/server.go:101-117 | Answers and updates the counter as `Admission.Acquire` does. Keeps the counter within `0..limit` (always 0 when the limit is `<= 0`). |
| Server.Server.ReleaseJob | internal/server.go:119-125 | Called only by a request holding a slot (with a positive limit the counter is positive). Decrements the counter iff the limit is positive, as `Admission.Release` does, and keeps the counter within `0..limit`. |
| Admission.UnlimitedIsFree | internal/server.go:101-125 | A limit `<= 0` admits every request and never touches the counter. |
| Admission.LimitedAcquire | internal/server.go:110-124 | With a positive limit:<br>• a request is refused iff the counter has reached the limit;<br>• otherwise the counter goes up by one;<br>• a release undoes an admission. |
| Admission.RunKeepsInv | internal/server.go:101-125 | Any interleaving of acquires and paired releases keeps the counter equal to the number of slot holders, and at most the limit (0 when unlimited). |
| Admission.CounterBounded | internal/server.go:101-125 | From an idle server, no interleaving lets more than `limit` requests hold a slot at once. |
| Admission.BurstAdmitsUpToLimit | internal/server.go:110-116 | Acquire never waits. In a burst of attempts, attempt `k` succeeds iff `counter + k < limit`. |
| Admission.OneTooMany | internal/server.go:110-116 | With limit K on an idle server, of K+1 simultaneous requests the first K are admitted and exactly the last is refused. |
| Text.Cut | internal/server.go:131 | `strings.Cut` at a one-character separator:<br>• `found` iff the separator occurs;<br>• `before` has no separator;<br>• when found, input = before + sep + after;<br>• when not found, the whole input is `before`. |
| Text.CutAtFirst | internal/server.go:131 | The split is at the first separator: for a separator-free `a`, `Cut(a + sep + b)` is `(a, b, true)`. |
| Text.TrimSpaceEmptyIff | internal/server.go:277 | `strings.TrimSpace(name) == ""` iff every character is `unicode.IsSpace`. |
| FilePath.BaseOfJoin | internal/server.go:213-214 | `Base` recovers a file name from `Join(dir, name)` when the name is one non-empty path element other than `.` and `..`. This matches Go for a clean `dir`, which `os.MkdirTemp` returns. |
| Payload.MediaTypeOfIff | internal/server.go:131-164 | A Content-Type selects media type `m` iff it is `m`'s name exactly, or that name followed by `;` and parameters. |
| Payload.UnsupportedMediaType | internal/server.go:172-174 | Any other Content-Type is answered 415 "Unsupported Content-Type". |
| Payload.DecodeErrorMapping | internal/server.go:177-188 | For a supported type (corrected parse):<br>• no decode error gives the decoded payload;<br>• a body-too-large error gives 413 "Content too large", whatever the verbosity;<br>• any other error gives 400, whose text follows `errorToString` with "Error parsing content". |
| Payload.PlistIsWholeBody | internal/server.go:164-170 | For `application/x-plist` the shortcut is the whole body and the name is empty. |
| Payload.MultipartFilePartErrorSwallowed | internal/server.go:143-160 | In the multipart branch, a missing or unreadable `shortcut` file part does not fail the parse. The errors go to a shadowed `err`, so the payload returns with an empty shortcut. |
| Payload.CrossEncodingIdentity | internal/server.go:132-163 | When the decoders deliver the same name and content, JSON, form, multipart and YAML yield the same payload. |
| Payload.TooLargeAnswered400AsWritten | internal/server.go:177-186 | As written, a body over the cap is answered 400 (errorToString with "Error parsing content"). The corrected parse answers 413 "Content too large". |
| Payload.OversizedJsonAsWritten | internal/server.go:177-186 | Concrete case: an oversized JSON body with default verbosity gets 400 "Error parsing content" as written. |
| Payload.VerifyPayload | internal/server.go:224-231 | An error response is written iff the shortcut is empty. |
| Server.Server.ParsePayload | internal/server.go:127-190 | Cuts the Content-Type at `;`, refuses an unsupported type, decodes, and maps the error. Returns the payload, or the error response, that the corrected `ParseOutcome` prescribes. |
| Server.Server.DecodeBody | internal/server.go:133-170 | The switch's branches fill the payload field by field and leave the error exactly as `Payload.Extract` says, including the multipart file part's swallowed error. |
| Workspace.PrepareFilepathsOutcome | internal/server.go:192-222 | A workspace is produced iff the ULID and the temporary directory were obtained and the id is non-empty. The files are then:<br>• inside that directory (its path is a prefix of both file paths);<br>• distinct;<br>• named `<id>_unsigned.shortcut` and `<id>.shortcut`. |
| Workspace.JoinedPathsDiffer | internal/server.go:213-214 | The unsigned input path and the signed output path never coincide. |
| Workspace.NamedDownload | internal/server.go:276-283 | A shortcut name with any non-space character is used verbatim (unquoted) as the download name. |
| Workspace.BlankNameFallsBackToId | internal/server.go:276-280 | A blank name falls back to the workspace id for any id without `/` or `_`. |
| Workspace.UlidFallback | internal/server.go:276-280 | For a ULID (26 Crockford base-32 characters), a blank name falls back to the ULID itself. |
| Workspace.SuccessResponse | internal/server.go:282-285 | The 200 response carries the signer's output as `application/octet-stream`. Reading back the `Content-Disposition` value the handler sets (`FileNameOf`: strip `attachment; filename=` and `.shortcut`) recovers exactly the download name. What a client sees is the same for names without CR or LF (see Left out). |
| Server.PostStatuses | internal/server.go:233-287 | A POST ends in 200, 400, 413, 415, 500 or 503. 503 iff not admitted; 415 iff admitted with an unsupported Content-Type. |
| Server.WorkspaceOnlyAfterValidation | internal/server.go:244-259 | A workspace exists iff the request was admitted, parsed and carries a non-empty shortcut, and the ULID and temporary directory were obtained. |
| Server.EmptyShortcutRejected | internal/server.go:249-252 | An admitted, parsed payload with an empty shortcut gets 400 "Missing shortcut", and no workspace is created. |
| Server.MultipartFileErrorIsMissingShortcut | internal/server.go:143-160 | A multipart request whose file part fails is answered 400 "Missing shortcut". |
| Server.SaveOrSignFailureIs500 | internal/server.go:261-274 | Once the workspace exists, a failed save or sign gives 500 with `errorToString(err, "Internal server error")`. The workspace is still reported, so it is cleaned up. |
| Server.SuccessIffAllStagesSucceed | internal/server.go:261-285 | 200 iff the workspace exists and both the save and the sign succeed. The response then carries:<br>• the signer's output;<br>• the octet-stream type;<br>• the payload's name, or the ULID when that name is blank. |
| Server.PostLogInOrder | internal/server.go:233-287 | The steps of a POST happen in pipeline order, each at most once: admit, cap the body, create the workspace, save, sign, respond, clean up, release. |
| Server.StepwiseInOrder | internal/server.go:233-287 | A log whose steps rise in rank from each one to the next is in pipeline order throughout (proved by induction). |
| Server.PostLogAdmission | internal/server.go:235-244 | A POST is admitted or refused first and answered exactly once. The body is capped, at the given size, iff the request was admitted. The job is released, last, iff it was admitted. |
| Server.PostLogWorkspace | internal/server.go:206-268 | A workspace is created, under the given root directory, iff one exists. A created workspace is cleaned up, and none is cleaned up otherwise. The signer runs only after a successful save. |
| Server.Server.HandlePostSigningRequest | internal/server.go:233-287 | Answers `Post(...)`'s response, with `admitted` being `acquireJob`'s answer on the old counter. Its log is `PostLog` of that outcome, with the body capped at `options.maxContentSize` and the workspace made under `options.tempDir`. The job counter is restored. |
| Server.Server.HandleAdmitted | internal/server.go:242-286 | After admission: caps the body at `options.maxContentSize`, answers the response `Post` prescribes, and performs the `AdmittedSteps` of that outcome. |
| Server.Server.SignInDirectory | internal/server.go:259-286 | Once the workspace exists: records its creation under `options.tempDir`, saves, signs and answers as `SignInWorkspace` says, and always ends with the deferred cleanup (`WorkspaceSteps`). |
| Server.Server.ServeHTTP | internal/server.go:88-99 | For a request:<br>• a path other than `/sign` gets 404 "404 page not found";<br>• on `/sign`, GET goes to the form renderer;<br>• POST gets the pipeline's response;<br>• any other method gets 405 "Method not allowed";<br>• the counter is unchanged. |

## Left out

- `Listen`, the TCP listener and `ServeTLS`: network I/O. `EnableTls` is a stub in the source anyway.
- `handleGetSigningRequest`, the HTML template rendering: only the dispatch to it is modelled (`FormRequested`).
- The mutex around `jobCounter`: each acquire and release is modelled as one atomic step, which is what the lock provides. Interleavings of requests are modelled as event sequences (`Admission.Run`).
- The bodies of the JSON, YAML, form and multipart decoders, `io.ReadAll`, and `http.MaxBytesReader`: library code. Their answers, including the error type, are inputs.
- The configured `maxContentSize` and `tempDir` reach the model only as recorded arguments: the log shows the body reader capped at `maxContentSize` (`CapBody`) and the workspace made under `tempDir` (`CreateWorkspace`). The model does not connect the decoders' too-large error to the body's length against that cap, nor the directory `os.MkdirTemp` returns to `tempDir`; both are inputs.
- Closing the multipart file part (`mFile.Close()`): resource handling with no effect on the response.
- ULID generation, `createTempDir` / `os.MkdirTemp`, `saveShortcut`, `os.RemoveAll`, and `signShortcut` with its subprocess: I/O. Their outcomes are inputs. The `shortcuts sign` invocation (`internal/signing.go`) is not part of this model.
- Errors from removing the workspace: they are only logged, so they do not reach the response.
- Logging (`internal/logger.go`), `main.go` and `internal/utils.go`: outside the handler's behaviour.
- Server.Server.HandlePostSigningRequest: on a signer failure, the 500 text in verbose mode is the error that `signShortcut` returns, modelled as an opaque input. Whether that error carries the subprocess's stderr is decided in `internal/signing.go`, which is not part of this model.
- Distinct concurrent requests getting distinct workspaces depends on the ULID source and `os.MkdirTemp` handing out unique values, which are inputs here. Only the within-request facts are proved: the two files differ, and both sit in the request's own directory.
- `maxFilenameLength`, `createRandomFilenames`, `tlsCertFile` and `tlsKeyFile` are stored but never read by the handler. The model stores them and proves only how the options set them.
- `maxConcurrentJobs` has no option that sets it, and `main.go` does not pass its `--max-concurrent-jobs` flag to `NewServer`. As written, every server therefore has limit 0: `acquireJob` always admits, and the 503 path cannot be reached (`Server.NoJobLimitFromOptions`). `Server.Server.constructor` takes the limit as a parameter so the limited behaviour can still be stated.
- FilePath.Join: Go's `filepath.Join` also cleans its result lexically (doubled slashes inside `dir`, `.` and `..` elements); the model does not. For the paths the handler builds (a clean `os.MkdirTemp` directory and a ULID-derived file name) both give the same result.
- Options.Abs: `filepath.Abs` also cleans the path lexically (`.`, `..`, doubled slashes). The model only joins a relative path onto the working directory.
- Payload.CrossEncodingIdentity: the decoders' answers are inputs, so the lemma assumes they agree. In the real program yaml.v3 keys the untagged `ShortcutName` field as `shortcutname`, so a YAML body written with `shortcutName:` decodes to an empty name.
- Strings are modelled as sequences of decoded characters (runes, Go's UTF-8 view), so one character is one byte only for ASCII. `strings.TrimSpace` is modelled on those characters with the `unicode.IsSpace` set. Invalid UTF-8, which Go decodes to the non-space replacement rune, is not modelled.
- Http.Response: the header map is what the handler sets. When net/http writes the response it replaces CR and LF in header values with spaces, so for a shortcut name containing CR or LF the client reads a different `Content-Disposition` than `FileNameOf` reverses.
- The 413 branch at internal/server.go:177-180 shows the intent: a body over the cap is answered 413 "Content too large" whatever the media type. The code as written answers 400 instead (see Findings). The model follows the code in `Payload.ParseOutcomeAsWritten` and the evident intent in `Payload.ParseOutcome`, which the handler uses.

## Findings

| source | as written | input that shows it | evidently intended | confidence | as-written member | corrected member |
|---|---|---|---|---|---|---|
| internal/server.go:177-180 | `errors.Is(err, &http.MaxBytesError{})` compares the decoder's error with a pointer allocated on the spot. `*http.MaxBytesError` has no `Is` method, so the comparison is pointer identity and never holds. An oversized body therefore falls through to the generic 400. | A POST to `/sign` with `Content-Type: application/json` and a body over the 10 MB cap. The decoder returns a `*http.MaxBytesError`, and the response is 400 "Error parsing content" (or the raw error text in verbose mode), not 413 "Content too large". | A type test (`errors.As(err, &maxBytesErr)`), which answers 413. That fixes JSON, form, multipart and plist. yaml.v3 turns a reader error into plain text, so an oversized YAML body would still get 400; `Payload.ParseOutcome` assumes a YAML decoder that keeps the error's type. | high, not executed | Payload.TooLargeAnswered400AsWritten | Payload.DecodeErrorMapping |
