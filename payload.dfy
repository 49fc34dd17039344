/** Payload decoding (`parsePayload` and `verifyPayload` in
    internal/server.go): the Content-Type dispatch and the mapping of
    decoding outcomes to status codes. The JSON, YAML, form and multipart
    decoders are library code; `Decoding` gives what each of them returns
    for the request at hand. */
module Payload {
  import opened Wrappers
  import opened Errors
  import Text
  import Http

  /** `signingPayload`. */
  datatype SigningPayload = SigningPayload(shortcutName: string, shortcut: string)

  const EmptyPayload := SigningPayload("", "")

  /** The five supported media types. */
  datatype MediaType = Json | FormUrlEncoded | MultipartForm | Yaml | Plist

  function MediaTypeName(m: MediaType): string
  {
    match m
    case Json => "application/json"
    case FormUrlEncoded => "application/x-www-form-urlencoded"
    case MultipartForm => "multipart/form-data"
    case Yaml => "application/yaml"
    case Plist => "application/x-plist"
  }

  /** The supported media type with the given name, if any. */
  function MediaTypeNamed(mt: string): Option<MediaType>
  {
    if mt == "application/json" then Some(Json)
    else if mt == "application/x-www-form-urlencoded" then Some(FormUrlEncoded)
    else if mt == "multipart/form-data" then Some(MultipartForm)
    else if mt == "application/yaml" then Some(Yaml)
    else if mt == "application/x-plist" then Some(Plist)
    else None
  }

  /** The media type a Content-Type header value selects: the text before
      its first `;`, compared exactly (case and white space included). */
  function MediaTypeOf(contentType: string): Option<MediaType>
  {
    MediaTypeNamed(Text.Cut(contentType, ';').before)
  }

  /** A header selects media type `m` exactly when it is that type's name,
      alone or followed by `;` and parameters. */
  lemma MediaTypeOfIff(contentType: string, m: MediaType)
    ensures MediaTypeOf(contentType) == Some(m)
            <==> contentType == MediaTypeName(m)
                 || (|contentType| > |MediaTypeName(m)|
                     && contentType[..|MediaTypeName(m)| + 1] == MediaTypeName(m) + ";")
  {
    var name := MediaTypeName(m);
    assert MediaTypeNamed(name) == Some(m);
    assert forall mt :: MediaTypeNamed(mt) == Some(m) ==> mt == name;
    assert ';' !in name;
    Text.CutBeforeIff(contentType, ';', name);
  }

  /** What the library calls return for one request: the JSON or YAML
      decoder filling an empty payload; `ParseForm` / `ParseMultipartForm`
      with the first value of each form key; `FormFile("shortcut")` followed
      by `io.ReadAll` (an error of either is the `Failure`); `io.ReadAll` of
      the whole body. Reads happen through the size-capped body reader, so
      any of these errors may be a `*http.MaxBytesError`. */
  datatype Decoding = Decoding(
    structured: Result<SigningPayload, GoError>,
    form: Result<map<string, string>, GoError>,
    filePart: Result<string, GoError>,
    body: Result<string, GoError>)

  /** `r.Form.Get(key)`: the empty string for a missing key. */
  function FormValue(form: map<string, string>, key: string): string
  {
    if key in form then form[key] else ""
  }

  /** The payload a supported media type's branch builds, and the error it
      leaves in the function-level `err`. In the multipart branch the errors
      of `FormFile` and `io.ReadAll` are bound to a shadowed `err`, so they
      never reach the caller: the shortcut just stays empty. */
  datatype Extracted = Extracted(payload: SigningPayload, err: Option<GoError>)

  function Extract(m: MediaType, d: Decoding): Extracted
  {
    match m
    case Json | Yaml =>
      (match d.structured
       case Success(p) => Extracted(p, None)
       case Failure(e) => Extracted(EmptyPayload, Some(e)))
    case FormUrlEncoded =>
      (match d.form
       case Success(f) => Extracted(SigningPayload(FormValue(f, "shortcutName"), FormValue(f, "shortcut")), None)
       case Failure(e) => Extracted(EmptyPayload, Some(e)))
    case MultipartForm =>
      (match d.form
       case Success(f) =>
         var content := if d.filePart.Success? then d.filePart.value else "";
         Extracted(SigningPayload(FormValue(f, "shortcutName"), content), None)
       case Failure(e) => Extracted(EmptyPayload, Some(e)))
    case Plist =>
      (match d.body
       case Success(b) => Extracted(SigningPayload("", b), None)
       case Failure(e) => Extracted(EmptyPayload, Some(e)))
  }

  /** The outcome of `parsePayload`: a payload, or the error response it wrote. */
  datatype Parsed = Parsed(payload: SigningPayload) | Rejected(response: Http.Response)

  /** How `parsePayload` decides that an error means "body too large":
      by its type, as `errors.As` would, or, as the source does, with
      `errors.Is` against a given target error. */
  datatype TooLargeTest = ByType | IsTarget(target: GoError)

  predicate TooLarge(test: TooLargeTest, err: GoError)
  {
    match test
    case ByType => IsMaxBytesError(err)
    case IsTarget(target) => ErrorsIs(err, target)
  }

  /** `parsePayload` with its "too large" test as a parameter. */
  function ParseWith(contentType: string, d: Decoding, fullErrors: bool, test: TooLargeTest): Parsed
  {
    match MediaTypeOf(contentType)
    case None => Rejected(Http.Error("Unsupported Content-Type", Http.StatusUnsupportedMediaType))
    case Some(m) =>
      var x := Extract(m, d);
      if x.err.Some? && TooLarge(test, x.err.value) then
        Rejected(Http.Error("Content too large", Http.StatusRequestEntityTooLarge))
      else if x.err.Some? then
        Rejected(Http.Error(ErrorToString(fullErrors, x.err.value, "Error parsing content"), Http.StatusBadRequest))
      else Parsed(x.payload)
  }

  /** `parsePayload` as evidently intended: an error that IS a
      `*http.MaxBytesError` is answered with 413. The rest of the model uses
      this one. */
  function ParseOutcome(contentType: string, d: Decoding, fullErrors: bool): Parsed
  {
    ParseWith(contentType, d, fullErrors, ByType)
  }

  /** The addresses of every error value `d` can hand back. */
  function ErrorPtrs(d: Decoding): set<nat>
  {
    (if d.structured.Failure? then {d.structured.error.ptr} else {})
    + (if d.form.Failure? then {d.form.error.ptr} else {})
    + (if d.filePart.Failure? then {d.filePart.error.ptr} else {})
    + (if d.body.Failure? then {d.body.error.ptr} else {})
  }

  /** `parsePayload` as written: `errors.Is(err, &http.MaxBytesError{})`
      compares `err` with `target`, a pointer allocated on the spot, so
      distinct from every error the decoders returned. */
  function ParseOutcomeAsWritten(contentType: string, d: Decoding, fullErrors: bool, target: GoError): Parsed
    requires target.ptr !in ErrorPtrs(d)
  {
    ParseWith(contentType, d, fullErrors, IsTarget(target))
  }

  /** As written, a body over the size cap is answered 400 "Error parsing
      content" (or the raw error text), never 413; the corrected parse
      answers 413 "Content too large". */
  lemma TooLargeAnswered400AsWritten(contentType: string, d: Decoding, fullErrors: bool, target: GoError)
    requires target.ptr !in ErrorPtrs(d)
    requires MediaTypeOf(contentType).Some?
    requires Extract(MediaTypeOf(contentType).value, d).err.Some?
    requires Extract(MediaTypeOf(contentType).value, d).err.value.maxBytes
    ensures ParseOutcomeAsWritten(contentType, d, fullErrors, target)
            == Rejected(Http.Error(ErrorToString(fullErrors, Extract(MediaTypeOf(contentType).value, d).err.value,
                                                 "Error parsing content"), Http.StatusBadRequest))
    ensures ParseOutcome(contentType, d, fullErrors)
            == Rejected(Http.Error("Content too large", Http.StatusRequestEntityTooLarge))
  {
    var e := Extract(MediaTypeOf(contentType).value, d).err.value;
    assert e.ptr in ErrorPtrs(d);
  }

  /** The concrete case: a JSON body over the cap, default verbosity. The
      content type is a parameter pinned by `requires` rather than a literal
      in the body, so the verifier does not evaluate `Text.Cut` on the
      literal character by character. */
  lemma OversizedJsonAsWritten(contentType: string)
    requires contentType == "application/json"
    ensures var tooBig := GoError("http: request body too large", true, 1);
      var d := Decoding(Failure(tooBig), Success(map[]), Success(""), Success(""));
      ParseOutcomeAsWritten(contentType, d, false, GoError("", true, 2))
        == Rejected(Http.Error("Error parsing content", 400))
  {
    MediaTypeOfIff(contentType, Json);
  }

  /** A Content-Type outside the five supported ones gives 415 and no payload. */
  lemma UnsupportedMediaType(contentType: string, d: Decoding, fullErrors: bool)
    requires MediaTypeOf(contentType).None?
    ensures ParseOutcome(contentType, d, fullErrors)
            == Rejected(Http.Error("Unsupported Content-Type", Http.StatusUnsupportedMediaType))
  {
  }

  /** Decoding errors of a supported type: a too-large error gives 413 with a
      fixed phrase whatever the verbosity; any other gives 400 whose text
      follows `errorToString`; no error gives the decoded payload. */
  lemma DecodeErrorMapping(contentType: string, d: Decoding, fullErrors: bool)
    requires MediaTypeOf(contentType).Some?
    ensures var x := Extract(MediaTypeOf(contentType).value, d);
      ParseOutcome(contentType, d, fullErrors)
        == if x.err.None? then Parsed(x.payload)
           else if x.err.value.maxBytes then Rejected(Http.Error("Content too large", 413))
           else Rejected(Http.Error(if fullErrors then x.err.value.text else "Error parsing content", 400))
  {
  }

  /** For `application/x-plist` the content is the whole body and the name
      stays empty. */
  lemma PlistIsWholeBody(contentType: string, d: Decoding, fullErrors: bool, body: string)
    requires MediaTypeOf(contentType) == Some(Plist) && d.body == Success(body)
    ensures ParseOutcome(contentType, d, fullErrors) == Parsed(SigningPayload("", body))
  {
  }

  /** In the multipart branch a missing or unreadable file part does not fail
      the parse: the payload comes back with an empty shortcut. */
  lemma MultipartFilePartErrorSwallowed(contentType: string, d: Decoding, fullErrors: bool)
    requires MediaTypeOf(contentType) == Some(MultipartForm)
    requires d.form.Success? && d.filePart.Failure?
    ensures ParseOutcome(contentType, d, fullErrors)
            == Parsed(SigningPayload(FormValue(d.form.value, "shortcutName"), ""))
  {
  }

  /** When the decoders deliver the same name and content, every structured
      media type yields the same payload. */
  lemma CrossEncodingIdentity(d: Decoding, fullErrors: bool, name: string, content: string, m: MediaType)
    requires m != Plist
    requires d.structured == Success(SigningPayload(name, content))
    requires d.form.Success? && FormValue(d.form.value, "shortcutName") == name
    requires FormValue(d.form.value, "shortcut") == content && d.filePart == Success(content)
    ensures ParseOutcome(MediaTypeName(m), d, fullErrors) == Parsed(SigningPayload(name, content))
  {
    MediaTypeOfIff(MediaTypeName(m), m);
  }

  /** `verifyPayload`: the error response it writes, if any. */
  function VerifyPayload(p: SigningPayload): (r: Option<Http.Response>)
    ensures r.Some? <==> p.shortcut == ""
  {
    if p.shortcut == "" then Some(Http.Error("Missing shortcut", Http.StatusBadRequest)) else None
  }
}
