/** The per-request workspace (`prepareFilepaths` in internal/server.go)
    and the names derived from it for the success response. The ULID, the
    temporary directory and the file system are collaborators: the ULID
    generator's and `createTempDir`'s answers are inputs. */
module Workspace {
  import opened Wrappers
  import opened Errors
  import Text
  import FilePath
  import Http

  /** Crockford's base-32 alphabet, in which a ULID is written. */
  const UlidAlphabet := "0123456789ABCDEFGHJKMNPQRSTVWXYZ"

  /** The text form of a ULID: 26 characters of that alphabet. */
  predicate IsUlidText(id: string)
  {
    |id| == 26 && forall i :: 0 <= i < |id| ==> id[i] in UlidAlphabet
  }

  function UnsignedFileName(id: string): string
  {
    id + "_unsigned.shortcut"
  }

  function SignedFileName(id: string): string
  {
    id + ".shortcut"
  }

  /** The directory a request owns and the two files inside it. */
  datatype Workspace = Workspace(dir: string, unsignedPath: string, signedPath: string)

  /** `prepareFilepaths`: a fresh ULID (whose generation may fail), a guard
      against an empty name, then `createTempDir`, which ignores the name and
      lets `os.MkdirTemp` pick the directory. Either the workspace or the
      error response written. */
  function PrepareFilepaths(fullErrors: bool, ulid: Result<string, GoError>, mkdir: Result<string, GoError>)
    : Result<Workspace, Http.Response>
  {
    match ulid
    case Failure(e) =>
      Failure(Http.Error(ErrorToString(fullErrors, e, "Internal server error"), Http.StatusInternalServerError))
    case Success(id) =>
      if id == "" then Failure(Http.Error("Invalid filename", Http.StatusBadRequest))
      else match mkdir
        case Failure(e) =>
          Failure(Http.Error(ErrorToString(fullErrors, e, "Internal server error"), Http.StatusInternalServerError))
        case Success(dir) =>
          Success(Workspace(dir, FilePath.Join(dir, UnsignedFileName(id)), FilePath.Join(dir, SignedFileName(id))))
  }

  /** A workspace is handed out exactly when the id and the directory were
      obtained and the id is not empty; its two files sit in that directory,
      are named after the id, and are different files. */
  lemma PrepareFilepathsOutcome(fullErrors: bool, ulid: Result<string, GoError>, mkdir: Result<string, GoError>)
    ensures PrepareFilepaths(fullErrors, ulid, mkdir).Success?
            <==> ulid.Success? && ulid.value != "" && mkdir.Success?
    ensures PrepareFilepaths(fullErrors, ulid, mkdir).Success? ==>
      var ws := PrepareFilepaths(fullErrors, ulid, mkdir).value;
      && ws.dir == mkdir.value
      && ws.dir <= ws.unsignedPath && ws.dir <= ws.signedPath
      && ws.unsignedPath != ws.signedPath
      && ('/' !in ulid.value ==>
            FilePath.Base(ws.unsignedPath) == ulid.value + "_unsigned.shortcut"
            && FilePath.Base(ws.signedPath) == ulid.value + ".shortcut")
  {
    if ulid.Success? && ulid.value != "" && mkdir.Success? {
      var id, dir := ulid.value, mkdir.value;
      if '/' !in id {
        FileNamesAreElements(id);
        FilePath.BaseOfJoin(dir, UnsignedFileName(id));
        FilePath.BaseOfJoin(dir, SignedFileName(id));
      }
      JoinedPathsDiffer(dir, id);
    }
  }

  /** Both file names are single path elements when the id is one. */
  lemma FileNamesAreElements(id: string)
    requires '/' !in id
    ensures '/' !in UnsignedFileName(id) && '/' !in SignedFileName(id)
  {
    var u, s := "_unsigned.shortcut", ".shortcut";
    assert forall i :: 0 <= i < |u| ==> u[i] != '/';
    assert forall i :: 0 <= i < |s| ==> s[i] != '/';
    assert UnsignedFileName(id) == id + u;
    assert SignedFileName(id) == id + s;
  }

  /** The unsigned input and the signed output never collide. */
  lemma JoinedPathsDiffer(dir: string, id: string)
    ensures FilePath.Join(dir, UnsignedFileName(id)) != FilePath.Join(dir, SignedFileName(id))
  {
    var u, s := UnsignedFileName(id), SignedFileName(id);
    assert |u| == |s| + 9;
  }

  /** The name proposed for the download: the payload's name verbatim when it
      is not blank after `strings.TrimSpace`; otherwise the base name of the
      unsigned file up to its first `_`. */
  function DownloadName(shortcutName: string, unsignedPath: string): string
  {
    if Text.TrimSpace(shortcutName) == "" then Text.Cut(FilePath.Base(unsignedPath), '_').before
    else shortcutName
  }

  const DispositionPrefix := "attachment; filename="
  const DispositionSuffix := ".shortcut"

  function ContentDisposition(downloadName: string): string
  {
    DispositionPrefix + downloadName + DispositionSuffix
  }

  /** What a client reads back from a `Content-Disposition` value of this
      form: the text between the prefix and the `.shortcut` suffix. */
  function FileNameOf(disposition: string): Option<string>
  {
    var p, q := |DispositionPrefix|, |DispositionSuffix|;
    if |disposition| >= p + q && disposition[..p] == DispositionPrefix
       && disposition[|disposition| - q..] == DispositionSuffix
    then Some(disposition[p..|disposition| - q])
    else None
  }

  /** A name with any non-space character is used as given, unquoted and
      unsanitised. */
  lemma NamedDownload(shortcutName: string, unsignedPath: string)
    requires !Text.AllSpace(shortcutName)
    ensures DownloadName(shortcutName, unsignedPath) == shortcutName
  {
    Text.TrimSpaceEmptyIff(shortcutName);
  }

  /** The unsigned file's base name is its file name... */
  lemma UnsignedBase(dir: string, id: string)
    requires '/' !in id
    ensures FilePath.Base(FilePath.Join(dir, UnsignedFileName(id))) == UnsignedFileName(id)
  {
    FileNamesAreElements(id);
    FilePath.BaseOfJoin(dir, UnsignedFileName(id));
  }

  /** ... and cutting it at its first `_` gives back an id free of `_`. */
  lemma UnsignedCut(id: string)
    requires '_' !in id
    ensures Text.Cut(UnsignedFileName(id), '_').before == id
  {
    var rest := "unsigned.shortcut";
    assert UnsignedFileName(id) == id + ['_'] + rest;
    Text.CutAtFirst(id, '_', rest);
  }

  /** A blank name falls back to the workspace id, as long as the id is one
      path element without `_`, as every ULID is. */
  lemma BlankNameFallsBackToId(shortcutName: string, dir: string, id: string)
    requires Text.AllSpace(shortcutName)
    requires '/' !in id && '_' !in id
    ensures DownloadName(shortcutName, FilePath.Join(dir, UnsignedFileName(id))) == id
  {
    Text.TrimSpaceEmptyIff(shortcutName);
    UnsignedBase(dir, id);
    UnsignedCut(id);
  }

  /** A ULID has neither `/` nor `_`, so the fallback is the ULID itself. */
  lemma UlidFallback(shortcutName: string, dir: string, id: string)
    requires Text.AllSpace(shortcutName) && IsUlidText(id)
    ensures DownloadName(shortcutName, FilePath.Join(dir, UnsignedFileName(id))) == id
  {
    assert '/' !in UlidAlphabet && '_' !in UlidAlphabet;
    assert id[0] in UlidAlphabet;
    BlankNameFallsBackToId(shortcutName, dir, id);
  }

  /** The 200 response: the signer's output as an octet stream, offered for
      download under the derived name, which a client recovers from the
      `Content-Disposition` header. */
  function SuccessResponse(downloadName: string, signed: string): (r: Http.Response)
    ensures r.status == Http.StatusOK && r.body == signed
    ensures "Content-Type" in r.header && "Content-Disposition" in r.header
    ensures r.header["Content-Type"] == "application/octet-stream"
    ensures FileNameOf(r.header["Content-Disposition"]) == Some(downloadName)
  {
    var cd := ContentDisposition(downloadName);
    assert cd[..|DispositionPrefix|] == DispositionPrefix;
    assert cd[|cd| - |DispositionSuffix|..] == DispositionSuffix;
    assert cd[|DispositionPrefix|..|cd| - |DispositionSuffix|] == downloadName;
    Http.Response(Http.StatusOK,
                  map["Content-Type" := "application/octet-stream", "Content-Disposition" := cd],
                  signed)
  }
}
