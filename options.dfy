/** The server's option record and the functional options that set it
    (internal/options.go). Each option is a closure over one
    `*serverOptions` that assigns at most one field and returns an error;
    here the closures are the constructors of `ServerOption`, `ApplyOption`
    says what running one does, and `ServerOptions.Apply` runs it in place. */
module Options {
  import opened Wrappers
  import opened Errors
  import FilePath

  /** The value of a `serverOptions` struct. */
  datatype Config = Config(
    tempDir: string,
    tls: bool,
    tlsCertFile: string,
    tlsKeyFile: string,
    maxContentSize: int,
    responseWithFullError: bool,
    maxConcurrentJobs: int,
    maxFilenameLength: int,
    createRandomFilenames: bool)

  /** Go's zero value of `serverOptions`. */
  const ZeroConfig := Config("", false, "", "", 0, false, 0, 0, false)

  /** The option constructors of internal/options.go, with their arguments
      (the spelling `EnableFullErrorsRespones` is the source's). */
  datatype ServerOption =
    | TempDir(dir: string)
    | CreateRandomFilenames(createRandomFilenames: bool)
    | MaxFilenameLength(maxFilenameLength: int)
    | EnableFullErrorsRespones
    | EnableTls(tlsCertPath: string, tlsKeyPath: string)
    | MaxContentSize(maxContentSize: int)

  /** What `TempDir` asks of the operating system: the working directory
      (`os.Getwd`, which `filepath.Abs` calls for a relative path) and the
      paths on which `os.Stat` fails, with the error it returns. */
  datatype FileSystem = FileSystem(workingDir: Result<string, GoError>, statErrors: map<string, GoError>)

  /** `filepath.Abs`; lexical cleaning of the result is not modelled. */
  function Abs(fs: FileSystem, path: string): Result<string, GoError>
  {
    if |path| > 0 && path[0] == '/' then Success(path)
    else match fs.workingDir
      case Failure(e) => Failure(e)
      case Success(wd) => Success(FilePath.Join(wd, path))
  }

  /** The error `os.Stat` returns, if any. */
  function Stat(fs: FileSystem, path: string): Option<GoError>
  {
    if path in fs.statErrors then Some(fs.statErrors[path]) else None
  }

  /** The fields of `serverOptions`, and their values, for stating what an
      option touches. */
  datatype Field =
    | TempDirField | TlsField | TlsCertFileField | TlsKeyFileField | MaxContentSizeField
    | ResponseWithFullErrorField | MaxConcurrentJobsField | MaxFilenameLengthField
    | CreateRandomFilenamesField

  datatype FieldValue = StrValue(s: string) | BoolValue(b: bool) | IntValue(n: int)

  function Get(c: Config, f: Field): FieldValue
  {
    match f
    case TempDirField => StrValue(c.tempDir)
    case TlsField => BoolValue(c.tls)
    case TlsCertFileField => StrValue(c.tlsCertFile)
    case TlsKeyFileField => StrValue(c.tlsKeyFile)
    case MaxContentSizeField => IntValue(c.maxContentSize)
    case ResponseWithFullErrorField => BoolValue(c.responseWithFullError)
    case MaxConcurrentJobsField => IntValue(c.maxConcurrentJobs)
    case MaxFilenameLengthField => IntValue(c.maxFilenameLength)
    case CreateRandomFilenamesField => BoolValue(c.createRandomFilenames)
  }

  /** The field assignment an option's closure performs, if it performs one:
      an independent, field-by-field reading of internal/options.go. */
  function Assignment(opt: ServerOption, fs: FileSystem): Option<(Field, FieldValue)>
  {
    match opt
    case TempDir(dir) =>
      (match Abs(fs, dir)
       case Failure(_) => None
       case Success(abs) => if Stat(fs, abs).Some? then None else Some((TempDirField, StrValue(abs))))
    case CreateRandomFilenames(b) => Some((CreateRandomFilenamesField, BoolValue(b)))
    case MaxFilenameLength(n) => Some((MaxFilenameLengthField, IntValue(n)))
    case EnableFullErrorsRespones => Some((ResponseWithFullErrorField, BoolValue(true)))
    case EnableTls(_, _) => None
    case MaxContentSize(n) => Some((MaxContentSizeField, IntValue(n)))
  }

  predicate Assigns(opt: ServerOption, fs: FileSystem, f: Field)
  {
    Assignment(opt, fs).Some? && Assignment(opt, fs).value.0 == f
  }

  /** The options after running one option's closure, and the error it returns. */
  datatype Applied = Applied(config: Config, err: Option<GoError>)

  /** Running the closure of `opt` on a `serverOptions` holding `c`. */
  function ApplyOption(c: Config, opt: ServerOption, fs: FileSystem): Applied
  {
    match opt
    case TempDir(dir) =>
      (match Abs(fs, dir)
       case Failure(e) => Applied(c, Some(e))
       case Success(abs) =>
         if Stat(fs, abs).Some? then Applied(c, Stat(fs, abs))
         else Applied(c.(tempDir := abs), None))
    case CreateRandomFilenames(b) => Applied(c.(createRandomFilenames := b), None)
    case MaxFilenameLength(n) => Applied(c.(maxFilenameLength := n), None)
    case EnableFullErrorsRespones => Applied(c.(responseWithFullError := true), None)
    case EnableTls(_, _) => Applied(c, None)
    case MaxContentSize(n) => Applied(c.(maxContentSize := n), None)
  }

  /** Every option assigns exactly the field `Assignment` names, with the
      value it names, and leaves every other field as it was. */
  lemma ApplyOptionAssignsOneField(c: Config, opt: ServerOption, fs: FileSystem, f: Field)
    ensures Get(ApplyOption(c, opt, fs).config, f)
            == if Assigns(opt, fs, f) then Assignment(opt, fs).value.1 else Get(c, f)
  {
  }

  /** Only `TempDir` can fail; it fails exactly when `Abs` or `Stat` does,
      returns that error and leaves `tempDir` alone; otherwise it stores the
      absolute path. */
  lemma TempDirOutcome(c: Config, dir: string, fs: FileSystem)
    ensures var a := ApplyOption(c, TempDir(dir), fs);
      match Abs(fs, dir)
      case Failure(e) => a.err == Some(e) && a.config == c
      case Success(abs) =>
        (Stat(fs, abs).Some? ==> a.err == Stat(fs, abs) && a.config == c)
        && (Stat(fs, abs).None? ==> a.err.None? && a.config == c.(tempDir := abs))
    ensures forall opt: ServerOption :: !opt.TempDir? ==> ApplyOption(c, opt, fs).err.None?
  {
  }

  /** Running an option twice is the same as running it once. */
  lemma ApplyOptionIdempotent(c: Config, opt: ServerOption, fs: FileSystem)
    ensures ApplyOption(ApplyOption(c, opt, fs).config, opt, fs) == ApplyOption(c, opt, fs)
  {
  }

  /** `EnableTls` is a stub: its closure changes nothing and reports no error. */
  lemma EnableTlsIsInert(c: Config, cert: string, key: string, fs: FileSystem)
    ensures ApplyOption(c, EnableTls(cert, key), fs) == Applied(c, None)
  {
  }

  /** The options after running `opts` left to right; `NewServer` ignores
      the errors the closures return. */
  function ApplyOptions(c: Config, opts: seq<ServerOption>, fs: FileSystem): Config
  {
    if opts == [] then c
    else ApplyOption(ApplyOptions(c, opts[..|opts| - 1], fs), opts[|opts| - 1], fs).config
  }

  /** A field no option in `opts` assigns keeps its starting value. */
  lemma {:induction false} UnassignedFieldKept(c: Config, opts: seq<ServerOption>, fs: FileSystem, f: Field)
    requires forall j :: 0 <= j < |opts| ==> !Assigns(opts[j], fs, f)
    ensures Get(ApplyOptions(c, opts, fs), f) == Get(c, f)
  {
    if opts != [] {
      UnassignedFieldKept(c, opts[..|opts| - 1], fs, f);
      ApplyOptionAssignsOneField(ApplyOptions(c, opts[..|opts| - 1], fs), opts[|opts| - 1], fs, f);
    }
  }

  /** Last write wins: a field ends up with the value of the last option in
      `opts` that assigns it. */
  lemma {:induction false} LastWriteWins(c: Config, opts: seq<ServerOption>, fs: FileSystem, f: Field, i: int)
    requires 0 <= i < |opts| && Assigns(opts[i], fs, f)
    requires forall j :: i < j < |opts| ==> !Assigns(opts[j], fs, f)
    ensures Get(ApplyOptions(c, opts, fs), f) == Assignment(opts[i], fs).value.1
  {
    var init := opts[..|opts| - 1];
    ApplyOptionAssignsOneField(ApplyOptions(c, init, fs), opts[|opts| - 1], fs, f);
    if i < |opts| - 1 {
      LastWriteWins(c, init, fs, f, i);
    }
  }

  /** Full error responses end up enabled exactly when they were on already
      or some option enables them: no option ever turns them off. */
  lemma {:induction false} FullErrorsIff(c: Config, opts: seq<ServerOption>, fs: FileSystem)
    ensures ApplyOptions(c, opts, fs).responseWithFullError
            <==> c.responseWithFullError || EnableFullErrorsRespones in opts
  {
    if opts != [] {
      var init := opts[..|opts| - 1];
      FullErrorsIff(c, init, fs);
      assert opts == init + [opts[|opts| - 1]];
    }
  }

  /** No sequence of options turns TLS on. */
  lemma TlsNeverEnabled(c: Config, opts: seq<ServerOption>, fs: FileSystem)
    ensures ApplyOptions(c, opts, fs).tls == c.tls
  {
    UnassignedFieldKept(c, opts, fs, TlsField);
  }

  /** A `serverOptions` struct, updated in place by the option closures. */
  class ServerOptions {
    var tempDir: string
    var tls: bool
    var tlsCertFile: string
    var tlsKeyFile: string
    var maxContentSize: int
    var responseWithFullError: bool
    var maxConcurrentJobs: int
    var maxFilenameLength: int
    var createRandomFilenames: bool

    function Value(): Config
      reads this
    {
      Config(tempDir, tls, tlsCertFile, tlsKeyFile, maxContentSize, responseWithFullError,
             maxConcurrentJobs, maxFilenameLength, createRandomFilenames)
    }

    /** The zero value. */
    constructor ()
      ensures Value() == ZeroConfig
    {
      tempDir, tls, tlsCertFile, tlsKeyFile := "", false, "", "";
      maxContentSize, responseWithFullError, maxConcurrentJobs := 0, false, 0;
      maxFilenameLength, createRandomFilenames := 0, false;
    }

    /** Runs the closure of `opt` on this struct. */
    method Apply(opt: ServerOption, fs: FileSystem) returns (err: Option<GoError>)
      modifies this
      ensures Value() == ApplyOption(old(Value()), opt, fs).config
      ensures err == ApplyOption(old(Value()), opt, fs).err
    {
      match opt {
        case TempDir(dir) =>
          var abs := Abs(fs, dir);
          if abs.Failure? {
            return Some(abs.error);
          }
          err := Stat(fs, abs.value);
          if err.Some? {
            return;
          }
          tempDir := abs.value;
        case CreateRandomFilenames(b) =>
          createRandomFilenames := b;
          err := None;
        case MaxFilenameLength(n) =>
          maxFilenameLength := n;
          err := None;
        case EnableFullErrorsRespones =>
          responseWithFullError := true;
          err := None;
        case EnableTls(_, _) =>
          err := None;
        case MaxContentSize(n) =>
          maxContentSize := n;
          err := None;
      }
    }
  }
}
