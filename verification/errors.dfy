/** The error taxonomy (src/error.rs): a closed set of error kinds, which of
    them a scan survives, which of them name a path, and the conversion of
    an operating-system error raised on a path. */
module Errors {
  import opened Wrappers

  /** The kinds of `std::io::ErrorKind` that the conversion tells apart, and
      a catch-all for the rest. */
  datatype IoErrorKind = NotFound | PermissionDenied | OtherKind(kindName: string)

  /** An operating-system error: its kind and its display text. */
  datatype IoError = IoError(kind: IoErrorKind, message: string)

  /** A path as error messages show it, between single quotes. */
  function Quoted(p: string): (r: string)
    ensures |r| == |p| + 2 && r[0] == '\'' && r[|r| - 1] == '\'' && r[1..|r| - 1] == p
  {
    "'" + p + "'"
  }

  datatype RsduError =
    | Io(source: IoError)
    | PermissionDenied(path: string, source: IoError)
    | PathNotFound(path: string)
    | InvalidPath(path: string, reason: string)
    | ScanError(path: string, message: string)
    | ImportError(text: string)
    | ExportError(text: string)
    | ConfigError(text: string)
    | UiError(text: string)
    | ParseError(text: string)
    | CompressionError(text: string)
    | ThreadError(text: string)
    | FileSystemError(text: string)
    | UserCancelled
    | FeatureNotAvailable(text: string)
    | Internal(text: string)
  {
    /** A scan records the error and goes on. */
    predicate IsRecoverable() {
      PermissionDenied? || PathNotFound? || ScanError?
    }

    /** `RsduError::path`. */
    function Path(): (r: Option<string>)
      ensures r.Some? <==> (PermissionDenied? || PathNotFound? || InvalidPath? || ScanError?)
      ensures r.Some? ==> r.value == path
    {
      match this
      case PermissionDenied(p, _) => Some(p)
      case PathNotFound(p) => Some(p)
      case InvalidPath(p, _) => Some(p)
      case ScanError(p, _) => Some(p)
      case _ => None
    }

    /** The `Display` text. */
    function Describe(): string {
      match this
      case Io(e) => "IO error: " + e.message
      case PermissionDenied(p, e) => "Permission denied accessing " + Quoted(p) + ": " + e.message
      case PathNotFound(p) => "Path not found: " + Quoted(p)
      case InvalidPath(p, reason) => "Invalid path: " + Quoted(p) + " - " + reason
      case ScanError(p, message) => "Scan error in " + Quoted(p) + ": " + message
      case ImportError(t) => "Import error: " + t
      case ExportError(t) => "Export error: " + t
      case ConfigError(t) => "Configuration error: " + t
      case UiError(t) => "UI error: " + t
      case ParseError(t) => "Parse error: " + t
      case CompressionError(t) => "Compression error: " + t
      case ThreadError(t) => "Thread error: " + t
      case FileSystemError(t) => "File system error: " + t
      case UserCancelled => "User cancelled operation"
      case FeatureNotAvailable(t) => "Feature not available: " + t
      case Internal(t) => "Internal error: " + t
    }
  }

  /** Every recoverable error names the path it happened on (the converse
      fails only for InvalidPath). */
  lemma RecoverableHasPath(e: RsduError)
    ensures e.IsRecoverable() ==> e.Path().Some?
    ensures e.Path().Some? && !e.IsRecoverable() ==> e.InvalidPath?
  {
  }

  /** `part` occurs in `s` at index `i`. */
  predicate OccursAt(s: string, part: string, i: nat) {
    i + |part| <= |s| && s[i..i + |part|] == part
  }

  predicate Contains(s: string, part: string) {
    exists i: nat | i <= |s| :: OccursAt(s, part, i)
  }

  lemma OccursAfterPrefix(prefix: string, part: string, rest: string, tail: string)
    ensures Contains(prefix + part + rest + tail, part)
  {
    var s := prefix + part + rest + tail;
    assert s[|prefix|..|prefix| + |part|] == part;
    assert OccursAt(s, part, |prefix|);
  }

  /** The message of an error that has a path shows that path in quotes. */
  lemma DescribeShowsPath(e: RsduError)
    requires e.Path().Some?
    ensures Contains(e.Describe(), Quoted(e.Path().value))
  {
    match e
    case PermissionDenied(p, src) =>
      assert e.Describe() == "Permission denied accessing " + Quoted(p) + ": " + src.message;
      OccursAfterPrefix("Permission denied accessing ", Quoted(p), ": ", src.message);
    case PathNotFound(p) =>
      assert e.Describe() == "Path not found: " + Quoted(p) + [] + [];
      OccursAfterPrefix("Path not found: ", Quoted(p), [], []);
    case InvalidPath(p, reason) =>
      assert e.Describe() == "Invalid path: " + Quoted(p) + " - " + reason;
      OccursAfterPrefix("Invalid path: ", Quoted(p), " - ", reason);
    case ScanError(p, message) =>
      assert e.Describe() == "Scan error in " + Quoted(p) + ": " + message;
      OccursAfterPrefix("Scan error in ", Quoted(p), ": ", message);
  }

  /** `RsduError::permission_denied`. */
  function PermissionDeniedAt(path: string, source: IoError): (r: RsduError)
    ensures r.Path() == Some(path) && r.IsRecoverable()
    ensures r.PermissionDenied? && r.source == source
  {
    RsduError.PermissionDenied(path, source)
  }

  /** `RsduError::path_not_found`. */
  function PathNotFoundAt(path: string): (r: RsduError)
    ensures r.Path() == Some(path) && r.IsRecoverable() && r.PathNotFound?
  {
    PathNotFound(path)
  }

  /** `RsduError::invalid_path`: names the path but stops a scan. */
  function InvalidPathAt(path: string, reason: string): (r: RsduError)
    ensures r.Path() == Some(path) && !r.IsRecoverable()
    ensures r.InvalidPath? && r.reason == reason
  {
    InvalidPath(path, reason)
  }

  /** `RsduError::scan_error`. */
  function ScanErrorAt(path: string, message: string): (r: RsduError)
    ensures r.Path() == Some(path) && r.IsRecoverable()
    ensures r.ScanError? && r.message == message
  {
    ScanError(path, message)
  }

  /** `io_error_with_path`: a denied access or a missing file becomes the
      matching recoverable error on `path`; any other failure stays a plain
      I/O error, which loses the path. */
  function IoErrorWithPath(error: IoError, path: string): (r: RsduError)
    ensures error.kind.PermissionDenied? ==> r == RsduError.PermissionDenied(path, error)
    ensures error.kind.NotFound? ==> r == PathNotFound(path)
    ensures error.kind.OtherKind? ==> r == Io(error)
    ensures r.IsRecoverable() <==> !error.kind.OtherKind?
    ensures r.Path().Some? ==> r.Path() == Some(path)
  {
    match error.kind
    case PermissionDenied => PermissionDeniedAt(path, error)
    case NotFound => PathNotFoundAt(path)
    case OtherKind(_) => Io(error)
  }

  /** `ResultExt::with_path`: only the error side changes. */
  function WithPath<T>(r: Result<T, IoError>, path: string): (out: Result<T, RsduError>)
    ensures r.Ok? ==> out == Ok(r.value)
    ensures r.Err? ==> out == Err(IoErrorWithPath(r.error, path))
  {
    match r
    case Ok(v) => Ok(v)
    case Err(e) => Err(IoErrorWithPath(e, path))
  }
}
