/** Values exchanged between the PCS storage backend of Backup and its collaborators:
    sessions, cache entries, exceptions, client handles and remote requests. */
module PcsTypes {

  datatype Option<+T> = None | Some(value: T) {
    /** Returns the value in Some, or the default when None. */
    function GetOr(default: T): T {
      match this
      case Some(v) => v
      case None => default
    }
  }

  /** A value computed by a step that may raise instead. */
  datatype Result<+T> = Success(value: T) | Failure(error: Error)

  /** How a block or a remote request ended: normally, or by raising `error`. */
  datatype Outcome = Done | Raised(error: Error)

  /** The credential bundle returned by Baidu's OAuth endpoints (a `Baidu::Session`).
      The refresh token may be nil; `extra` stands for the provider's other attributes. */
  datatype Session = Session(accessToken: string, refreshToken: Option<string>, extra: string)

  /** What the cache file at a path holds: a session written by `write_cache!`, or content
      that cannot be read back (an unreadable file, bad Base64, a failing `Marshal.load`). */
  datatype Entry = Encoded(session: Session) | Corrupt

  /** The exceptions the backend distinguishes. */
  datatype Error =
    | AuthError       // Baidu::Errors::AuthError, raised by the remote on an expired or invalid token
    | BrokenPipe      // Errno::EPIPE, the connection was closed under an upload
    | OtherError      // any other exception of the remote or of the device flow
    | NoMethodError   // `refresh_token` sent to the `false` that a cache miss yields
    | PcsError(message: string, cause: Option<Error>)  // Backup::Storage::PCS::Error

  const TooManyAuthErrors: string := "Too many auth errors"
  const AuthorizationFailedRefresh: string := "Authorization Failed!"
  const AuthorizationFailedClient: string := "Authorization Failed."
  const CouldNotCreateSession: string := "Could not create a new session!"
  const UploadFailed: string := "Upload Failed!"

  /** The two exception classes that `auto_refresh_token` rescues; every other one passes through. */
  predicate Retryable(e: Error) {
    e.AuthError? || e.BrokenPipe?
  }

  /** An outcome that makes `auto_refresh_token` refresh the session and run its block again. */
  predicate AuthFailing(o: Outcome) {
    o.Raised? && Retryable(o.error)
  }

  /** How the remote answers one upload or delete request. */
  datatype Reply = Ok | RaisesAuthError | RaisesBrokenPipe | RaisesOther

  /** The outcome a reply gives the block that made the request. */
  function AsOutcome(reply: Reply): Outcome {
    match reply
    case Ok => Done
    case RaisesAuthError => Raised(AuthError)
    case RaisesBrokenPipe => Raised(BrokenPipe)
    case RaisesOther => Raised(OtherError)
  }

  /** A `Baidu::PCS::Client`: the session it was built from and the app directory it is scoped to. */
  datatype Handle = Handle(session: Session, dirName: Option<string>)

  /** The options hash `transfer!` hands to `Baidu::PCS::Client#upload`. */
  datatype UploadOptions = UploadOptions(path: string, blockUpload: bool, retryTimes: int, retryWaitsec: int)

  /** A request to the remote storage: upload the local file `source`, or delete `path`. */
  datatype Op = Upload(source: string, options: UploadOptions) | Delete(path: string)

  /** One request as the remote sees it: which handle issued which operation. */
  datatype Call = Call(handle: Handle, op: Op)

  /** One exchange with the OAuth refresh endpoint: the refresh token sent and the session answered, if any. */
  datatype RefreshCall = RefreshCall(token: Option<string>, answer: Option<Session>)
}
