/** The session lifecycle of the PCS storage as functions of an explicit state:
    the memoised client, the cache files and the requests made so far to the collaborators.
    Each function here is one operation of lib/backup/storage/pcs.rb; the methods of
    `PcsStorage.Storage` are proved to compute exactly these, and what they do is stated by the
    lemmas of `PcsSteps`, `PcsLoop` and `PcsTransfer`. */
module PcsSpec {
  import opened PcsTypes
  import opened PcsConfig
  import opened PcsCache

  /** The bound on refreshes in one `auto_refresh_token` call: the 6th rescued error raises. */
  const MaxAuthRetries: nat := 5

  /** The collaborators the backend cannot see into, as oracles. Each answers its n-th request:
      `reply` the n-th remote request (upload or delete) made with that handle and operation,
      `refresh` the n-th refresh exchange for that refresh token, `authorize` the n-th device flow
      (None: the flow failed, so `create_session!` raised). */
  datatype Env = Env(
    reply: (nat, Call) -> Reply,
    refresh: (nat, Option<string>) -> Option<Session>,
    authorize: nat -> Option<Session>)

  /** The `@client` field, the cache files, and the requests made so far: remote calls in order,
      refresh exchanges in order, and the number of device flows run. */
  datatype State = State(
    client: Option<Handle>,
    cache: map<string, Entry>,
    calls: seq<Call>,
    refreshes: seq<RefreshCall>,
    authorizations: nat)

  /** The memoised handle, when there is one, is scoped to the configured directory and bound to the
      session the cache file holds. Every operation below preserves this. */
  predicate Coherent(s: Settings, st: State) {
    st.client.Some? ==>
      st.client.value.dirName == s.dirName && Load(st.cache, CachedFile(s)) == Some(st.client.value.session)
  }

  /** The state after `create_session!` and the session it yields, or the error it raises. */
  datatype Created = Created(st: State, session: Result<Session>)

  /** The state after `client` and the handle it yields, or the error it raises. */
  datatype Got = Got(st: State, handle: Result<Handle>)

  /** The state after the block or a whole `auto_refresh_token` call, and how it ended. */
  datatype Run = Run(st: State, out: Outcome)

  /** `create_session!`: run the device flow; on success write the new session to the cache. */
  function CreateSessionStep(s: Settings, env: Env, st: State): Created {
    var st1 := st.(authorizations := st.authorizations + 1);
    match env.authorize(st.authorizations)
    case None => Created(st1, Failure(PcsError(CouldNotCreateSession, Some(OtherError))))
    case Some(session) => Created(st1.(cache := Store(st1.cache, CachedFile(s), session)), Success(session))
  }

  /** `client`: the memoised handle if there is one; otherwise build one from the cached session,
      running the device flow only on a cache miss, and memoise it. */
  function ClientStep(s: Settings, env: Env, st: State): Got {
    if st.client.Some? then Got(st, Success(st.client.value))
    else
      match Load(st.cache, CachedFile(s))
      case Some(session) =>
        var h := Handle(session, s.dirName);
        Got(st.(client := Some(h)), Success(h))
      case None =>
        var Created(st1, created) := CreateSessionStep(s, env, st);
        match created
        case Failure(e) => Got(st1, Failure(PcsError(AuthorizationFailedClient, Some(e))))
        case Success(session) =>
          var h := Handle(session, s.dirName);
          Got(st1.(client := Some(h)), Success(h))
  }

  /** One run of the block of `transfer!` or `remove!`: get the client, then make the remote request. */
  function AttemptStep(s: Settings, env: Env, st: State, op: Op): Run {
    var Got(st1, h) := ClientStep(s, env, st);
    match h
    case Failure(e) => Run(st1, Raised(e))
    case Success(handle) =>
      var call := Call(handle, op);
      Run(st1.(calls := st1.calls + [call]), AsOutcome(env.reply(|st1.calls|, call)))
  }

  /** What the rescue clause of `auto_refresh_token` decides after one rescued error. */
  datatype Next = Retry | Stop(outcome: Outcome)

  /** The state after the rescue clause, and its decision. */
  datatype Rescued = Rescued(st: State, next: Next)

  /** The rescue clause of `auto_refresh_token` for an AuthError or EPIPE `cause`, after `tries`
      earlier refreshes in this call: give up on the 6th error; otherwise refresh with the refresh token
      of the cached session, fail without writing if the refresh yields nothing, else write the new
      session to the cache, drop the handle and retry. */
  function RecoverStep(s: Settings, env: Env, st: State, cause: Error, tries: nat): Rescued {
    if tries + 1 > MaxAuthRetries then Rescued(st, Stop(Raised(PcsError(TooManyAuthErrors, None))))
    else
      match Load(st.cache, CachedFile(s))
      case None => Rescued(st, Stop(Raised(NoMethodError)))
      case Some(cached) =>
        var token := cached.refreshToken;
        var answer := env.refresh(|st.refreshes|, token);
        var st1 := st.(refreshes := st.refreshes + [RefreshCall(token, answer)]);
        match answer
        case None => Rescued(st1, Stop(Raised(PcsError(AuthorizationFailedRefresh, Some(cause)))))
        case Some(renewed) => Rescued(st1.(cache := Store(st1.cache, CachedFile(s), renewed), client := None), Retry)
  }

  /** `auto_refresh_token` with its block `op`, entered after `tries` refreshes (0 on every call). */
  function RefreshLoop(s: Settings, env: Env, st: State, op: Op, tries: nat): Run
    requires tries <= MaxAuthRetries
    decreases MaxAuthRetries - tries
  {
    var Run(st1, out) := AttemptStep(s, env, st, op);
    if !AuthFailing(out) then Run(st1, out)
    else
      var Rescued(st2, next) := RecoverStep(s, env, st1, out.error, tries);
      match next
      case Stop(o) => Run(st2, o)
      case Retry => RefreshLoop(s, env, st2, op, tries + 1)
  }

  /** The upload `transfer!` makes for one file of the package. */
  function UploadOp(s: Settings, tmpPath: string, remotePath: string, filename: string): Op {
    Upload(Join(tmpPath, filename),
           UploadOptions(Join(remotePath, filename), true, s.maxRetries, s.retryWaitsec))
  }

  /** `transfer!`: one `auto_refresh_token` per file, in order, each starting with `tries = 0`;
      the first error that escapes one of them ends the transfer and is wrapped as "Upload Failed!". */
  function TransferSteps(s: Settings, env: Env, st: State, tmpPath: string, remotePath: string,
                         filenames: seq<string>): Run
    decreases |filenames|
  {
    if filenames == [] then Run(st, Done)
    else
      var Run(st1, out) := RefreshLoop(s, env, st, UploadOp(s, tmpPath, remotePath, filenames[0]), 0);
      if out.Raised? then Run(st1, Raised(PcsError(UploadFailed, Some(out.error))))
      else TransferSteps(s, env, st1, tmpPath, remotePath, filenames[1..])
  }
}
