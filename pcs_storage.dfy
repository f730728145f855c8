/** `Backup::Storage::PCS` as an object: the memoised `@client`, the cache files it reads and
    writes, and the requests it has made to its collaborators. Every method is proved to compute
    the matching function of `PcsSpec`; the properties of those functions are in
    `PcsSteps`, `PcsLoop` and `PcsTransfer`. */
module PcsStorage {
  import opened PcsTypes
  import opened PcsConfig
  import opened PcsCache
  import opened PcsSpec

  class Storage {
    const settings: Settings
    var client: Option<Handle>
    var cache: map<string, Entry>
    var calls: seq<Call>
    var refreshes: seq<RefreshCall>
    var authorizations: nat

    /** The state of the object and of what it has asked of its collaborators. */
    function Snapshot(): State
      reads this
    {
      State(client, cache, calls, refreshes, authorizations)
    }

    /** `initialize`: apply the defaults; no handle yet; `disk` is what the cache directory holds. */
    constructor (options: Options, disk: map<string, Entry>)
      ensures settings == WithDefaults(options)
      ensures Snapshot() == State(None, disk, [], [], 0)
      ensures Coherent(settings, Snapshot())
    {
      settings := WithDefaults(options);
      client := None;
      cache := disk;
      calls := [];
      refreshes := [];
      authorizations := 0;
    }

    /** `write_cache!`: overwrite the cache file of this storage with `session`. */
    method WriteCache(session: Session)
      modifies this`cache
      ensures cache == Store(old(cache), CachedFile(settings), session)
      ensures Load(cache, CachedFile(settings)) == Some(session)
    {
      cache := cache[CachedFile(settings) := Encoded(session)];
    }

    /** `create_session!`, as a collaborator: the device flow answers through `env.authorize`. */
    method CreateSession(env: Env) returns (r: Result<Session>)
      modifies this`cache, this`authorizations
      ensures Created(Snapshot(), r) == CreateSessionStep(settings, env, old(Snapshot()))
    {
      var answer := env.authorize(authorizations);
      authorizations := authorizations + 1;
      if answer.None? {
        r := Failure(PcsError(CouldNotCreateSession, Some(OtherError)));
        return;
      }
      WriteCache(answer.value);
      r := Success(answer.value);
    }

    /** `client`: create or get the Baidu PCS client. */
    method Client(env: Env) returns (r: Result<Handle>)
      modifies this`client, this`cache, this`authorizations
      ensures Got(Snapshot(), r) == ClientStep(settings, env, old(Snapshot()))
    {
      if client.Some? {
        r := Success(client.value);
        return;
      }
      var session := Load(cache, CachedFile(settings));
      if session.None? {
        var created := CreateSession(env);
        if created.Failure? {
          r := Failure(PcsError(AuthorizationFailedClient, Some(created.error)));
          return;
        }
        session := Some(created.value);
      }
      var h := Handle(session.value, settings.dirName);
      client := Some(h);
      r := Success(h);
    }

    /** `oauth_client.refresh(token)`: one exchange with the refresh endpoint, answered by `env.refresh`. */
    method Refresh(env: Env, token: Option<string>) returns (answer: Option<Session>)
      modifies this`refreshes
      ensures answer == env.refresh(|old(refreshes)|, token)
      ensures refreshes == old(refreshes) + [RefreshCall(token, answer)]
    {
      answer := env.refresh(|refreshes|, token);
      refreshes := refreshes + [RefreshCall(token, answer)];
    }

    /** `client.upload` / `client.delete`: one remote request, answered by `env.reply`. */
    method Send(env: Env, call: Call) returns (r: Outcome)
      modifies this`calls
      ensures r == AsOutcome(env.reply(|old(calls)|, call))
      ensures calls == old(calls) + [call]
    {
      r := AsOutcome(env.reply(|calls|, call));
      calls := calls + [call];
    }

    /** The block given to `auto_refresh_token`: `client.upload file, options` or `client.delete(path)`. */
    method Perform(env: Env, op: Op) returns (r: Outcome)
      modifies this
      ensures Run(Snapshot(), r) == AttemptStep(settings, env, old(Snapshot()), op)
    {
      var h := Client(env);
      if h.Failure? {
        r := Raised(h.error);
        return;
      }
      r := Send(env, Call(h.value, op));
    }

    /** The rescue clause of `auto_refresh_token` for an AuthError or EPIPE `cause`, after `tries`
        refreshes in this call. */
    method Rescue(env: Env, cause: Error, tries: nat) returns (next: Next)
      modifies this`client, this`cache, this`refreshes
      ensures Rescued(Snapshot(), next) == RecoverStep(settings, env, old(Snapshot()), cause, tries)
    {
      if tries + 1 > MaxAuthRetries {
        next := Stop(Raised(PcsError(TooManyAuthErrors, None)));
        return;
      }
      var cached := Load(cache, CachedFile(settings));
      if cached.None? {
        next := Stop(Raised(NoMethodError));
        return;
      }
      var session := Refresh(env, cached.value.refreshToken);
      if session.None? {
        next := Stop(Raised(PcsError(AuthorizationFailedRefresh, Some(cause))));
        return;
      }
      WriteCache(session.value);
      client := None;
      next := Retry;
    }

    /** `auto_refresh_token`: run the block; on AuthError or EPIPE refresh the cached session,
        write it back, drop the handle and run the block again, at most 5 times per call. */
    method AutoRefreshToken(env: Env, op: Op) returns (r: Outcome)
      modifies this
      ensures Run(Snapshot(), r) == RefreshLoop(settings, env, old(Snapshot()), op, 0)
    {
      var tries := 0;
      while true
        invariant tries <= MaxAuthRetries
        invariant RefreshLoop(settings, env, Snapshot(), op, tries) == RefreshLoop(settings, env, old(Snapshot()), op, 0)
        decreases MaxAuthRetries - tries
      {
        r := Perform(env, op);
        if !AuthFailing(r) {
          return;
        }
        var next := Rescue(env, r.error, tries);
        if next.Stop? {
          r := next.outcome;
          return;
        }
        tries := tries + 1;
      }
    }

    /** `transfer!`: upload the package's files in order, each inside its own `auto_refresh_token`. */
    method Transfer(env: Env, tmpPath: string, remotePath: string, filenames: seq<string>) returns (r: Outcome)
      modifies this
      ensures Run(Snapshot(), r) == TransferSteps(settings, env, old(Snapshot()), tmpPath, remotePath, filenames)
    {
      var i := 0;
      while i < |filenames|
        invariant i <= |filenames|
        invariant TransferSteps(settings, env, Snapshot(), tmpPath, remotePath, filenames[i..])
               == TransferSteps(settings, env, old(Snapshot()), tmpPath, remotePath, filenames)
      {
        var out := AutoRefreshToken(env, UploadOp(settings, tmpPath, remotePath, filenames[i]));
        if out.Raised? {
          r := Raised(PcsError(UploadFailed, Some(out.error)));
          return;
        }
        assert filenames[i..][1..] == filenames[i + 1..];
        i := i + 1;
      }
      r := Done;
    }

    /** `remove!`: delete the package's remote directory inside one `auto_refresh_token`. */
    method Remove(env: Env, packagePath: string) returns (r: Outcome)
      modifies this
      ensures Run(Snapshot(), r) == RefreshLoop(settings, env, old(Snapshot()), Delete(packagePath), 0)
    {
      r := AutoRefreshToken(env, Delete(packagePath));
    }
  }
}
