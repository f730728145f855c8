/** What each single step of the session lifecycle does to the state: `create_session!`, `client`,
    one run of the block, and the rescue clause of `auto_refresh_token`. */
module PcsSteps {
  import opened PcsTypes
  import opened PcsConfig
  import opened PcsCache
  import opened PcsSpec

  /** `create_session!` runs the device flow once. When it yields a session, the cache file holds it;
      otherwise the step raises "Could not create a new session!" and writes nothing. No other cache
      file, no handle and no remote request is touched. */
  lemma CreateSessionEffect(s: Settings, env: Env, st: State)
    ensures var Created(st1, r) := CreateSessionStep(s, env, st);
      var answer := env.authorize(st.authorizations);
      && st1.client == st.client && st1.calls == st.calls && st1.refreshes == st.refreshes
      && st1.authorizations == st.authorizations + 1
      && (r.Success? <==> answer.Some?)
      && (r.Success? ==> r.value == answer.value && Load(st1.cache, CachedFile(s)) == Some(r.value))
      && (r.Failure? ==> st1.cache == st.cache && r.error == PcsError(CouldNotCreateSession, Some(OtherError)))
      && st1.cache - {CachedFile(s)} == st.cache - {CachedFile(s)}
  {
  }

  /** `client` returns the memoised handle untouched; otherwise it builds one from the cached session,
      scoped to the configured directory, running the device flow only on a cache miss, and memoises
      it. It fails, memoising nothing, only when the cache misses and the device flow fails. */
  lemma ClientEffect(s: Settings, env: Env, st: State)
    ensures var Got(st1, r) := ClientStep(s, env, st);
      var cached := Load(st.cache, CachedFile(s));
      && st1.calls == st.calls && st1.refreshes == st.refreshes
      && (st.client.Some? ==> st1 == st && r == Success(st.client.value))
      && (st.client.None? && cached.Some? ==>
            var h := Handle(cached.value, s.dirName);
            st1 == st.(client := Some(h)) && r == Success(h))
      && st1.authorizations == st.authorizations + (if st.client.None? && cached.None? then 1 else 0)
      && (r.Failure? <==> st.client.None? && cached.None? && env.authorize(st.authorizations).None?)
      && (r.Success? ==> st1.client == Some(r.value))
      && (r.Failure? ==> st1.client == None && st1.cache == st.cache &&
                         r.error == PcsError(AuthorizationFailedClient, Some(PcsError(CouldNotCreateSession, Some(OtherError)))))
      && (st.client.None? && r.Success? ==>
            r.value.dirName == s.dirName && Load(st1.cache, CachedFile(s)) == Some(r.value.session))
      && st1.cache - {CachedFile(s)} == st.cache - {CachedFile(s)}
      && (Coherent(s, st) ==> Coherent(s, st1))
  {
    CreateSessionEffect(s, env, st);
  }

  /** One run of the block makes at most one remote request, through the handle `client` memoised,
      for the block's operation, and ends as the remote answered it; when no request is made, it is
      because `client` raised. Nothing is refreshed. */
  lemma AttemptEffect(s: Settings, env: Env, st: State, op: Op)
    ensures var Run(st1, out) := AttemptStep(s, env, st, op);
      && st1.refreshes == st.refreshes
      && |st.calls| <= |st1.calls| <= |st.calls| + 1 && st1.calls[..|st.calls|] == st.calls
      && (|st1.calls| == |st.calls| + 1 ==>
            var c := st1.calls[|st.calls|];
            && c.op == op && st1.client == Some(c.handle)
            && c.handle == ClientStep(s, env, st).handle.value
            && out == AsOutcome(env.reply(|st.calls|, c)))
      && (|st1.calls| == |st.calls| ==>
            var Got(stc, h) := ClientStep(s, env, st);
            && h.Failure? && out == Raised(h.error) && out.error.PcsError? && st1 == stc)
      && st1.authorizations == ClientStep(s, env, st).st.authorizations
      && st1.cache - {CachedFile(s)} == st.cache - {CachedFile(s)}
      && (Coherent(s, st) ==> Coherent(s, st1))
  {
    ClientEffect(s, env, st);
  }

  /** The rescue clause after `tries` earlier refreshes. On the 6th rescued error it raises
      "Too many auth errors" and changes nothing. Otherwise it sends the refresh token of the cached
      session (a cache miss raises NoMethodError instead); a refresh that yields nothing raises
      "Authorization Failed!" wrapping `cause`, and one that yields a session has it written to the
      cache file, drops the handle and retries. Only a retry leaves the outcome open, and no
      outcome it decides is one that would be rescued again. */
  lemma RecoverEffect(s: Settings, env: Env, st: State, cause: Error, tries: nat)
    ensures var Rescued(st1, next) := RecoverStep(s, env, st, cause, tries);
      var cached := Load(st.cache, CachedFile(s));
      && st1.calls == st.calls && st1.authorizations == st.authorizations
      && (tries >= MaxAuthRetries ==> st1 == st && next == Stop(Raised(PcsError(TooManyAuthErrors, None))))
      && (tries < MaxAuthRetries && cached.None? ==> st1 == st && next == Stop(Raised(NoMethodError)))
      && (tries < MaxAuthRetries && cached.Some? ==>
            var answer := env.refresh(|st.refreshes|, cached.value.refreshToken);
            && st1.refreshes == st.refreshes + [RefreshCall(cached.value.refreshToken, answer)]
            && (answer.None? ==>
                  st1.cache == st.cache && st1.client == st.client &&
                  next == Stop(Raised(PcsError(AuthorizationFailedRefresh, Some(cause)))))
            && (answer.Some? ==>
                  Load(st1.cache, CachedFile(s)) == answer && st1.client == None && next == Retry))
      && (next.Retry? ==> tries < MaxAuthRetries)
      && (next.Stop? ==> next.outcome.Raised? && !Retryable(next.outcome.error))
      && |st.refreshes| <= |st1.refreshes| <= |st.refreshes| + 1 && st1.refreshes[..|st.refreshes|] == st.refreshes
      && st1.cache - {CachedFile(s)} == st.cache - {CachedFile(s)}
      && (Coherent(s, st) ==> Coherent(s, st1))
  {
  }
}
