/** Properties of one `auto_refresh_token` call: its bounds, what it leaves alone, and how refreshed
    sessions flow into the next remote request. */
module PcsLoop {
  import opened PcsTypes
  import opened PcsConfig
  import opened PcsCache
  import opened PcsSpec
  import opened PcsSteps

  /** The retry bound: a call makes at most 6 remote requests and 5 refreshes (fewer when entered
      with `tries` already spent), only appends to both logs, and never lets an AuthError or EPIPE
      escape. */
  lemma {:induction false} LoopBounds(s: Settings, env: Env, st: State, op: Op, tries: nat)
    requires tries <= MaxAuthRetries
    ensures var Run(st1, out) := RefreshLoop(s, env, st, op, tries);
      && |st.calls| <= |st1.calls| <= |st.calls| + MaxAuthRetries + 1 - tries
      && st1.calls[..|st.calls|] == st.calls
      && |st.refreshes| <= |st1.refreshes| <= |st.refreshes| + MaxAuthRetries - tries
      && st1.refreshes[..|st.refreshes|] == st.refreshes
      && !AuthFailing(out)
    decreases MaxAuthRetries - tries
  {
    var Run(st1, out) := AttemptStep(s, env, st, op);
    AttemptEffect(s, env, st, op);
    if AuthFailing(out) {
      var Rescued(st2, next) := RecoverStep(s, env, st1, out.error, tries);
      RecoverEffect(s, env, st1, out.error, tries);
      if next.Retry? {
        LoopBounds(s, env, st2, op, tries + 1);
        var r := RefreshLoop(s, env, st2, op, tries + 1).st;
        assert r.calls[..|st.calls|] == r.calls[..|st2.calls|][..|st.calls|];
        assert r.refreshes[..|st.refreshes|] == r.refreshes[..|st2.refreshes|][..|st.refreshes|];
      }
    }
  }

  /** A call writes no cache file but the one of this storage. */
  lemma {:induction false} LoopKeepsOtherFiles(s: Settings, env: Env, st: State, op: Op, tries: nat)
    requires tries <= MaxAuthRetries
    ensures RefreshLoop(s, env, st, op, tries).st.cache - {CachedFile(s)} == st.cache - {CachedFile(s)}
    decreases MaxAuthRetries - tries
  {
    var Run(st1, out) := AttemptStep(s, env, st, op);
    AttemptEffect(s, env, st, op);
    if AuthFailing(out) {
      var Rescued(st2, next) := RecoverStep(s, env, st1, out.error, tries);
      RecoverEffect(s, env, st1, out.error, tries);
      if next.Retry? {
        LoopKeepsOtherFiles(s, env, st2, op, tries + 1);
      }
    }
  }

  /** From a coherent state a call ends in a coherent state, and never with the NoMethodError of a
      cache miss at refresh time: the handle that made the failing request came from the cache. */
  lemma {:induction false} LoopKeepsCoherent(s: Settings, env: Env, st: State, op: Op, tries: nat)
    requires tries <= MaxAuthRetries && Coherent(s, st)
    ensures var Run(st1, out) := RefreshLoop(s, env, st, op, tries);
      Coherent(s, st1) && out != Raised(NoMethodError)
    decreases MaxAuthRetries - tries
  {
    var Run(st1, out) := AttemptStep(s, env, st, op);
    AttemptEffect(s, env, st, op);
    if AuthFailing(out) {
      var Rescued(st2, next) := RecoverStep(s, env, st1, out.error, tries);
      RecoverEffect(s, env, st1, out.error, tries);
      if next.Retry? {
        LoopKeepsCoherent(s, env, st2, op, tries + 1);
      }
    }
  }

  /** A block that returns normally, or raises anything but AuthError or EPIPE, runs once:
      no refresh, and its outcome passes through. */
  lemma LoopPassThrough(s: Settings, env: Env, st: State, op: Op, tries: nat)
    requires tries <= MaxAuthRetries
    requires !AuthFailing(AttemptStep(s, env, st, op).out)
    ensures RefreshLoop(s, env, st, op, tries) == AttemptStep(s, env, st, op)
    ensures RefreshLoop(s, env, st, op, tries).st.refreshes == st.refreshes
  {
    AttemptEffect(s, env, st, op);
  }

  /** After an AuthError or EPIPE with a refresh that yields a session, the cache file holds exactly
      that session, `@client` is nil, and the block runs again with one try used up. */
  lemma LoopRefreshes(s: Settings, env: Env, st: State, op: Op, tries: nat)
    requires tries < MaxAuthRetries && Coherent(s, st)
    requires AuthFailing(AttemptStep(s, env, st, op).out)
    ensures var st1 := AttemptStep(s, env, st, op).st;
      var token := Load(st1.cache, CachedFile(s)).value.refreshToken;
      var answer := env.refresh(|st1.refreshes|, token);
      answer.Some? ==>
        var st2 := st1.(refreshes := st1.refreshes + [RefreshCall(token, answer)],
                        cache := Store(st1.cache, CachedFile(s), answer.value),
                        client := None);
        && Load(st2.cache, CachedFile(s)) == answer
        && RefreshLoop(s, env, st, op, tries) == RefreshLoop(s, env, st2, op, tries + 1)
  {
    AttemptEffect(s, env, st, op);
  }

  /** After an AuthError or EPIPE with a refresh that yields nothing, the call raises
      "Authorization Failed!" wrapping that error; nothing is written and the block is not run again. */
  lemma LoopRefreshFails(s: Settings, env: Env, st: State, op: Op, tries: nat)
    requires tries < MaxAuthRetries && Coherent(s, st)
    requires AuthFailing(AttemptStep(s, env, st, op).out)
    ensures var Run(st1, out) := AttemptStep(s, env, st, op);
      var token := Load(st1.cache, CachedFile(s)).value.refreshToken;
      env.refresh(|st1.refreshes|, token).None? ==>
        var r := RefreshLoop(s, env, st, op, tries);
        && r.out == Raised(PcsError(AuthorizationFailedRefresh, Some(out.error)))
        && r.st.cache == st1.cache && r.st.calls == st1.calls && r.st.client == st1.client
        && r.st.refreshes == st1.refreshes + [RefreshCall(token, None)]
  {
    AttemptEffect(s, env, st, op);
  }

  /** Every request of one call is for its block's operation. */
  lemma {:induction false} LoopCallsAreOp(s: Settings, env: Env, st: State, op: Op, tries: nat)
    requires tries <= MaxAuthRetries
    ensures var r := RefreshLoop(s, env, st, op, tries).st;
      |st.calls| <= |r.calls| && forall j :: |st.calls| <= j < |r.calls| ==> r.calls[j].op == op
    decreases MaxAuthRetries - tries
  {
    var Run(st1, out) := AttemptStep(s, env, st, op);
    AttemptEffect(s, env, st, op);
    if AuthFailing(out) {
      var Rescued(st2, next) := RecoverStep(s, env, st1, out.error, tries);
      RecoverEffect(s, env, st1, out.error, tries);
      if next.Retry? {
        LoopCallsAreOp(s, env, st2, op, tries + 1);
        LoopBounds(s, env, st2, op, tries + 1);
        var r := RefreshLoop(s, env, st2, op, tries + 1).st;
        assert r.calls[..|st2.calls|] == st2.calls;
        assert forall j :: |st.calls| <= j < |st2.calls| ==> r.calls[j] == st2.calls[j];
      }
    }
  }

  /** A call makes as many requests as refreshes, or one more: every refresh is paid for by a
      request, and only the first run of the block comes without a refresh before it. */
  lemma {:induction false} LoopCallsPerRefresh(s: Settings, env: Env, st: State, op: Op, tries: nat)
    requires tries <= MaxAuthRetries
    ensures var r := RefreshLoop(s, env, st, op, tries).st;
      |r.refreshes| - |st.refreshes| <= |r.calls| - |st.calls| <= |r.refreshes| - |st.refreshes| + 1
    decreases MaxAuthRetries - tries
  {
    var Run(st1, out) := AttemptStep(s, env, st, op);
    AttemptEffect(s, env, st, op);
    if AuthFailing(out) {
      var Rescued(st2, next) := RecoverStep(s, env, st1, out.error, tries);
      RecoverEffect(s, env, st1, out.error, tries);
      if next.Retry? {
        LoopCallsPerRefresh(s, env, st2, op, tries + 1);
      }
    }
  }

  /** A call succeeds only when its last request succeeded, and then the handle of that request is
      the memoised one. */
  lemma {:induction false} LoopDoneOnAccepted(s: Settings, env: Env, st: State, op: Op, tries: nat)
    requires tries <= MaxAuthRetries
    ensures var Run(r, out) := RefreshLoop(s, env, st, op, tries);
      out.Done? ==>
        && |r.calls| > |st.calls|
        && env.reply(|r.calls| - 1, r.calls[|r.calls| - 1]) == Ok
        && r.client == Some(r.calls[|r.calls| - 1].handle)
    decreases MaxAuthRetries - tries
  {
    var Run(st1, out) := AttemptStep(s, env, st, op);
    AttemptEffect(s, env, st, op);
    if AuthFailing(out) {
      var Rescued(st2, next) := RecoverStep(s, env, st1, out.error, tries);
      RecoverEffect(s, env, st1, out.error, tries);
      if next.Retry? {
        LoopDoneOnAccepted(s, env, st2, op, tries + 1);
      }
    }
  }

  /** The device flow runs at most once per call, and not at all when the cache already holds a
      session: after a refresh the handle is rebuilt from the cache. */
  lemma {:induction false} LoopAuthorizesOnce(s: Settings, env: Env, st: State, op: Op, tries: nat)
    requires tries <= MaxAuthRetries
    ensures var r := RefreshLoop(s, env, st, op, tries).st;
      && r.authorizations <= st.authorizations + 1
      && (Load(st.cache, CachedFile(s)).Some? ==> r.authorizations == st.authorizations)
    decreases MaxAuthRetries - tries
  {
    var Run(st1, out) := AttemptStep(s, env, st, op);
    AttemptEffect(s, env, st, op);
    ClientEffect(s, env, st);
    if AuthFailing(out) {
      var Rescued(st2, next) := RecoverStep(s, env, st1, out.error, tries);
      RecoverEffect(s, env, st1, out.error, tries);
      if next.Retry? {
        LoopAuthorizesOnce(s, env, st2, op, tries + 1);
        ClientEffect(s, env, st2);
      }
    }
  }

  /** A block that always raises AuthError or EPIPE, with a refresh that always succeeds, runs exactly
      6 times and refreshes exactly 5 times, then raises "Too many auth errors". */
  lemma {:induction false} LoopExhausted(s: Settings, env: Env, st: State, op: Op, tries: nat)
    requires tries <= MaxAuthRetries && Coherent(s, st)
    requires ClientStep(s, env, st).handle.Success?
    requires forall i: nat, c: Call :: AuthFailing(AsOutcome(env.reply(i, c)))
    requires forall i: nat, token: Option<string> :: env.refresh(i, token).Some?
    ensures var Run(r, out) := RefreshLoop(s, env, st, op, tries);
      && out == Raised(PcsError(TooManyAuthErrors, None))
      && |r.calls| == |st.calls| + MaxAuthRetries + 1 - tries
      && |r.refreshes| == |st.refreshes| + MaxAuthRetries - tries
    decreases MaxAuthRetries - tries
  {
    var Run(st1, out) := AttemptStep(s, env, st, op);
    AttemptEffect(s, env, st, op);
    ClientEffect(s, env, st);
    assert |st1.calls| == |st.calls| + 1;
    if tries < MaxAuthRetries {
      var Rescued(st2, next) := RecoverStep(s, env, st1, out.error, tries);
      RecoverEffect(s, env, st1, out.error, tries);
      ClientEffect(s, env, st2);
      LoopExhausted(s, env, st2, op, tries + 1);
    } else {
      RecoverEffect(s, env, st1, out.error, tries);
    }
  }

  /** The requests of a call begin with the request of its first run of the block. */
  lemma LoopCallsStartWithAttempt(s: Settings, env: Env, st: State, op: Op, tries: nat)
    requires tries <= MaxAuthRetries
    ensures var a := AttemptStep(s, env, st, op).st;
      var r := RefreshLoop(s, env, st, op, tries).st;
      |a.calls| <= |r.calls| && r.calls[..|a.calls|] == a.calls
  {
    var Run(st1, out) := AttemptStep(s, env, st, op);
    if AuthFailing(out) {
      var Rescued(st2, next) := RecoverStep(s, env, st1, out.error, tries);
      RecoverEffect(s, env, st1, out.error, tries);
      if next.Retry? {
        LoopBounds(s, env, st2, op, tries + 1);
      }
    }
  }

  /** A rescued error after a request from a coherent state: the request was made, and the refresh,
      if the rescue clause makes one, sends the refresh token of the session of that request's handle
      (which is the cached session). */
  lemma RescueSendsFailedToken(s: Settings, env: Env, st: State, op: Op, tries: nat)
    requires Coherent(s, st)
    requires AuthFailing(AttemptStep(s, env, st, op).out)
    ensures var Run(st1, out) := AttemptStep(s, env, st, op);
      var st2 := RecoverStep(s, env, st1, out.error, tries).st;
      && |st1.calls| == |st.calls| + 1
      && st2.calls == st1.calls && st1.refreshes == st.refreshes
      && |st.refreshes| <= |st2.refreshes| <= |st.refreshes| + 1 && st2.refreshes[..|st.refreshes|] == st.refreshes
      && (|st2.refreshes| > |st.refreshes| ==>
            st2.refreshes[|st.refreshes|].token == st1.calls[|st.calls|].handle.session.refreshToken)
      && (RecoverStep(s, env, st1, out.error, tries).next.Retry? ==>
            tries < MaxAuthRetries && |st2.refreshes| == |st.refreshes| + 1)
  {
    var Run(st1, out) := AttemptStep(s, env, st, op);
    AttemptEffect(s, env, st, op);
    RecoverEffect(s, env, st1, out.error, tries);
  }

  /** Without a memoised handle, the first request of a call goes through a handle built from the
      session the cache file holds. With `LoopRefreshes` this is how a refreshed session reaches the
      next request: the retry starts without a handle and with that session in the cache file. */
  lemma LoopFirstCallUsesCache(s: Settings, env: Env, st: State, op: Op, tries: nat)
    requires tries <= MaxAuthRetries
    requires st.client.None? && Load(st.cache, CachedFile(s)).Some?
    ensures var r := RefreshLoop(s, env, st, op, tries).st;
      |r.calls| > |st.calls| ==> r.calls[|st.calls|].handle.session == Load(st.cache, CachedFile(s)).value
  {
    var st1 := AttemptStep(s, env, st, op).st;
    AttemptEffect(s, env, st, op);
    ClientEffect(s, env, st);
    LoopCallsStartWithAttempt(s, env, st, op, tries);
    var r := RefreshLoop(s, env, st, op, tries).st;
    if |r.calls| > |st.calls| {
      assert st1.calls[|st.calls|] == r.calls[|st.calls|];
    }
  }

  /** From a coherent state, every request of a call goes through a handle scoped to the configured
      app directory. */
  lemma {:induction false} LoopCallsScoped(s: Settings, env: Env, st: State, op: Op, tries: nat)
    requires tries <= MaxAuthRetries && Coherent(s, st)
    ensures var r := RefreshLoop(s, env, st, op, tries).st;
      |st.calls| <= |r.calls| && forall j :: |st.calls| <= j < |r.calls| ==> r.calls[j].handle.dirName == s.dirName
    decreases MaxAuthRetries - tries
  {
    var Run(st1, out) := AttemptStep(s, env, st, op);
    AttemptEffect(s, env, st, op);
    if AuthFailing(out) {
      var Rescued(st2, next) := RecoverStep(s, env, st1, out.error, tries);
      RecoverEffect(s, env, st1, out.error, tries);
      if next.Retry? {
        LoopCallsScoped(s, env, st2, op, tries + 1);
        LoopBounds(s, env, st2, op, tries + 1);
        var r := RefreshLoop(s, env, st2, op, tries + 1).st;
        assert r.calls[..|st2.calls|] == st2.calls;
        assert forall j :: |st.calls| <= j < |st2.calls| ==> r.calls[j] == st2.calls[j];
      }
    }
  }
}
