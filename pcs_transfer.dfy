/** Properties of `transfer!` and `remove!`: how they sequence their `auto_refresh_token` calls, the
    requests they make, and the errors they raise. */
module PcsTransfer {
  import opened PcsTypes
  import opened PcsConfig
  import opened PcsCache
  import opened PcsSpec
  import opened PcsSteps
  import opened PcsLoop

  /** A transfer of `n` files makes at most 6 requests and 5 refreshes per file, only appends to both
      logs, and an error that escapes it is always "Upload Failed!" around an error that
      `auto_refresh_token` does not rescue. */
  lemma {:induction false} TransferBounds(s: Settings, env: Env, st: State, tmpPath: string, remotePath: string,
                                          filenames: seq<string>)
    ensures var Run(r, out) := TransferSteps(s, env, st, tmpPath, remotePath, filenames);
      && |st.calls| <= |r.calls| <= |st.calls| + (MaxAuthRetries + 1) * |filenames|
      && r.calls[..|st.calls|] == st.calls
      && |st.refreshes| <= |r.refreshes| <= |st.refreshes| + MaxAuthRetries * |filenames|
      && r.refreshes[..|st.refreshes|] == st.refreshes
      && (out.Raised? ==>
            && out.error.PcsError? && out.error.message == UploadFailed
            && out.error.cause.Some? && !Retryable(out.error.cause.value))
    decreases |filenames|
  {
    if filenames != [] {
      var op := UploadOp(s, tmpPath, remotePath, filenames[0]);
      LoopBounds(s, env, st, op, 0);
      var Run(st1, out) := RefreshLoop(s, env, st, op, 0);
      if !out.Raised? {
        TransferBounds(s, env, st1, tmpPath, remotePath, filenames[1..]);
        var r := TransferSteps(s, env, st1, tmpPath, remotePath, filenames[1..]).st;
        assert r.calls[..|st.calls|] == r.calls[..|st1.calls|][..|st.calls|];
        assert r.refreshes[..|st.refreshes|] == r.refreshes[..|st1.refreshes|][..|st.refreshes|];
      }
    }
  }

  /** A transfer writes no cache file but the one of this storage. */
  lemma {:induction false} TransferKeepsOtherFiles(s: Settings, env: Env, st: State, tmpPath: string,
                                                   remotePath: string, filenames: seq<string>)
    ensures TransferSteps(s, env, st, tmpPath, remotePath, filenames).st.cache - {CachedFile(s)}
         == st.cache - {CachedFile(s)}
    decreases |filenames|
  {
    if filenames != [] {
      var op := UploadOp(s, tmpPath, remotePath, filenames[0]);
      LoopKeepsOtherFiles(s, env, st, op, 0);
      var st1 := RefreshLoop(s, env, st, op, 0).st;
      TransferKeepsOtherFiles(s, env, st1, tmpPath, remotePath, filenames[1..]);
    }
  }

  /** From a coherent state a transfer ends in a coherent state, and the error it raises never wraps
      the NoMethodError of a cache miss at refresh time. */
  lemma {:induction false} TransferKeepsCoherent(s: Settings, env: Env, st: State, tmpPath: string,
                                                 remotePath: string, filenames: seq<string>)
    requires Coherent(s, st)
    ensures var Run(r, out) := TransferSteps(s, env, st, tmpPath, remotePath, filenames);
      Coherent(s, r) && out != Raised(PcsError(UploadFailed, Some(NoMethodError)))
    decreases |filenames|
  {
    if filenames != [] {
      var op := UploadOp(s, tmpPath, remotePath, filenames[0]);
      LoopKeepsCoherent(s, env, st, op, 0);
      var Run(st1, out) := RefreshLoop(s, env, st, op, 0);
      if !out.Raised? {
        TransferKeepsCoherent(s, env, st1, tmpPath, remotePath, filenames[1..]);
      }
    }
  }

  /** Transferring `fs1 + fs2` is transferring `fs1` and then, unless that raised, `fs2`:
      the second group starts afresh, with only the object's state carried over. */
  lemma {:induction false} TransferSplit(s: Settings, env: Env, st: State, tmpPath: string, remotePath: string,
                                         fs1: seq<string>, fs2: seq<string>)
    ensures TransferSteps(s, env, st, tmpPath, remotePath, fs1 + fs2) ==
      var r1 := TransferSteps(s, env, st, tmpPath, remotePath, fs1);
      if r1.out.Raised? then r1 else TransferSteps(s, env, r1.st, tmpPath, remotePath, fs2)
    decreases |fs1|
  {
    if fs1 == [] {
      assert fs1 + fs2 == fs2;
    } else {
      assert (fs1 + fs2)[0] == fs1[0];
      assert (fs1 + fs2)[1..] == fs1[1..] + fs2;
      var Run(st1, out) := RefreshLoop(s, env, st, UploadOp(s, tmpPath, remotePath, fs1[0]), 0);
      if !out.Raised? {
        TransferSplit(s, env, st1, tmpPath, remotePath, fs1[1..], fs2);
      }
    }
  }

  /** When the remote accepts every request, `transfer!` makes exactly one upload per file, in the
      order of the file names, from `tmp_path/filename` to `remote_path/filename` with the configured
      retry options, all through the one handle `client` yields first; nothing is refreshed. */
  lemma {:induction false} TransferAllAccepted(s: Settings, env: Env, st: State, tmpPath: string,
                                               remotePath: string, fs: seq<string>)
    requires forall i: nat, c: Call :: i >= |st.calls| ==> env.reply(i, c) == Ok
    requires ClientStep(s, env, st).handle.Success?
    ensures var Run(r, out) := TransferSteps(s, env, st, tmpPath, remotePath, fs);
      var h := ClientStep(s, env, st).handle.value;
      && out == Done && r.refreshes == st.refreshes
      && |st.calls| <= |r.calls|
      && var c := r.calls[|st.calls|..];
      && |c| == |fs|
      && (forall j :: 0 <= j < |fs| ==> c[j] == Call(h, UploadOp(s, tmpPath, remotePath, fs[j])))
    decreases |fs|
  {
    if fs != [] {
      var h := ClientStep(s, env, st).handle.value;
      var op := UploadOp(s, tmpPath, remotePath, fs[0]);
      ClientEffect(s, env, st);
      AttemptEffect(s, env, st, op);
      var st1 := AttemptStep(s, env, st, op).st;
      assert RefreshLoop(s, env, st, op, 0) == AttemptStep(s, env, st, op);
      assert st1.calls == st.calls + [Call(h, op)] && st1.client == Some(h);
      ClientEffect(s, env, st1);
      TransferAllAccepted(s, env, st1, tmpPath, remotePath, fs[1..]);
      TransferBounds(s, env, st1, tmpPath, remotePath, fs[1..]);
      var r := TransferSteps(s, env, st1, tmpPath, remotePath, fs[1..]).st;
      assert r.calls[|st.calls|..] == [Call(h, op)] + r.calls[|st1.calls|..];
    }
  }

  /** With a block that always raises AuthError or EPIPE and a refresh that always succeeds, the first
      file is tried 6 times and the transfer raises "Upload Failed!" around "Too many auth errors". */
  lemma TransferExhausted(s: Settings, env: Env, st: State, tmpPath: string, remotePath: string, fs: seq<string>)
    requires fs != [] && Coherent(s, st)
    requires ClientStep(s, env, st).handle.Success?
    requires forall i: nat, c: Call :: AuthFailing(AsOutcome(env.reply(i, c)))
    requires forall i: nat, token: Option<string> :: env.refresh(i, token).Some?
    ensures var Run(r, out) := TransferSteps(s, env, st, tmpPath, remotePath, fs);
      && out == Raised(PcsError(UploadFailed, Some(PcsError(TooManyAuthErrors, None))))
      && |r.calls| == |st.calls| + MaxAuthRetries + 1
      && |r.refreshes| == |st.refreshes| + MaxAuthRetries
  {
    LoopExhausted(s, env, st, UploadOp(s, tmpPath, remotePath, fs[0]), 0);
  }

  /** An expired token on the first upload of a one-file transfer, every later request accepted, and a
      refresh that yields a session: the upload is made twice, to the same destination, with one
      refresh between the two, and the second upload goes through a handle built from the refreshed
      session, which is now cached. */
  lemma TransferRefreshesOnce(s: Settings, env: Env, st: State, tmpPath: string, remotePath: string, f: string)
    requires Coherent(s, st) && ClientStep(s, env, st).handle.Success?
    requires forall c: Call :: env.reply(|st.calls|, c) == RaisesAuthError
    requires forall i: nat, c: Call :: i > |st.calls| ==> env.reply(i, c) == Ok
    requires forall token: Option<string> :: env.refresh(|st.refreshes|, token).Some?
    ensures var Run(r, out) := TransferSteps(s, env, st, tmpPath, remotePath, [f]);
      && out == Done
      && |r.calls| == |st.calls| + 2 && |r.refreshes| == |st.refreshes| + 1
      && r.calls[|st.calls|].op == UploadOp(s, tmpPath, remotePath, f)
      && r.calls[|st.calls| + 1].op == UploadOp(s, tmpPath, remotePath, f)
      && r.refreshes[|st.refreshes|].answer == Some(r.calls[|st.calls| + 1].handle.session)
      && Load(r.cache, CachedFile(s)) == r.refreshes[|st.refreshes|].answer
  {
    var op := UploadOp(s, tmpPath, remotePath, f);
    var Run(st1, out1) := AttemptStep(s, env, st, op);
    AttemptEffect(s, env, st, op);
    ClientEffect(s, env, st);
    assert |st1.calls| == |st.calls| + 1;
    var Rescued(st2, next) := RecoverStep(s, env, st1, out1.error, 0);
    RecoverEffect(s, env, st1, out1.error, 0);
    assert next == Retry;
    var Run(st3, out3) := AttemptStep(s, env, st2, op);
    AttemptEffect(s, env, st2, op);
    ClientEffect(s, env, st2);
    assert out3 == Done;
    assert RefreshLoop(s, env, st, op, 0) == Run(st3, out3);
  }

  /** When the remote accepts the delete, `remove!` makes exactly one request. */
  lemma RemoveAccepted(s: Settings, env: Env, st: State, packagePath: string)
    requires forall i: nat, c: Call :: i >= |st.calls| ==> env.reply(i, c) == Ok
    requires ClientStep(s, env, st).handle.Success?
    ensures var Run(r, out) := RefreshLoop(s, env, st, Delete(packagePath), 0);
      out == Done && r.calls == st.calls + [Call(ClientStep(s, env, st).handle.value, Delete(packagePath))]
  {
    AttemptEffect(s, env, st, Delete(packagePath));
  }
}
