# PCS storage for Backup: session lifecycle

This project models the session lifecycle of `Backup::Storage::PCS`, the storage of the Backup gem
that uploads backup packages to Baidu PCS (Personal Cloud Storage), and proves properties of that
model in Dafny.

The model has five parts:

- the defaults `initialize` gives a configuration;
- the cache file that holds the OAuth session of one storage;
- `client`, which builds and memoises the PCS client handle from the cached session, running the device
  flow only when the cache misses;
- `auto_refresh_token`, which runs the block of `transfer!` or `remove!` (`client`, then one request)
  and, after an AuthError or a broken pipe, refreshes the cached session, writes it back, drops the
  handle and runs the block again, at most 5 times per call;
- `transfer!` and `remove!`, which run each upload, and the delete, inside one `auto_refresh_token`.

The storage object is the class `PcsStorage.Storage`. Its mutable fields are:

- `client`, the memoised handle;
- `cache`, a map from file path to cache entry;
- logs of what it has asked of its collaborators: remote requests, refresh exchanges and device flows.

Each method is proved equal to a function of `PcsSpec` on a `State` value that holds the same fields.
The lemmas in `PcsSteps`, `PcsLoop` and `PcsTransfer` state what those functions do. The collaborators the
backend cannot see into are oracles in `PcsSpec.Env`:

- the PCS remote answers the n-th upload or delete request;
- the OAuth refresh endpoint answers the n-th refresh exchange;
- the device flow answers the n-th authorization.

A session is cached as an `Entry`. An entry is a session that `write_cache!` encoded, or content that
cannot be read back (`Corrupt`). Reading back what was written is therefore the identity (`LoadAfterStore`).

`PcsSpec.Coherent` is the invariant that links the memoised handle to the cache. When there is a handle,
it is scoped to the configured `dir_name` and built from the session the cache file holds. The
constructor establishes it. `client`, one run of the block, the rescue clause, `auto_refresh_token`,
`transfer!` and `remove!` preserve it. `create_session!` and `write_cache!` taken alone do not: called
while a handle is memoised, they can cache a session other than the handle's. Within `client` the first
runs only when there is no handle, and within the rescue clause the second is followed by dropping the
handle.

Points where the code's behaviour is easy to misread:

- **Refresh after a cache miss.** When the cache file is missing or unreadable at refresh time,
  `cached_session` returns `false`, and `false.refresh_token` raises Ruby's `NoMethodError`. No
  authorization error is raised. The model keeps this path (`Error.NoMethodError`) and proves it
  unreachable from a coherent state (`LoopKeepsCoherent`, `TransferKeepsCoherent`).
- **Nil refresh token.** A nil refresh token is still sent to the refresh endpoint.
- **Retry count.** `(tries += 1) > 5` lets the block run 6 times with 5 refreshes between them. The 6th
  rescued error raises "Too many auth errors" (`LoopExhausted`).
- **Cache-file name collisions.** The name is `pcs_<storage id>_<client id>`, with nil rendered as the
  empty string. Two storages that share a cache directory share a cache file:
  - only if they render the same ids, when their storage ids contain no `_` (`CachedFileInjective`);
  - but ids ("a_b", "c") and ("a", "b_c") collide (`CachedFileCollision`);
  - and so do a nil storage id and an empty one.
- **No wrapping in `remove!`.** `transfer!` wraps every error that escapes as "Upload Failed!", while
  `remove!` lets it propagate unwrapped.

## Model

| member | source | states |
|---|---|---|
| PcsConfig.WithDefaults | lib/backup/storage/pcs.rb:13-19 | `path`, `max_retries` and `retry_waitsec` default to "backups", 10 and 30 when left nil; every value that was set, and every other attribute, is kept |
| PcsConfig.DefaultsKeepExplicitValues | lib/backup/storage/pcs.rb:16-18 | a configuration that sets all three defaulted attributes passes through `initialize` unchanged |
| PcsConfig.DefaultConfig | spec/pcs_spec.rb:19-29 | with nothing configured, the defaults are "backups", 10 and 30 |
| PcsCache.JoinShape | lib/backup/storage/pcs.rb:97 | a joined path ends with the name right after one '/', preceded by the directory, which gets a '/' appended only when it did not end with one |
| PcsCache.JoinInjective | lib/backup/storage/pcs.rb:97 | two names joined to one directory give the same path only if they are the same name |
| PcsCache.CacheNameInjective | lib/backup/storage/pcs.rb:97 | the name `pcs_<a>_<b>` determines both `a` and `b` when `a` contains no '_' |
| PcsCache.CachedFileInjective | lib/backup/storage/pcs.rb:96-98 | two storages sharing a cache directory, with storage ids free of '_', share a cache file only if they render the same storage id and client id |
| PcsCache.CachedFileCollision | lib/backup/storage/pcs.rb:96-98 | storages with ids ("a_b", "c") and ("a", "b_c") are different yet share one cache file |
| PcsCache.CachedFileExamples | spec/pcs_spec.rb:358-371 | for any root path that is non-empty and does not end in '/', the cache file of a storage with id 'sid' and client 'ci' in `<root>/.cache` is `<root>/.cache/pcs_sid_ci`; that of one without id and with client 'ci2' in `/tmp/pcs` is `/tmp/pcs/pcs__ci2` |
| PcsCache.Join | lib/backup/storage/pcs.rb:25-26 | no contract; `File.join` of a directory and a name, whose behaviour `JoinShape` and `JoinInjective` state |
| PcsCache.CachedFile | lib/backup/storage/pcs.rb:96-98 | no contract; `cached_file`, whose behaviour `CachedFileInjective`, `CachedFileCollision` and `CachedFileExamples` state |
| PcsSpec.CreateSessionStep | lib/backup/storage/pcs.rb:111-132 | no contract; `create_session!` on a state, whose behaviour `CreateSessionEffect` states |
| PcsSpec.ClientStep | lib/backup/storage/pcs.rb:53-64 | no contract; `client` on a state, whose behaviour `ClientEffect` states |
| PcsSpec.AttemptStep | lib/backup/storage/pcs.rb:28-37 | no contract; one run of the block (`client`, then one request), whose behaviour `AttemptEffect` states |
| PcsSpec.RecoverStep | lib/backup/storage/pcs.rb:85-92 | no contract; the rescue clause of `auto_refresh_token`, whose behaviour `RecoverEffect` states |
| PcsSpec.RefreshLoop | lib/backup/storage/pcs.rb:81-94 | no contract; `auto_refresh_token`, whose behaviour the `PcsLoop` lemmas state |
| PcsSpec.UploadOp | lib/backup/storage/pcs.rb:25-35 | no contract; the upload of one file, whose source and destination `TransferAllAccepted` states |
| PcsSpec.TransferSteps | lib/backup/storage/pcs.rb:23-42 | no contract; `transfer!`, whose behaviour the `PcsTransfer` lemmas state |
| PcsCache.Load | lib/backup/storage/pcs.rb:67-79 | `cached_session` yields a session exactly when the file exists and holds an encoded session, and that session is the one encoded; a missing or corrupt file yields nothing and raises nothing |
| PcsCache.Store | lib/backup/storage/pcs.rb:100-105 | after `write_cache!` the cache file reads back the session written, every other file is unchanged, and no other file is created |
| PcsCache.LoadAfterStore | lib/backup/storage/pcs.rb:100-105 | reading the file just written gives back the session written; reading any other file gives what it gave before |
| PcsSteps.CreateSessionEffect | lib/backup/storage/pcs.rb:111-132 | `create_session!` runs the device flow once; it succeeds exactly when the flow yields a session, which is then cached; otherwise it raises "Could not create a new session!" and writes nothing; no handle, request or other file is touched |
| PcsSteps.ClientEffect | lib/backup/storage/pcs.rb:53-64 | `client` returns a memoised handle unchanged; otherwise it builds one from the cached session, scoped to `dir_name`, without the device flow; only on a cache miss does it run the device flow, once; it fails, raising "Authorization Failed." and memoising nothing, exactly when the cache misses and the flow fails; it keeps the cache coherent with the handle |
| PcsSteps.AttemptEffect | lib/backup/storage/pcs.rb:28-37 | one run of the block makes at most one request, for its operation, through the handle `client` yields and memoises, and ends as the remote answered; when no request is made, it is because `client` failed, and the run raises exactly `client`'s error and leaves exactly the state `client` left; no refresh |
| PcsSteps.RecoverEffect | lib/backup/storage/pcs.rb:85-92 | the rescue clause raises "Too many auth errors" on the 6th rescued error and changes nothing; otherwise it sends the cached session's refresh token (a cache miss raises NoMethodError); a refresh yielding nothing raises "Authorization Failed!" around the rescued error and writes nothing; one yielding a session caches it, drops the handle and retries; no decided outcome is one that would be rescued again |
| PcsLoop.LoopBounds | lib/backup/storage/pcs.rb:81-94 | one `auto_refresh_token` call makes at most 6 requests and 5 refreshes, only appends to both logs, and never lets an AuthError or EPIPE escape |
| PcsLoop.LoopKeepsOtherFiles | lib/backup/storage/pcs.rb:81-94 | a call writes no cache file but this storage's own |
| PcsLoop.LoopKeepsCoherent | lib/backup/storage/pcs.rb:88 | from a coherent state a call ends coherent and never raises the NoMethodError of a missing cached session |
| PcsLoop.LoopPassThrough | lib/backup/storage/pcs.rb:83-84 | a block that returns, or raises anything but AuthError or EPIPE, runs once, without refresh, and its outcome passes through |
| PcsLoop.LoopRefreshes | lib/backup/storage/pcs.rb:88-92 | after a rescued error and a refresh that yields a session, the cache holds that session, the handle is nil, and the call continues with one more try spent |
| PcsLoop.LoopRefreshFails | lib/backup/storage/pcs.rb:88-89 | after a rescued error and a refresh that yields nothing, the call raises "Authorization Failed!" around the rescued error, writes nothing and makes no further request |
| PcsLoop.LoopCallsAreOp | lib/backup/storage/pcs.rb:81-94 | every request of a call is for its block's operation |
| PcsLoop.LoopCallsPerRefresh | lib/backup/storage/pcs.rb:85-92 | within a call, requests and refreshes alternate: as many requests as refreshes, or one more |
| PcsLoop.LoopDoneOnAccepted | lib/backup/storage/pcs.rb:81-94 | a call returns normally only when its last request was accepted, and then that request's handle is the memoised one |
| PcsLoop.LoopAuthorizesOnce | lib/backup/storage/pcs.rb:53-64 | the device flow runs at most once per call, and not at all when the cache already holds a session |
| PcsLoop.LoopExhausted | lib/backup/storage/pcs.rb:86 | a block that always fails with AuthError or EPIPE, with refreshes that always succeed, runs exactly 6 times with exactly 5 refreshes and ends with "Too many auth errors" |
| PcsLoop.LoopCallsStartWithAttempt | lib/backup/storage/pcs.rb:83-84 | the requests of a call begin with the request of its first run of the block |
| PcsLoop.RescueSendsFailedToken | lib/backup/storage/pcs.rb:88 | from a coherent state, a rescued error follows a request, and the refresh that follows, if any, sends the refresh token of that request's session |
| PcsLoop.LoopFirstCallUsesCache | lib/backup/storage/pcs.rb:54-61 | without a memoised handle, the first request of a call goes through a handle built from the cached session, so after a refresh the retry uses the refreshed session |
| PcsLoop.LoopCallsScoped | lib/backup/storage/pcs.rb:61 | from a coherent state, every request of a call goes through a handle scoped to `dir_name` |
| PcsTransfer.TransferBounds | lib/backup/storage/pcs.rb:23-42 | a transfer of n files makes at most 6n requests and 5n refreshes, only appends to both logs, and any error it raises is "Upload Failed!" around an error that is not AuthError or EPIPE |
| PcsTransfer.TransferKeepsOtherFiles | lib/backup/storage/pcs.rb:23-42 | a transfer writes no cache file but this storage's own |
| PcsTransfer.TransferKeepsCoherent | lib/backup/storage/pcs.rb:23-42 | from a coherent state a transfer ends coherent and never raises "Upload Failed!" around a NoMethodError |
| PcsTransfer.TransferSplit | lib/backup/storage/pcs.rb:24-39 | transferring `fs1 + fs2` is transferring `fs1` and then, unless that raised, `fs2` from the resulting state |
| PcsTransfer.TransferAllAccepted | lib/backup/storage/pcs.rb:24-36 | when the remote accepts every request from now on, whatever it answered before, the transfer uploads each file exactly once, in order, from `tmp_path/f` to `remote_path/f`, with block upload and the configured retry options, all through one handle, without refresh |
| PcsTransfer.TransferExhausted | lib/backup/storage/pcs.rb:40-41 | when every request fails with AuthError or EPIPE and every refresh succeeds, the transfer tries the first file 6 times and raises "Upload Failed!" around "Too many auth errors" |
| PcsTransfer.TransferRefreshesOnce | spec/pcs_spec.rb:130-142 | an expired token on the one upload of a transfer, then acceptance: the upload is made twice to the same destination with one refresh between, and the second goes through a handle built from the refreshed session, which is now cached |
| PcsTransfer.RemoveAccepted | lib/backup/storage/pcs.rb:47-49 | when the remote accepts every request from now on, whatever it answered before, and the client can be had, `remove!` makes exactly one request |
| PcsStorage.Storage.constructor | lib/backup/storage/pcs.rb:13-19 | a new storage has the defaulted settings, no handle, the disk's cache files and empty logs, and is coherent |
| PcsStorage.Storage.WriteCache | lib/backup/storage/pcs.rb:100-105 | `write_cache!` overwrites the storage's cache file with the session, which then reads back |
| PcsStorage.Storage.CreateSession | lib/backup/storage/pcs.rb:111-132 | computes `create_session!` on the object's state, as `CreateSessionEffect` describes |
| PcsStorage.Storage.Client | lib/backup/storage/pcs.rb:53-64 | computes `client` on the object's state, as `ClientEffect` describes |
| PcsStorage.Storage.Refresh | lib/backup/storage/pcs.rb:88 | one refresh exchange: returns the endpoint's answer for the token and logs the exchange |
| PcsStorage.Storage.Send | lib/backup/storage/pcs.rb:36 | one remote request: returns the remote's answer as an outcome and logs the request |
| PcsStorage.Storage.Perform | lib/backup/storage/pcs.rb:28-37 | one run of the block on the object's state, as `AttemptEffect` describes |
| PcsStorage.Storage.Rescue | lib/backup/storage/pcs.rb:85-92 | the rescue clause on the object's state, as `RecoverEffect` describes |
| PcsStorage.Storage.AutoRefreshToken | lib/backup/storage/pcs.rb:81-94 | the retry loop computes `RefreshLoop` from 0 tries, so every `PcsLoop` lemma holds of it |
| PcsStorage.Storage.Transfer | lib/backup/storage/pcs.rb:23-42 | the loop over the file names computes `TransferSteps`, so every `PcsTransfer` lemma about transfers holds of it |
| PcsStorage.Storage.Remove | lib/backup/storage/pcs.rb:44-50 | `remove!` is one `auto_refresh_token` call with the delete of the package path and no wrapping, so every `PcsLoop` lemma holds of it: at most 6 requests, all deletes of that path (`LoopCallsAreOp`), and success only when the last one was accepted (`LoopDoneOnAccepted`) |

## Left out

- The Baidu OAuth and PCS client libraries are not part of this model. Their answers, whether a session,
  nil, or a reply to a request, are the oracles of `PcsSpec.Env`. What makes the remote raise AuthError
  (an expired token) is left to the oracle.
- `create_session!`'s console dialogue is left out: the prompts on STDOUT, the wait on STDIN and the
  300-second timeout. The device flow is reduced to one oracle answer. A failure of any kind is one
  `OtherError` under "Could not create a new session!".
- A device flow that yields nil without raising is not distinguished from a failing one.
- An exception raised by the refresh endpoint itself is not modelled. It would propagate out of the
  rescue clause unchanged.
- A failure of `Baidu::PCS::Client.new` is not modelled. Building a handle always succeeds.
- File I/O is left out: `File.open(src)` of the local package file, `FileUtils.mkdir_p`, and the
  reading and writing of the cache file. The cache directory is a map that always accepts a write. A
  local file that cannot be opened is not modelled.
- `Marshal` and `Base64` encoding are replaced by the `Entry` datatype. Any content that fails to
  decode is `Corrupt`.
- Logging (`Logger.info`, `Logger.warn`) is not modelled. A corrupt cache file's warning is only the
  `None` result of `Load`.
- The `Base` storage and `Cycler` framework is not part of this model. `Config.tmp_path`, `remote_path`,
  `remote_path_for(package)` and the package's file names are inputs. `Config.cache_path` is the
  settings' `cachePath`.
- `File.join` is modelled only for a name without a leading '/'. The separator normalisation it does
  beyond a trailing '/' on the directory is left out.
- `Error.wrap`'s message formatting is left out. A wrapped error is `PcsError(message, Some(cause))`.
- Ruby's automatic `Exception#cause` is left out. "Too many auth errors" is raised inside the rescue
  clause, so Ruby records the rescued error as its cause, but the model gives it no cause.
- `oauth_client` (pcs.rb:107-109) only constructs the OAuth client from the credentials. It is folded
  into the refresh and device-flow oracles.
- LoopFirstCallUsesCache, RescueSendsFailedToken and LoopRefreshes state the path of a refreshed
  session one refresh at a time. No single lemma states the whole chain for all refreshes of a call.
- RefreshLoop and AutoRefreshToken take as the block only what `transfer!` and `remove!` pass:
  `client` followed by exactly one request. `auto_refresh_token` itself yields to any block
  (pcs.rb:84). A block that makes no request, such as the empty block `{ }`, or one that makes
  several, cannot be expressed, and every run of the block goes through `client`, which may start the
  device flow.
