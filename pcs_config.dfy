/** The configuration of a PCS storage and the defaults `initialize` applies to it. */
module PcsConfig {
  import opened PcsTypes

  /** The values a configuration block may set; `None` is an attribute left nil.
      `cachePath` is resolved by the host framework and always present. */
  datatype Options = Options(
    storageId: Option<string>,
    clientId: Option<string>,
    clientSecret: Option<string>,
    dirName: Option<string>,
    path: Option<string>,
    cachePath: string,
    maxRetries: Option<int>,
    retryWaitsec: Option<int>)

  /** The configuration after `initialize`: the three defaulted attributes always have a value. */
  datatype Settings = Settings(
    storageId: Option<string>,
    clientId: Option<string>,
    clientSecret: Option<string>,
    dirName: Option<string>,
    path: string,
    cachePath: string,
    maxRetries: int,
    retryWaitsec: int)

  const DefaultPath: string := "backups"
  const DefaultMaxRetries: int := 10
  const DefaultRetryWaitsec: int := 30

  /** `initialize`: `||=` gives `path`, `max_retries` and `retry_waitsec` their defaults
      when the configuration left them nil, and keeps every value it did set. */
  function WithDefaults(o: Options): (s: Settings)
    ensures o.path.Some? ==> s.path == o.path.value
    ensures o.path.None? ==> s.path == DefaultPath
    ensures o.maxRetries.Some? ==> s.maxRetries == o.maxRetries.value
    ensures o.maxRetries.None? ==> s.maxRetries == DefaultMaxRetries
    ensures o.retryWaitsec.Some? ==> s.retryWaitsec == o.retryWaitsec.value
    ensures o.retryWaitsec.None? ==> s.retryWaitsec == DefaultRetryWaitsec
    ensures s.storageId == o.storageId && s.clientId == o.clientId && s.clientSecret == o.clientSecret
    ensures s.dirName == o.dirName && s.cachePath == o.cachePath
  {
    Settings(o.storageId, o.clientId, o.clientSecret, o.dirName,
             o.path.GetOr(DefaultPath), o.cachePath,
             o.maxRetries.GetOr(DefaultMaxRetries), o.retryWaitsec.GetOr(DefaultRetryWaitsec))
  }

  /** The configuration that sets every defaulted attribute explicitly to the value in `s`. */
  function Explicit(s: Settings): Options {
    Options(s.storageId, s.clientId, s.clientSecret, s.dirName,
            Some(s.path), s.cachePath, Some(s.maxRetries), Some(s.retryWaitsec))
  }

  /** Defaults never override: a configuration that sets everything comes through `initialize` unchanged. */
  lemma DefaultsKeepExplicitValues(s: Settings)
    ensures WithDefaults(Explicit(s)) == s
  {
  }

  /** The defaults of a storage that sets none of the three defaulted attributes ('has default config'). */
  lemma DefaultConfig(o: Options)
    requires o.path.None? && o.maxRetries.None? && o.retryWaitsec.None?
    ensures WithDefaults(o).path == "backups"
    ensures WithDefaults(o).maxRetries == 10 && WithDefaults(o).retryWaitsec == 30
  {
  }
}
