/** The session cache: one file per (storage id, client id) under the cache directory,
    modelled as a map from file path to the entry stored there. */
module PcsCache {
  import opened PcsTypes
  import opened PcsConfig

  /** `File.join(dir, name)` for a `name` that does not start with a separator:
      one '/' between the two parts, none added when `dir` already ends with one. */
  function Join(dir: string, name: string): string {
    if dir != [] && dir[|dir| - 1] == '/' then dir + name else dir + "/" + name
  }

  /** The joined path ends with `name` right after a '/', and what precedes it is `dir`,
      with a '/' appended when `dir` did not already end with one. */
  lemma JoinShape(dir: string, name: string)
    ensures var r := Join(dir, name);
      && |r| > |name| && r[|r| - |name|..] == name && r[|r| - |name| - 1] == '/'
      && r[..|r| - |name|] == (if dir != [] && dir[|dir| - 1] == '/' then dir else dir + "/")
  {
  }

  /** String interpolation of an attribute: nil renders as the empty string. */
  function Render(id: Option<string>): string {
    id.GetOr("")
  }

  /** The name of the cache file, without its directory. */
  function CacheName(s: Settings): string {
    "pcs_" + Render(s.storageId) + "_" + Render(s.clientId)
  }

  /** `cached_file`: the cache file of a storage. */
  function CachedFile(s: Settings): string {
    Join(s.cachePath, CacheName(s))
  }

  /** `cached_session`: the session stored at `key`, or None (Ruby's `false`) when there is no
      file or its content cannot be read back. It never raises. */
  function Load(cache: map<string, Entry>, key: string): (r: Option<Session>)
    ensures r.Some? <==> key in cache && cache[key].Encoded?
    ensures r.Some? ==> cache[key] == Encoded(r.value)
  {
    if key in cache && cache[key].Encoded? then Some(cache[key].session) else None
  }

  /** `write_cache!`: overwrite the entry at `key` with the encoded session. */
  function Store(cache: map<string, Entry>, key: string, session: Session): (r: map<string, Entry>)
    ensures Load(r, key) == Some(session)
    ensures r - {key} == cache - {key}
    ensures r.Keys == cache.Keys + {key}
  {
    cache[key := Encoded(session)]
  }

  /** Two files in one directory are the same file only if their names are the same. */
  lemma {:induction false} JoinInjective(dir: string, a: string, b: string)
    requires Join(dir, a) == Join(dir, b)
    ensures a == b
  {
    var x := Join(dir, a);
    assert |a| == |b| by {
      if dir != [] && dir[|dir| - 1] == '/' {
        assert x == dir + a == dir + b;
      } else {
        assert x == dir + "/" + a == dir + "/" + b;
      }
    }
    assert a == x[|x| - |a|..] == b;
  }

  /** The cache name determines both ids when the storage ids contain no '_'. */
  lemma {:induction false} CacheNameInjective(a: string, b: string, a': string, b': string)
    requires '_' !in a && '_' !in a'
    requires "pcs_" + a + "_" + b == "pcs_" + a' + "_" + b'
    ensures a == a' && b == b'
  {
    var x := "pcs_" + a + "_" + b;
    var y := "pcs_" + a' + "_" + b';
    assert forall k :: 0 <= k < |a| ==> x[4 + k] == a[k];
    assert forall k :: 0 <= k < |a'| ==> y[4 + k] == a'[k];
    assert x[4 + |a|] == '_' && y[4 + |a'|] == '_';
    if |a| != |a'| {
      assert false;
    }
    assert a == x[4..4 + |a|] && a' == y[4..4 + |a'|];
    assert b == x[5 + |a|..] && b' == y[5 + |a'|..];
  }

  /** Two storages sharing a cache directory share a cache file only if they render the same client id
      and, when their storage ids contain no '_', the same storage id. */
  lemma CachedFileInjective(s1: Settings, s2: Settings)
    requires s1.cachePath == s2.cachePath
    requires '_' !in Render(s1.storageId) && '_' !in Render(s2.storageId)
    requires CachedFile(s1) == CachedFile(s2)
    ensures Render(s1.storageId) == Render(s2.storageId)
    ensures Render(s1.clientId) == Render(s2.clientId)
  {
    JoinInjective(s1.cachePath, CacheName(s1), CacheName(s2));
    CacheNameInjective(Render(s1.storageId), Render(s1.clientId), Render(s2.storageId), Render(s2.clientId));
  }

  /** Storage ids with an '_' can collide: ids ("a_b", "c") and ("a", "b_c") share one cache file. */
  lemma CachedFileCollision(s1: Settings, s2: Settings)
    requires s1.cachePath == s2.cachePath
    requires s1.storageId == Some("a_b") && s1.clientId == Some("c")
    requires s2.storageId == Some("a") && s2.clientId == Some("b_c")
    ensures s1 != s2 && CachedFile(s1) == CachedFile(s2)
  {
    assert CacheName(s1) == "pcs_a_b_c" == CacheName(s2);
  }

  /** The paths 'has right cached file path' expects: a storage with id 'sid' and the default cache
      directory `.cache` under the root path, and one without an id whose cache directory is `/tmp/pcs`. */
  lemma CachedFileExamples(s1: Settings, s2: Settings, root: string)
    requires root != [] && root[|root| - 1] != '/'
    requires s1.cachePath == root + "/.cache" && s1.storageId == Some("sid") && s1.clientId == Some("ci")
    requires s2.cachePath == "/tmp/pcs" && s2.storageId == None && s2.clientId == Some("ci2")
    ensures CachedFile(s1) == root + "/.cache/pcs_sid_ci"
    ensures CachedFile(s2) == "/tmp/pcs/pcs__ci2"
  {
    assert CacheName(s1) == "pcs_sid_ci";
    assert CacheName(s2) == "pcs__ci2";
    assert s1.cachePath[|s1.cachePath| - 1] == 'e';
  }

  /** Round trip through the codec: what `write_cache!` stores, `cached_session` reads back,
      and every other cache file is left as it was. */
  lemma LoadAfterStore(cache: map<string, Entry>, key: string, other: string, session: Session)
    requires other != key
    ensures Load(Store(cache, key, session), key) == Some(session)
    ensures Load(Store(cache, key, session), other) == Load(cache, other)
  {
  }
}
