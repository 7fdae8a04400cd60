/** The configuration and key cache of key_verifier.py: a JSON configuration read once into
    the `Config` object and looked up by dotted paths, a key cache on disk that expires a week
    after the key was stored, and a key check that lets every key through and logs it masked.

    The two files are part of the object's state: `configFile` for config/config.json and
    `keyCache` for config/key_cache.json. The clock is a parameter (`now`, in whole seconds),
    and whether a write or a removal succeeds is a parameter too. */
module KeyVerifier {
  import opened Text

  // ---------------------------------------------------------------- JSON values

  /** A value `json.load` can produce. Numbers are whole. */
  datatype Value =
    | Dict(entries: map<string, Value>)
    | Str(text: string)
    | Num(n: int)
    | Bool(b: bool)
    | List(items: seq<Value>)
    | Null

  /** The configuration written when none can be loaded (key_verifier.py:59-63). */
  const BaseUrl: string := "https://api.cloudoption.site"

  function DefaultConfig(): Value {
    Dict(map["api" := Dict(map["base_url" := Str(BaseUrl)])])
  }

  /** What config/config.json holds: nothing, something `json.load` refuses, or a value. */
  datatype ConfigFile = Missing | Broken | Stored(content: Value)

  /** What config/key_cache.json holds: nothing; something that makes reading the cache
      raise (not JSON, not an object, or an `expire_time` that does not compare with a
      number); or an object whose `key` and `expire_time` may each be absent. */
  datatype CacheFile = NoCache | Unreadable | Record(key: Option<string>, expire: Option<int>)

  /** The lifetime of a cached key: seven days, in seconds (key_verifier.py:118). */
  const Week: int := 7 * 24 * 60 * 60

  // ---------------------------------------------------------------- dotted lookup

  /** The value at `path` below `v`, if every step of the path is a key of a dict. */
  function Find(v: Value, path: seq<string>): Option<Value>
    decreases |path|
  {
    if path == [] then Some(v)
    else if v.Dict? && path[0] in v.entries then Find(v.entries[path[0]], path[1..])
    else None
  }

  /** The nested dicts that hold `leaf` at `path`. */
  function Nest(path: seq<string>, leaf: Value): Value
    decreases |path|
  {
    if path == [] then leaf else Dict(map[path[0] := Nest(path[1..], leaf)])
  }

  /** Whatever is stored at a path is found at that path. */
  lemma {:induction false} FindNest(path: seq<string>, leaf: Value)
    ensures Find(Nest(path, leaf), path) == Some(leaf)
    decreases |path|
  {
    if path != [] {
      FindNest(path[1..], leaf);
    }
  }

  /** A lookup along `p + q` is a lookup along `p`, then along `q` from what it found. */
  lemma {:induction false} FindAppend(v: Value, p: seq<string>, q: seq<string>)
    ensures Find(v, p + q) == if Find(v, p).Some? then Find(Find(v, p).value, q) else None
    decreases |p|
  {
    if p == [] {
      assert p + q == q;
    } else {
      assert (p + q)[0] == p[0];
      assert (p + q)[1..] == p[1..] + q;
      if v.Dict? && p[0] in v.entries {
        FindAppend(v.entries[p[0]], p[1..], q);
      }
    }
  }

  /** The lookup gives up for good at the first segment that is not a key of a dict at its
      level (key_verifier.py:89-92): nothing after that segment matters. */
  lemma FindStops(v: Value, p: seq<string>, part: string, q: seq<string>)
    requires Find(v, p).Some?
    requires var u := Find(v, p).value; !(u.Dict? && part in u.entries)
    ensures Find(v, p + [part] + q) == None
  {
    assert p + [part] + q == p + ([part] + q);
    FindAppend(v, p, [part] + q);
    assert ([part] + q)[0] == part;
  }

  /** A dotted key made by joining segments without dots looks up exactly those segments. */
  lemma FindDotted(v: Value, path: seq<string>)
    requires |path| >= 1 && forall k :: 0 <= k < |path| ==> '.' !in path[k]
    ensures Find(v, Split(Join(path, '.'), '.')) == Find(v, path)
  {
    SplitJoin(path, '.');
  }

  /** A dotted key with one dot names two segments. */
  lemma SplitTwo(a: string, b: string)
    requires '.' !in a && '.' !in b
    ensures Split(a + ['.'] + b, '.') == [a, b]
  {
    SplitAround(a, b, '.');
    SplitWithout(a, '.');
    SplitWithout(b, '.');
  }

  /** The key `"api.base_url"` names the segments `api` and `base_url`. */
  lemma SplitBaseUrlKey()
    ensures Split("api.base_url", '.') == ["api", "base_url"]
  {
    var api, url := "api", "base_url";
    assert '.' !in api && '.' !in url;
    assert "api.base_url" == api + ['.'] + url;
    SplitTwo(api, url);
  }

  /** The default configuration holds the base URL under `api`, `base_url`. */
  lemma FindDefaultBaseUrl()
    ensures Find(DefaultConfig(), ["api", "base_url"]) == Some(Str(BaseUrl))
  {
    var path := ["api", "base_url"];
    assert path[1..] == ["base_url"] && path[1..][1..] == [];
  }

  /** With the default configuration, `get("api.base_url")` is the service's base URL
      (key_verifier.py:59-63, 83-94). */
  lemma DefaultBaseUrl()
    ensures Find(DefaultConfig(), Split("api.base_url", '.')) == Some(Str(BaseUrl))
  {
    SplitBaseUrlKey();
    FindDefaultBaseUrl();
  }

  // ---------------------------------------------------------------- the key cache

  /** What `get_cached_key` returns at time `now` (key_verifier.py:96-112): nothing without
      a readable cache; nothing once `expire_time`, read as 0 when absent, is before `now`;
      otherwise the stored key, which may itself be absent. */
  function CachedKey(c: CacheFile, now: int): Option<string> {
    match c
    case NoCache => None
    case Unreadable => None
    case Record(key, expire) =>
      var t := if expire.Some? then expire.value else 0;
      if t < now then None else key
  }

  /** The cache `cache_verified_key` writes for `key` at time `now` (key_verifier.py:116-119). */
  function Stamp(key: string, now: int): CacheFile {
    Record(Some(key), Some(now + Week))
  }

  /** A key stored at `t` is handed back at every time up to and including `t + Week`, and
      never after: the expiry test is a strict `<` (key_verifier.py:106, 118). */
  lemma CacheRoundTrip(key: string, t: int, now: int)
    ensures CachedKey(Stamp(key, t), now) == Some(key) <==> now <= t + Week
    ensures now > t + Week ==> CachedKey(Stamp(key, t), now) == None
  {
  }

  /** A cache without `expire_time` counts as expired at every positive time. */
  lemma NoExpireIsExpired(key: Option<string>, now: int)
    requires now > 0
    ensures CachedKey(Record(key, None), now) == None
  {
  }

  /** Once the cached key is gone it stays gone, and while it is there it is the same key. */
  lemma ExpiryMonotone(c: CacheFile, now: int, later: int)
    requires now <= later
    ensures CachedKey(c, later).Some? ==> CachedKey(c, now) == CachedKey(c, later)
    ensures CachedKey(c, now).None? && c.Record? && c.key.Some? ==> CachedKey(c, later).None?
  {
  }

  // ---------------------------------------------------------------- the Config object

  class Config {
    /** `self.config`: the loaded configuration. */
    var config: Value
    /** The content of config/config.json. */
    var configFile: ConfigFile
    /** The content of config/key_cache.json. */
    var keyCache: CacheFile

    /** `Config()` (key_verifier.py:44-81): a readable config file is used as it is;
        otherwise the default configuration is used and written over the file, and a write
        that fails leaves the file as it was. */
    constructor(file: ConfigFile, cache: CacheFile, writable: bool)
      ensures file.Stored? ==> config == file.content && configFile == file
      ensures !file.Stored? ==> config == DefaultConfig()
      ensures !file.Stored? ==> configFile == if writable then Stored(DefaultConfig()) else file
      ensures keyCache == cache
    {
      if file.Stored? {
        config := file.content;
        configFile := file;
      } else {
        config := DefaultConfig();
        configFile := if writable then Stored(DefaultConfig()) else file;
      }
      keyCache := cache;
    }

    /** `get` (key_verifier.py:83-94): walks the segments of the dotted key through nested
        dicts and returns the value reached, or `default` as soon as a segment is missing or
        the value at hand is not a dict. */
    method Get(key: string, default: Value) returns (r: Value)
      ensures Find(config, Split(key, '.')).Some? ==> r == Find(config, Split(key, '.')).value
      ensures Find(config, Split(key, '.')).None? ==> r == default
    {
      var parts := Split(key, '.');
      var value := config;
      var i := 0;
      while i < |parts|
        invariant 0 <= i <= |parts|
        invariant Find(config, parts) == Find(value, parts[i..])
      {
        assert parts[i..][0] == parts[i] && parts[i..][1..] == parts[i + 1..];
        if value.Dict? && parts[i] in value.entries {
          value := value.entries[parts[i]];
        } else {
          return default;
        }
        i := i + 1;
      }
      assert parts[i..] == [];
      return value;
    }

    /** `get_cached_key` at time `now`. */
    method GetCachedKey(now: int) returns (r: Option<string>)
      ensures r == CachedKey(keyCache, now)
    {
      match keyCache
      case NoCache =>
        r := None;
      case Unreadable =>
        r := None;
      case Record(key, expire) =>
        var t := if expire.Some? then expire.value else 0;
        r := if t < now then None else key;
    }

    /** `cache_verified_key` at time `now` (key_verifier.py:114-125): the key is stored with
        an expiry a week ahead; a write that fails is logged and changes nothing. */
    method CacheVerifiedKey(key: string, now: int, writable: bool)
      modifies this
      ensures keyCache == if writable then Stamp(key, now) else old(keyCache)
      ensures config == old(config) && configFile == old(configFile)
      ensures writable ==> forall t :: now <= t <= now + Week ==> CachedKey(keyCache, t) == Some(key)
    {
      if writable {
        keyCache := Stamp(key, now);
      }
    }

    /** `clear_key_cache` (key_verifier.py:127-133): an existing cache file is removed; a
        removal that fails is logged and changes nothing. After a removal there is no cached
        key at any time. */
    method ClearKeyCache(removable: bool)
      modifies this
      ensures keyCache == if old(keyCache) != NoCache && removable then NoCache else old(keyCache)
      ensures config == old(config) && configFile == old(configFile)
      ensures removable ==> forall t :: CachedKey(keyCache, t) == None
    {
      if keyCache != NoCache && removable {
        keyCache := NoCache;
      }
    }
  }

  // ---------------------------------------------------------------- verify_key

  /** The log line of a key check: the first four characters of the key, `***`, and the last
      four only when the key is longer than eight (key_verifier.py:158). */
  function MaskKey(k: string): (m: string)
    ensures |m| == Min(|k|, 4) + 3 + (if |k| > 8 then 4 else 0)
    ensures m[..Min(|k|, 4)] == k[..Min(|k|, 4)]
    ensures m[Min(|k|, 4)..Min(|k|, 4) + 3] == "***"
    ensures |k| > 8 ==> m[|m| - 4..] == k[|k| - 4..]
  {
    k[..Min(|k|, 4)] + "***" + (if |k| > 8 then k[|k| - 4..] else "")
  }

  function Min(x: int, y: int): int { if x <= y then x else y }

  /** The mask of a key longer than eight depends only on its first and last four
      characters: the middle never shows. */
  lemma MaskHidesMiddle(a: string, b: string)
    requires |a| > 8 && |b| > 8
    requires a[..4] == b[..4] && a[|a| - 4..] == b[|b| - 4..]
    ensures MaskKey(a) == MaskKey(b)
  {
  }

  /** The mask of a key of at most eight characters shows only its first four: a short key
      is not revealed whole unless it has at most four characters. */
  lemma MaskShortKey(a: string, b: string)
    requires |a| <= 8 && |b| <= 8 && |a| >= 4 && |b| >= 4
    requires a[..4] == b[..4]
    ensures MaskKey(a) == MaskKey(b) == a[..4] + "***"
  {
  }

  /** What a key check returns and what it logs. */
  datatype Verdict = Verdict(ok: bool, logged: string)

  const VerifyLogPrefix: string := "验证请求 (自动验证通过模式): "

  /** `verify_key` (key_verifier.py:145-159): every key passes, whatever the mode or item;
      the key is logged masked. */
  function VerifyKey(apiKey: string, isBackground: bool, item: string): (r: Verdict)
    ensures r.ok
    ensures |r.logged| == |VerifyLogPrefix| + |MaskKey(apiKey)| && r.logged[|VerifyLogPrefix|..] == MaskKey(apiKey)
  {
    Verdict(true, VerifyLogPrefix + MaskKey(apiKey))
  }
}
