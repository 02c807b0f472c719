/**
 * Environment resolution and the memoising accessor (ev/config.py `get_env_varname`,
 * `set_env_varname`, `get_env`, `get_config`). The process-wide variable name and the
 * cache of built configurations are the fields of one `ConfigLoader` object; the process
 * environment and the filesystem are parameters.
 */
module ConfigLoading {

  import opened Wrappers
  import opened JsonValue
  import opened ConfigFiles

  /** The variable consulted for the environment name unless it is changed. */
  const DefaultEnvVarName: string := "EV_ENV"
  /** The environment assumed when the variable is not set. */
  const DefaultEnv: string := "dev"
  /** The private file loaded when no private file is named. */
  const DefaultPrivateFile: string := "config_private.json"

  /** The process environment: variable name to value. */
  type Environ = map<string, string>

  /** A cache entry is identified by the public and the private file name. */
  type CacheKey = (string, string)

  /** The value of variable `name`, or "dev" when it is not set; an empty value is returned as it is. */
  function ResolveEnv(name: string, environ: Environ): (e: string)
    ensures name in environ ==> e == environ[name]
    ensures e == DefaultEnv <==> name !in environ || environ[name] == DefaultEnv
  {
    if name in environ then environ[name] else DefaultEnv
  }

  /**
   * The documentation of `get_env` promises "dev" for an empty variable too; the code
   * returns the empty string, and the public file name then becomes "config_public_.json".
   */
  lemma EmptyVariableIsNotDefaulted(name: string, environ: Environ)
    requires name in environ && environ[name] == ""
    ensures ResolveEnv(name, environ) == ""
    ensures CacheKeyFor(None, None, None, name, environ) == ("config_public_.json", DefaultPrivateFile)
  {
    assert DefaultPublicFile("") == "config_public_.json";
  }

  /** An optional string argument is falsy when it is absent or empty. */
  predicate Truthy(o: Option<string>)
  {
    o.Some? && o.value != ""
  }

  /** Python's `given or fallback` for an optional string argument. */
  function Or(given: Option<string>, fallback: string): (s: string)
    ensures Truthy(given) ==> s == given.value
    ensures !Truthy(given) ==> s == fallback
  {
    if Truthy(given) then given.value else fallback
  }

  /** The public file used for environment `env` when none is named. */
  function DefaultPublicFile(env: string): string
  {
    "config_public_" + env + ".json"
  }

  /**
   * The file pair `get_config` loads and caches under: each falsy argument is replaced by
   * its default, the environment by the resolved one, and the public file by the name
   * built from that environment.
   */
  function CacheKeyFor(env: Option<string>, publicFile: Option<string>, privateFile: Option<string>,
                       name: string, environ: Environ): (key: CacheKey)
    ensures key.0 != "" && key.1 != ""
    ensures Truthy(publicFile) ==> key.0 == publicFile.value
    ensures !Truthy(publicFile) && Truthy(env) ==> key.0 == DefaultPublicFile(env.value)
    ensures !Truthy(publicFile) && !Truthy(env) ==> key.0 == DefaultPublicFile(ResolveEnv(name, environ))
    ensures key.1 == if Truthy(privateFile) then privateFile.value else DefaultPrivateFile
  {
    var e := Or(env, ResolveEnv(name, environ));
    (Or(publicFile, DefaultPublicFile(e)), Or(privateFile, DefaultPrivateFile))
  }

  /** With no arguments and the variable unset, the files are those of environment "dev". */
  lemma DefaultFilesWhenUnset(name: string, environ: Environ)
    requires name !in environ
    ensures CacheKeyFor(None, None, None, name, environ) == ("config_public_dev.json", "config_private.json")
  {
    assert DefaultPublicFile("dev") == "config_public_dev.json";
  }

  /** The process environment is consulted only when no environment is given and no public file is named. */
  lemma EnvironmentConsultedOnlyForDefaults(env: Option<string>, publicFile: Option<string>,
                                            privateFile: Option<string>, name: string, e1: Environ, e2: Environ)
    requires Truthy(env) || Truthy(publicFile)
    ensures CacheKeyFor(env, publicFile, privateFile, name, e1) == CacheKeyFor(env, publicFile, privateFile, name, e2)
  {
  }

  /** `_configs.get(key)` followed by `if not config`: only a non-empty cached configuration is reused. */
  predicate CachedHit(cache: map<CacheKey, Config>, key: CacheKey)
  {
    key in cache && cache[key] != map[]
  }

  /**
   * One `get_config` call on a resolved key: the cached configuration, or a freshly built one
   * that is stored only when building succeeds. Only the entry at `key` can change.
   */
  function CacheStep(cache: map<CacheKey, Config>, key: CacheKey, fs: FileSystem)
    : (res: (Result<Config, LoadError>, map<CacheKey, Config>))
    ensures CachedHit(cache, key) ==> res == (Success(cache[key]), cache)
    ensures !CachedHit(cache, key) ==> res.0 == BuildConfig([key.0, key.1], fs)
    ensures res.0.Failure? ==> res.1 == cache
    ensures res.0.Success? ==> key in res.1 && res.1[key] == res.0.value
    ensures res.1.Keys == cache.Keys + (if res.0.Success? then {key} else {})
    ensures forall k :: k in cache && k != key ==> res.1[k] == cache[k]
  {
    if CachedHit(cache, key) then (Success(cache[key]), cache)
    else match BuildConfig([key.0, key.1], fs)
      case Success(c) => (Success(c), cache[key := c])
      case Failure(e) => (Failure(e), cache)
  }

  /**
   * A non-empty configuration, once returned, is returned again for the same key without
   * reading the files, even when they have changed meanwhile.
   */
  lemma RepeatedCallIsCached(cache: map<CacheKey, Config>, key: CacheKey, fs: FileSystem, fs': FileSystem)
    requires CacheStep(cache, key, fs).0.Success? && CacheStep(cache, key, fs).0.value != map[]
    ensures CacheStep(CacheStep(cache, key, fs).1, key, fs') == CacheStep(cache, key, fs)
  {
  }

  /** A cached empty configuration counts as missing: the files are loaded again. */
  lemma EmptyEntryIsReloaded(cache: map<CacheKey, Config>, key: CacheKey, fs: FileSystem)
    requires key in cache && cache[key] == map[]
    ensures CacheStep(cache, key, fs).0 == BuildConfig([key.0, key.1], fs)
  {
  }

  /** Every cached entry is what building its two files yields on `fs`. */
  ghost predicate Coherent(cache: map<CacheKey, Config>, fs: FileSystem)
  {
    forall key :: key in cache ==> BuildConfig([key.0, key.1], fs) == Success(cache[key])
  }

  /** While the files do not change, memoisation is invisible: each call returns what building would. */
  lemma CacheIsTransparent(cache: map<CacheKey, Config>, key: CacheKey, fs: FileSystem)
    requires Coherent(cache, fs)
    ensures CacheStep(cache, key, fs).0 == BuildConfig([key.0, key.1], fs)
    ensures Coherent(CacheStep(cache, key, fs).1, fs)
  {
  }

  /** The process-wide state of the configuration module. */
  class ConfigLoader {
    /** The variable that names the environment (`_env_var`). */
    var envVarName: string
    /** The built configurations, by file pair (`_configs`). */
    var cache: map<CacheKey, Config>

    /** The state at import time. */
    constructor ()
      ensures envVarName == DefaultEnvVarName && cache == map[]
    {
      envVarName := DefaultEnvVarName;
      cache := map[];
    }

    /** `get_env_varname`. */
    function GetEnvVarName(): (n: string)
      reads this
      ensures n == envVarName
    {
      envVarName
    }

    /** `set_env_varname`: later resolutions use `name`; cached configurations are kept. */
    method SetEnvVarName(name: string)
      modifies this`envVarName
      ensures GetEnvVarName() == name
      ensures cache == old(cache)
    {
      envVarName := name;
    }

    /** `get_env`: the environment named by the current variable. */
    function GetEnv(environ: Environ): (e: string)
      reads this
      ensures envVarName in environ ==> e == environ[envVarName]
      ensures envVarName !in environ ==> e == DefaultEnv
    {
      ResolveEnv(envVarName, environ)
    }

    /** `get_config`: resolve the defaults, then return the cached or a freshly built configuration. */
    method GetConfig(env: Option<string>, publicFile: Option<string>, privateFile: Option<string>,
                     environ: Environ, fs: FileSystem) returns (r: Result<Config, LoadError>)
      modifies this`cache
      ensures (r, cache) == CacheStep(old(cache), CacheKeyFor(env, publicFile, privateFile, envVarName, environ), fs)
    {
      var e := Or(env, GetEnv(environ));
      var pub := Or(publicFile, DefaultPublicFile(e));
      var priv := Or(privateFile, DefaultPrivateFile);
      var key := (pub, priv);
      var config := if key in cache then Some(cache[key]) else None;
      if config.None? || config.value == map[] {
        r := LoadConfig([pub, priv], fs);
        if r.Success? {
          cache := cache[key := r.value];
        }
      } else {
        r := Success(config.value);
      }
    }
  }

  /** After `set_env_varname("APP_ENV")`, `get_env_varname()` returns "APP_ENV" and `get_env` reads that variable. */
  method SetThenGetVarName(environ: Environ) returns (name: string, e: string)
    ensures name == "APP_ENV"
    ensures e == if "APP_ENV" in environ then environ["APP_ENV"] else "dev"
  {
    var loader := new ConfigLoader();
    loader.SetEnvVarName("APP_ENV");
    name := loader.GetEnvVarName();
    e := loader.GetEnv(environ);
  }

  /** A first call with no arguments and `EV_ENV` unset loads the "dev" public file and the private file. */
  method FirstCallWithDefaults(environ: Environ, fs: FileSystem) returns (r: Result<Config, LoadError>)
    requires DefaultEnvVarName !in environ
    ensures r == BuildConfig(["config_public_dev.json", "config_private.json"], fs)
  {
    var loader := new ConfigLoader();
    r := loader.GetConfig(None, None, None, environ, fs);
    DefaultFilesWhenUnset(DefaultEnvVarName, environ);
  }

  /**
   * Two calls with the same arguments: the second returns the first's non-empty result even
   * when the files changed in between; file pairs that differ get entries of their own.
   */
  method RepeatedAndDistinctCalls(environ: Environ, fs1: FileSystem, fs2: FileSystem)
    returns (r1: Result<Config, LoadError>, r2: Result<Config, LoadError>, r3: Result<Config, LoadError>)
    ensures r1.Success? && r1.value != map[] ==> r2 == r1
    ensures r3 == BuildConfig(["a.json", "c.json"], fs2)
  {
    var loader := new ConfigLoader();
    r1 := loader.GetConfig(None, Some("a.json"), Some("b.json"), environ, fs1);
    r2 := loader.GetConfig(None, Some("a.json"), Some("b.json"), environ, fs2);
    r3 := loader.GetConfig(None, Some("a.json"), Some("c.json"), environ, fs2);
  }
}
