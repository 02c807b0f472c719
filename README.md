# ev config: deep merge and memoised configuration loading, in Dafny

This project models the configuration module of `ev` (`ev/config.py`). That module loads
a public JSON file (`config_public_<env>.json`) and a private one (`config_private.json`)
and deep-merges the private one over the public one. It picks the environment from a
process environment variable (`EV_ENV` unless changed; the environment is `dev` when the
variable is unset). It memoises the result per pair of file names.

Modules:

- `Wrappers` (`wrappers.dfy`): `Option` and `Result`.
- `JsonValue` (`json.dfy`): decoded JSON as a tagged datatype. A JSON object is a
  `map<string, Json>`. A `Config` is a mapping from keys to JSON values. `Lookup`
  follows a path of keys into nested objects.
- `DeepMerge` (`merge.dfy`): `Merge` is the specification of `_merge_dicts`.
  `MergeDicts` is the source's key-by-key loop, proved to compute `Merge` for every
  order in which the keys are visited. The lemmas state what the merge keeps and what
  it adopts, at any depth.
- `ConfigFiles` (`files.dfy`): the file branch of `Config.__init__`. `LoadConfig` loops
  over the file names and merges each one's contents into the mapping being built. It is
  proved equal to `BuildConfig`, the left fold of `Merge` over the loaded contents,
  starting from the empty mapping. The filesystem and the JSON decoder together are one
  map from file name to decoded value. A name that is absent cannot be opened or decoded.
- `ConfigLoading` (`loader.dfy`): the process-wide state as a class `ConfigLoader`. Its
  fields are `envVarName` and `cache`. The class has `get_env_varname`,
  `set_env_varname`, `get_env` and `get_config`. The process environment is a
  `map<string, string>` parameter. `CacheStep` specifies one `get_config` call on a
  resolved key.

Where the code and its documentation part ways, the model follows the code:

- `get_env` returns the variable's value even when it is empty. Its doc comment
  (ev/config.py:55) says "dev" is used for an empty value as well.
  `EmptyVariableIsNotDefaulted` shows the consequence: with `EV_ENV=""`, `get_config()`
  loads `config_public_.json`.
- `get_config` tests the cached value with `if not config`. A cached configuration that
  is empty is therefore rebuilt on every call (`EmptyEntryIsReloaded`). It is not
  returned as a hit.
- A file whose top-level JSON value is not an object makes the merge fail, because
  `.items()` does not exist on it. This is modelled as the error `NotAMapping`. The value
  is not carried over wholesale.

## Model

| member | source | states |
|---|---|---|
| `DeepMerge.Merge` | ev/config.py:30-42 | the result has the keys of both mappings; a key only in `d1` keeps its value; where `d1` and `d2` both hold objects the result is their recursive merge; at every other key of `d2` the result is `d2`'s value |
| `DeepMerge.MergeDicts` | ev/config.py:37-42 | the loop over `d2`'s keys, recursing into pairs of nested objects and otherwise storing `d2`'s value, yields exactly `Merge(d1, d2)`, whatever the order of the keys |
| `DeepMerge.MergeEmptyRight` | ev/config.py:37-42 | merging an empty mapping leaves `d1` unchanged |
| `DeepMerge.MergeEmptyLeft` | ev/config.py:37-42 | merging into an empty mapping yields the merged mapping |
| `DeepMerge.MergeSelf` | ev/config.py:38-40 | merging a mapping into itself changes nothing, at every depth |
| `DeepMerge.MergeIdempotent` | ev/config.py:37-42 | merging the same `d2` a second time changes nothing more |
| `DeepMerge.NestedMerge` | ev/config.py:38-40 | when both values at `k` are objects, the result at `k` is an object with the union of their sub-keys; sub-keys only in `d1[k]` keep their values; non-object sub-keys of `d2[k]` are adopted |
| `DeepMerge.DeepAdopt` | ev/config.py:37-42 | a non-object value that `d2` holds at any path is what the merge holds at that path |
| `DeepMerge.DeepPreserve` | ev/config.py:37-42 | a value that `d1` holds at any path survives the merge when `d2` stores nothing along that path |
| `DeepMerge.NestedOverrideExample` | ev/config.py:37-42 | public `{"db": {"host": "h1", "port": 5432}, "debug": false}` merged with private `{"db": {"host": "h2"}}` gives `{"db": {"host": "h2", "port": 5432}, "debug": false}` |
| `DeepMerge.MergeNotAssociative` | ev/config.py:37-42 | there are three mappings for which merging the first two first differs from merging the last two first, so the order in which files are folded matters |
| `ConfigFiles.Load` | ev/config.py:58-60 | a file whose name is absent (cannot be opened or decoded) gives `Unreadable`; a file whose top-level value is not an object gives `NotAMapping`, the error `d2.items()` raises at ev/config.py:37 when called from line 79; an object gives its mapping |
| `ConfigFiles.LoadAll` | ev/config.py:78-79 | loading succeeds exactly when every file yields a mapping; on success it gives each file's contents in order; on failure it gives the error of the first failing file, and every file before it loaded |
| `ConfigFiles.LoadConfig` | ev/config.py:77-79 | the loop over the file names, merging each file's contents into a mapping that starts empty, yields exactly `BuildConfig(files, fs)`, the left fold of `Merge` over the loaded contents, or the error `BuildConfig` gives |
| `ConfigFiles.FirstFailureDecides` | ev/config.py:78-79 | the first file that fails to load decides the error of the whole construction, whatever follows it |
| `ConfigFiles.FoldLastWriterWins` | ev/config.py:78-79 | in a left fold of merges, a non-object value at some path in content `j` is the result there when no later content stores anything along that path |
| `ConfigFiles.LaterFileWins` | ev/config.py:66-79 | in a configuration built from several files, a non-object setting of file `j` wins over earlier files and survives later files that do not store anything along its path |
| `ConfigFiles.SingleFile` | ev/config.py:77-79 | a configuration built from one file is that file's mapping, or that file's error |
| `ConfigFiles.PublicThenPrivate` | ev/config.py:98-101 | when both files load, the configuration for the pair is the private mapping deep-merged over the public one |
| `ConfigLoading.ResolveEnv` | ev/config.py:54-56 | the result is the variable's value when the variable is set; it is "dev" exactly when the variable is unset or set to "dev" |
| `ConfigLoading.EmptyVariableIsNotDefaulted` | ev/config.py:54-56 | a variable set to the empty string yields `""`, not "dev"; with no arguments the public file is then `config_public_.json` |
| `ConfigLoading.ConfigLoader.GetEnvVarName` | ev/config.py:45-47 | returns the current variable name |
| `ConfigLoading.ConfigLoader.GetEnv` | ev/config.py:54-56 | the value of the current variable when it is set, and "dev" when it is not |
| `ConfigLoading.Or` | ev/config.py:94-96 | an absent or empty argument is replaced by the fallback; any other argument is kept |
| `ConfigLoading.CacheKeyFor` | ev/config.py:94-98 | the cache key never holds an empty file name; a truthy public or private file is kept; otherwise the public file is `config_public_<env>.json` for the given environment, or else for the resolved one, and the private file is `config_private.json` |
| `ConfigLoading.DefaultFilesWhenUnset` | ev/config.py:94-96 | with no arguments and the variable unset, the key is (`config_public_dev.json`, `config_private.json`) |
| `ConfigLoading.EnvironmentConsultedOnlyForDefaults` | ev/config.py:94-95 | when an environment or a public file is given, the process environment does not affect the key |
| `ConfigLoading.CacheStep` | ev/config.py:98-104 | a non-empty cached entry is returned and the cache is unchanged; otherwise the pair of files is built; a failure leaves the cache unchanged; a success is stored at the key; no other entry changes or appears |
| `ConfigLoading.RepeatedCallIsCached` | ev/config.py:98-104 | after a call returns a non-empty configuration, the next call for the same key returns it again and leaves the cache as it is, even if the files have changed |
| `ConfigLoading.EmptyEntryIsReloaded` | ev/config.py:99-102 | an empty cached configuration counts as missing, so the files are built again |
| `ConfigLoading.CacheIsTransparent` | ev/config.py:98-104 | while the files do not change and every entry matches its files, a call returns what building the files would return, and every entry still matches its files |
| `ConfigLoading.ConfigLoader.constructor` | ev/config.py:44-81 | the variable name starts as `EV_ENV` (`_env_var`, line 44) and the cache starts empty (`_configs = {}`, line 81) |
| `ConfigLoading.ConfigLoader.SetEnvVarName` | ev/config.py:49-52 | after the call, `GetEnvVarName()` returns the new name; the cache is unchanged |
| `ConfigLoading.ConfigLoader.GetConfig` | ev/config.py:82-104 | the result and the new cache are `CacheStep` of the old cache, on the key resolved from the arguments, the current variable name and the environment; the variable name is unchanged |
| `ConfigLoading.SetThenGetVarName` | ev/config.py:45-56 | after `set_env_varname("APP_ENV")`, `get_env_varname()` returns "APP_ENV" and `get_env` reads `APP_ENV`, falling back to "dev" |
| `ConfigLoading.FirstCallWithDefaults` | ev/config.py:82-104 | a first call with no arguments and `EV_ENV` unset builds `config_public_dev.json` then `config_private.json` |
| `ConfigLoading.RepeatedAndDistinctCalls` | ev/config.py:98-104 | a second call with the same files returns the first non-empty result even after the files change; a call with a different private file builds its own pair |

## Left out

- `_load_file` (ev/config.py:58-60): opening a file, decoding UTF-8 and parsing JSON are I/O and a foreign library. The filesystem is an abstract map from file name to decoded value. A missing name is any failure to open or decode.
- `os.environ` is an explicit `map<string, string>` parameter.
- The `dict.__init__` branch of `Config.__init__` (ev/config.py:74-75): this branch handles keyword arguments or a single non-string argument. It is the library's own dictionary constructor. `Config` is the mapping itself, so any mapping is already a configuration; `get_config` never takes this branch.
- The Python 2/3 `basestring` shim and the `collections.Mapping` import (ev/config.py:19-28): language plumbing.
- DeepMerge.MergeDicts: works on values, not in place. When a value is stored, Python lets `d1` share the nested dictionaries of `d2`. That sharing is not modelled. The inputs are taken to be fresh, tree-shaped decoded JSON.
- ConfigLoading.ConfigLoader.GetConfig: a repeated call for a key whose cached configuration is non-empty returns an equal configuration. The model does not say it is the same object, because values have no identity here.
- Key order is not modelled. Python dictionaries keep insertion order, so a merged configuration lists `d1`'s keys first and then `d2`'s new keys in `d2`'s order. A `map` has no order. Nothing in the module depends on the order.
- JSON numbers are opaque: a number is kept as its literal text, and floating point is not modelled.
- Arguments to `get_config` that are neither absent nor strings are not modelled. Only None and the empty string are falsy.
- Concurrent access to the process-wide cache is not modelled. The model is single-threaded.
