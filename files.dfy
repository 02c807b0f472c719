/**
 * Building a configuration from a list of files (ev/config.py `Config.__init__`, file branch):
 * start from the empty mapping and deep-merge the decoded contents of each file in turn.
 * The filesystem and the JSON decoder are one abstract map from file name to decoded value.
 */
module ConfigFiles {

  import opened Wrappers
  import opened JsonValue
  import opened DeepMerge

  /** Why a file contributes nothing: it cannot be read or decoded, or its top-level value is not an object. */
  datatype LoadError = Unreadable(file: string) | NotAMapping(file: string)

  /** What opening and decoding each file yields; a name that is absent cannot be opened or decoded. */
  type FileSystem = map<string, Json>

  /** The decoded contents of file `f`, when they form a mapping the merge can iterate over. */
  function Load(fs: FileSystem, f: string): (r: Result<Config, LoadError>)
    ensures f !in fs ==> r == Failure(Unreadable(f))
    ensures f in fs && !fs[f].Object? ==> r == Failure(NotAMapping(f))
    ensures f in fs && fs[f].Object? ==> r == Success(fs[f].fields)
  {
    if f !in fs then Failure(Unreadable(f))
    else match fs[f]
      case Object(m) => Success(m)
      case _ => Failure(NotAMapping(f))
  }

  /**
   * The contents of every file, in order, or the error of the first file that fails;
   * files after the first failure are never opened.
   */
  function LoadAll(files: seq<string>, fs: FileSystem): (r: Result<seq<Config>, LoadError>)
    decreases |files|
    ensures r.Success? <==> forall i :: 0 <= i < |files| ==> Load(fs, files[i]).Success?
    ensures r.Success? ==> |r.value| == |files|
    ensures r.Success? ==> forall i :: 0 <= i < |files| ==> Success(r.value[i]) == Load(fs, files[i])
    ensures r.Failure? ==>
      exists j :: 0 <= j < |files| && Load(fs, files[j]) == Failure(r.error) &&
                  forall i :: 0 <= i < j ==> Load(fs, files[i]).Success?
  {
    if files == [] then Success([])
    else
      var front := files[..|files| - 1];
      assert forall i :: 0 <= i < |front| ==> front[i] == files[i];
      match LoadAll(front, fs)
      case Failure(e) => Failure(e)
      case Success(cs) =>
        match Load(fs, files[|files| - 1])
        case Failure(e) => Failure(e)
        case Success(c) => Success(cs + [c])
  }

  /** Left fold of the deep merge: `acc` merged with `cs[0]`, the result merged with `cs[1]`, and so on. */
  function FoldMerge(acc: Config, cs: seq<Config>): Config
    decreases |cs|
  {
    if cs == [] then acc else Merge(FoldMerge(acc, cs[..|cs| - 1]), cs[|cs| - 1])
  }

  /** The configuration built from `files`: the fold of their contents onto the empty mapping. */
  function BuildConfig(files: seq<string>, fs: FileSystem): Result<Config, LoadError>
  {
    match LoadAll(files, fs)
    case Success(cs) => Success(FoldMerge(map[], cs))
    case Failure(e) => Failure(e)
  }

  /** The source's loop over the file names, merging each file's contents into the mapping being built. */
  method LoadConfig(files: seq<string>, fs: FileSystem) returns (r: Result<Config, LoadError>)
    ensures r == BuildConfig(files, fs)
  {
    var self: Config := map[];
    ghost var contents: seq<Config> := [];
    for i := 0 to |files|
      invariant LoadAll(files[..i], fs) == Success(contents)
      invariant self == FoldMerge(map[], contents)
    {
      var loaded := Load(fs, files[i]);
      LoadStep(files, fs, i);
      if loaded.Failure? {
        return Failure(loaded.error);
      }
      self := MergeDicts(self, loaded.value);
      FoldMergeStep(map[], contents, loaded.value);
      contents := contents + [loaded.value];
    }
    assert files[..|files|] == files;
    return Success(self);
  }

  /** After a successful prefix, the next file either decides the error or extends the contents. */
  lemma LoadStep(files: seq<string>, fs: FileSystem, i: nat)
    requires i < |files| && LoadAll(files[..i], fs).Success?
    ensures Load(fs, files[i]).Failure? ==> BuildConfig(files, fs) == Failure(Load(fs, files[i]).error)
    ensures Load(fs, files[i]).Success? ==>
      LoadAll(files[..i + 1], fs) == Success(LoadAll(files[..i], fs).value + [Load(fs, files[i]).value])
  {
    assert files[..i + 1][..i] == files[..i];
    if Load(fs, files[i]).Failure? {
      forall k | 0 <= k < i ensures Load(fs, files[k]).Success? {
        assert files[..i][k] == files[k];
      }
      FirstFailureDecides(files, fs, i);
    }
  }

  /** Folding one more content merges it into the fold so far. */
  lemma FoldMergeStep(acc: Config, cs: seq<Config>, c: Config)
    ensures FoldMerge(acc, cs + [c]) == Merge(FoldMerge(acc, cs), c)
  {
    assert (cs + [c])[..|cs|] == cs;
  }

  /** The first file that fails decides the error, whatever follows it. */
  lemma FirstFailureDecides(files: seq<string>, fs: FileSystem, j: nat)
    requires j < |files| && Load(fs, files[j]).Failure?
    requires forall i :: 0 <= i < j ==> Load(fs, files[i]).Success?
    ensures BuildConfig(files, fs) == Failure(Load(fs, files[j]).error)
  {
    var r := LoadAll(files, fs);
    assert r.Failure?;
    var j' :| 0 <= j' < |files| && Load(fs, files[j']) == Failure(r.error) &&
              forall i :: 0 <= i < j' ==> Load(fs, files[i]).Success?;
    assert j' == j;
  }

  /**
   * A non-object value stored at `path` by content `cs[j]` is what the fold holds there,
   * provided no later content stores anything along that path: later files win.
   */
  lemma {:induction false} FoldLastWriterWins(acc: Config, cs: seq<Config>, j: nat, path: seq<string>, v: Json)
    requires j < |cs| && path != []
    requires Lookup(cs[j], path) == Some(v) && !v.Object?
    requires forall i :: j < i < |cs| ==> Untouched(cs[i], path)
    ensures Lookup(FoldMerge(acc, cs), path) == Some(v)
    decreases |cs|
  {
    var front := cs[..|cs| - 1];
    if j == |cs| - 1 {
      DeepAdopt(FoldMerge(acc, front), cs[j], path, v);
    } else {
      FoldLastWriterWins(acc, front, j, path, v);
      DeepPreserve(FoldMerge(acc, front), cs[|cs| - 1], path, v);
    }
  }

  /**
   * In a configuration built from several files, a non-object setting of file `j` wins over
   * every earlier file and survives every later file that stores nothing along its path.
   */
  lemma LaterFileWins(files: seq<string>, fs: FileSystem, j: nat, path: seq<string>, v: Json)
    requires BuildConfig(files, fs).Success?
    requires j < |files| && path != []
    requires Lookup(Load(fs, files[j]).value, path) == Some(v) && !v.Object?
    requires forall i :: j < i < |files| ==> Untouched(Load(fs, files[i]).value, path)
    ensures Lookup(BuildConfig(files, fs).value, path) == Some(v)
  {
    var cs := LoadAll(files, fs).value;
    FoldLastWriterWins(map[], cs, j, path, v);
  }

  /** A configuration built from one file is exactly that file's mapping. */
  lemma SingleFile(f: string, fs: FileSystem)
    ensures BuildConfig([f], fs) == Load(fs, f)
  {
    var r := LoadAll([f], fs);
    if r.Success? {
      MergeEmptyLeft(r.value[0]);
      assert r.value == [r.value[0]];
      assert FoldMerge(map[], r.value) == Merge(FoldMerge(map[], []), r.value[0]);
    }
  }

  /** Public file then private file: the private contents are deep-merged over the public ones. */
  lemma PublicThenPrivate(pub: string, priv: string, fs: FileSystem)
    requires Load(fs, pub).Success? && Load(fs, priv).Success?
    ensures BuildConfig([pub, priv], fs) == Success(Merge(Load(fs, pub).value, Load(fs, priv).value))
  {
    var cs := LoadAll([pub, priv], fs).value;
    assert cs == [cs[0], cs[1]];
    MergeEmptyLeft(cs[0]);
    assert FoldMerge(map[], cs[..1]) == Merge(FoldMerge(map[], []), cs[0]);
  }
}
