/**
 * The deep merge of one configuration mapping into another (ev/config.py `_merge_dicts`).
 * `Merge` is the specification; `MergeDicts` is the key-by-key loop of the source,
 * proved to compute it. Values are trees: no sharing between the two arguments is modelled.
 */
module DeepMerge {

  import opened Wrappers
  import opened JsonValue

  /** Key `k` holds a JSON object in both mappings: the only case in which the merge recurses. */
  predicate BothObjects(d1: Config, d2: Config, k: string)
  {
    k in d1 && k in d2 && d1[k].Object? && d2[k].Object?
  }

  /**
   * `d1` after taking every key of `d2`: where both hold objects they are merged
   * recursively, otherwise the value from `d2` wins.
   */
  function Merge(d1: Config, d2: Config): (r: Config)
    decreases Object(d2)
    ensures r.Keys == d1.Keys + d2.Keys
    ensures forall k :: k in d1 && k !in d2 ==> r[k] == d1[k]
    ensures forall k :: k in d2 && !BothObjects(d1, d2, k) ==> r[k] == d2[k]
    ensures forall k :: BothObjects(d1, d2, k) ==> r[k] == Object(Merge(d1[k].fields, d2[k].fields))
  {
    map k | k in d1.Keys + d2.Keys ::
      if BothObjects(d1, d2, k) then Object(Merge(d1[k].fields, d2[k].fields))
      else if k in d2 then d2[k]
      else d1[k]
  }

  /**
   * The source's loop: visit the keys of `d2` one at a time (in any order) and either
   * recurse into a pair of nested objects or store `d2`'s value.
   */
  method MergeDicts(d1: Config, d2: Config) returns (r: Config)
    decreases Object(d2)
    ensures r == Merge(d1, d2)
  {
    r := d1;
    var pending := d2.Keys;
    ghost var done: set<string> := {};
    while pending != {}
      invariant pending + done == d2.Keys && pending !! done
      invariant r.Keys == d1.Keys + done
      invariant forall k :: k in r ==> r[k] == if k in done then Merge(d1, d2)[k] else d1[k]
      decreases pending
    {
      var k :| k in pending;
      var v2 := d2[k];
      if k in r && r[k].Object? && v2.Object? {
        var nested := MergeDicts(r[k].fields, v2.fields);
        r := r[k := Object(nested)];
      } else {
        r := r[k := v2];
      }
      pending := pending - {k};
      done := done + {k};
    }
  }

  /** Merging an empty mapping changes nothing. */
  lemma MergeEmptyRight(d: Config)
    ensures Merge(d, map[]) == d
  {
  }

  /** Merging into an empty mapping yields the merged mapping itself. */
  lemma MergeEmptyLeft(d: Config)
    ensures Merge(map[], d) == d
  {
  }

  /** Merging a mapping into itself changes nothing, at every depth. */
  lemma {:induction false} MergeSelf(d: Config)
    decreases Object(d)
    ensures Merge(d, d) == d
  {
    forall k | k in d && d[k].Object?
      ensures Merge(d[k].fields, d[k].fields) == d[k].fields
    {
      MergeSelf(d[k].fields);
    }
  }

  /** Merging the same mapping a second time changes nothing more. */
  lemma {:induction false} MergeIdempotent(d1: Config, d2: Config)
    decreases Object(d2)
    ensures Merge(Merge(d1, d2), d2) == Merge(d1, d2)
  {
    var m := Merge(d1, d2);
    forall k | k in d2 && d2[k].Object?
      ensures BothObjects(m, d2, k) && Merge(m[k].fields, d2[k].fields) == m[k].fields
    {
      if BothObjects(d1, d2, k) {
        MergeIdempotent(d1[k].fields, d2[k].fields);
      } else {
        MergeSelf(d2[k].fields);
      }
    }
  }

  /** Keys of a nested object are combined: sub-keys of the first survive unless the second overrides them. */
  lemma NestedMerge(d1: Config, d2: Config, k: string)
    requires BothObjects(d1, d2, k)
    ensures Merge(d1, d2)[k].Object?
    ensures Merge(d1, d2)[k].fields.Keys == d1[k].fields.Keys + d2[k].fields.Keys
    ensures forall s :: s in d1[k].fields && s !in d2[k].fields ==>
              Merge(d1, d2)[k].fields[s] == d1[k].fields[s]
    ensures forall s :: s in d2[k].fields && !d2[k].fields[s].Object? ==>
              Merge(d1, d2)[k].fields[s] == d2[k].fields[s]
  {
  }

  /** A non-object value that `d2` sets at some path, at any depth, is what the merge holds there. */
  lemma {:induction false} DeepAdopt(d1: Config, d2: Config, path: seq<string>, v: Json)
    requires path != []
    requires Lookup(d2, path) == Some(v) && !v.Object?
    ensures Lookup(Merge(d1, d2), path) == Some(v)
    decreases |path|
  {
    var k := path[0];
    if |path| > 1 && BothObjects(d1, d2, k) {
      DeepAdopt(d1[k].fields, d2[k].fields, path[1..], v);
    }
  }

  /** `d2` stores nothing along `path`: each key on it is absent from `d2` or leads to a nested object. */
  predicate Untouched(d2: Config, path: seq<string>)
    requires path != []
    decreases |path|
  {
    path[0] !in d2 || (|path| > 1 && d2[path[0]].Object? && Untouched(d2[path[0]].fields, path[1..]))
  }

  /** A value of `d1` at some path, at any depth, survives unless `d2` stores something along that path. */
  lemma {:induction false} DeepPreserve(d1: Config, d2: Config, path: seq<string>, v: Json)
    requires path != []
    requires Lookup(d1, path) == Some(v) && Untouched(d2, path)
    ensures Lookup(Merge(d1, d2), path) == Some(v)
    decreases |path|
  {
    var k := path[0];
    if k in d2 {
      DeepPreserve(d1[k].fields, d2[k].fields, path[1..], v);
    }
  }

  /** The nested example: a private `db.host` overrides the public one, `db.port` and `debug` survive. */
  lemma NestedOverrideExample()
    ensures
      var pub := map["db" := Object(map["host" := Str("h1"), "port" := Number("5432")]), "debug" := Bool(false)];
      var priv := map["db" := Object(map["host" := Str("h2")])];
      Merge(pub, priv) == map["db" := Object(map["host" := Str("h2"), "port" := Number("5432")]), "debug" := Bool(false)]
  {
    var inner1 := map["host" := Str("h1"), "port" := Number("5432")];
    var inner2 := map["host" := Str("h2")];
    assert Merge(inner1, inner2) == map["host" := Str("h2"), "port" := Number("5432")];
  }

  /**
   * Merge is not associative: which files are merged first matters, so a sequence of
   * files must be folded from the left.
   */
  lemma MergeNotAssociative()
    ensures
      var a := map["x" := Object(map["y" := Null])];
      var b := map["x" := Str("s")];
      var c := map["x" := Object(map["z" := Null])];
      Merge(Merge(a, b), c) == map["x" := Object(map["z" := Null])] &&
      Merge(a, Merge(b, c)) == map["x" := Object(map["y" := Null, "z" := Null])]
  {
    var a := map["x" := Object(map["y" := Null])];
    var b := map["x" := Str("s")];
    var c := map["x" := Object(map["z" := Null])];
    var y, z := map["y" := Null], map["z" := Null];
    assert Merge(a, b) == b by { assert !BothObjects(a, b, "x"); }
    assert Merge(b, c) == c by { assert !BothObjects(b, c, "x"); }
    assert Merge(y, z) == map["y" := Null, "z" := Null] by { assert Merge(y, z)["y"] == Null; }
    assert Merge(a, c) == map["x" := Object(Merge(y, z))] by { assert BothObjects(a, c, "x"); }
  }

}
