/** merge_dicts: a deep merge of JSON objects in which the override wins. */
module Utils {
  import opened Json

  /** Both values are dictionaries, so they are merged rather than replaced. */
  predicate BothObjects(a: Value, b: Value) {
    a.Obj? && b.Obj?
  }

  /** What merge_dicts(base, override) returns, key by key. */
  function Merge(base: map<string, Value>, override: map<string, Value>): (r: map<string, Value>)
    decreases Obj(override)
    ensures r.Keys == base.Keys + override.Keys
    ensures forall k :: k in base && k !in override ==> r[k] == base[k]
    ensures forall k :: k in override && !(k in base && BothObjects(base[k], override[k])) ==> r[k] == override[k]
    ensures forall k :: k in override && k in base && BothObjects(base[k], override[k]) ==>
      r[k] == Obj(Merge(base[k].fields, override[k].fields))
  {
    map k | k in base.Keys + override.Keys ::
      if k !in override then base[k]
      else if k in base && BothObjects(base[k], override[k]) then Obj(Merge(base[k].fields, override[k].fields))
      else override[k]
  }

  /** merge_dicts: copy the base, then assign each override key, recursing where both sides are dictionaries. */
  method MergeDicts(base: map<string, Value>, override: map<string, Value>) returns (result: map<string, Value>)
    decreases Obj(override)
    ensures result == Merge(base, override)
  {
    result := base;
    var pending := override.Keys;
    while pending != {}
      invariant pending <= override.Keys
      invariant result.Keys == base.Keys + (override.Keys - pending)
      invariant forall k :: k in result && k !in pending ==> result[k] == Merge(base, override)[k]
      invariant forall k :: k in result && k in pending ==> result[k] == base[k]
      decreases pending
    {
      var key :| key in pending;
      var value := override[key];
      if key in result && BothObjects(result[key], value) {
        var merged := MergeDicts(result[key].fields, value.fields);
        result := result[key := Obj(merged)];
      } else {
        result := result[key := value];
      }
      pending := pending - {key};
    }
  }

  /** Merging with an empty override returns the base. */
  lemma MergeEmptyOverride(d: map<string, Value>)
    ensures Merge(d, map[]) == d
  {
  }

  /** Merging into an empty base returns the override. */
  lemma MergeEmptyBase(d: map<string, Value>)
    ensures Merge(map[], d) == d
  {
  }

  /** Merging a dictionary with itself returns it, at every depth. */
  lemma {:induction false} MergeIdempotent(d: map<string, Value>)
    decreases Obj(d)
    ensures Merge(d, d) == d
  {
    forall k | k in d && d[k].Obj?
      ensures Merge(d[k].fields, d[k].fields) == d[k].fields
    {
      MergeIdempotent(d[k].fields);
    }
  }

  /** The override's value replaces any value that is not a dictionary on both sides. */
  lemma MergeOverrideWins(base: map<string, Value>, override: map<string, Value>, k: string)
    requires k in override && !override[k].Obj?
    ensures Merge(base, override)[k] == override[k]
  {
  }

  /** Merging nested dictionaries keeps the base's nested keys that the override does not mention. */
  lemma MergeKeepsNestedBase(base: map<string, Value>, override: map<string, Value>, k: string, j: string)
    requires k in base && k in override && BothObjects(base[k], override[k])
    requires j in base[k].fields && j !in override[k].fields
    ensures Merge(base, override)[k].Obj? && Merge(base, override)[k].fields[j] == base[k].fields[j]
  {
  }
}
