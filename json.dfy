/** JSON values as the schema walkers see them (serde_json's Value), and the
    three ways they are inspected: `get` on a key, the JSON pointer
    "/items/properties", and `as_str`. */
module Json {

  datatype Option<+T> = None | Some(value: T)

  /** An object keeps its members in iteration order. Numbers, booleans and
      null are never looked into by the walkers, so they are one case. */
  datatype Json =
    | Obj(entries: seq<(string, Json)>)
    | Arr(items: seq<Json>)
    | Str(s: string)
    | Other

  /** True when some member of `es` is named `key`. */
  predicate HasKey(es: seq<(string, Json)>, key: string) {
    exists i :: 0 <= i < |es| && es[i].0 == key
  }

  /** The value of the first member named `key`. */
  function Lookup(es: seq<(string, Json)>, key: string): (r: Option<Json>)
    ensures r.Some? ==> (key, r.value) in es
  {
    if es == [] then None
    else if es[0].0 == key then Some(es[0].1)
    else Lookup(es[1..], key)
  }

  /** Lookup finds a value exactly when some member has the key, and the
      value it finds is that of the first such member. */
  lemma {:induction false} LookupFirst(es: seq<(string, Json)>, key: string)
    ensures Lookup(es, key).Some? <==> HasKey(es, key)
    ensures Lookup(es, key).Some? ==>
              exists i :: 0 <= i < |es| && es[i] == (key, Lookup(es, key).value)
                          && forall k :: 0 <= k < i ==> es[k].0 != key
  {
    if es != [] && es[0].0 != key {
      var tail := es[1..];
      LookupFirst(tail, key);
      if HasKey(es, key) {
        var i :| 0 <= i < |es| && es[i].0 == key;
        assert tail[i - 1].0 == key;
      }
      if Lookup(tail, key).Some? {
        var v := Lookup(tail, key).value;
        var i :| 0 <= i < |tail| && tail[i] == (key, v)
                 && forall k :: 0 <= k < i ==> tail[k].0 != key;
        assert es[i + 1] == (key, v);
        forall k | 0 <= k < i + 1 ensures es[k].0 != key {
          if k > 0 { assert es[k] == tail[k - 1]; }
        }
      }
    } else if es != [] {
      assert es[0] == (key, es[0].1);
    }
  }

  /** serde_json's `Value::get(key)`: the member named `key` of an object,
      and nothing for any other kind of value. The result is part of `j`. */
  function Get(j: Json, key: string): (r: Option<Json>)
    ensures r.Some? ==> r.value < j
  {
    match j
    case Obj(es) => Lookup(es, key)
    case _ => None
  }

  /** `get` finds a value exactly in an object holding the key, and finds the
      value of its first member with that key. */
  lemma GetFirst(j: Json, key: string)
    ensures Get(j, key).Some? <==> j.Obj? && HasKey(j.entries, key)
    ensures Get(j, key).Some? ==>
              exists i :: 0 <= i < |j.entries| && j.entries[i] == (key, Get(j, key).value)
                          && forall k :: 0 <= k < i ==> j.entries[k].0 != key
  {
    if j.Obj? {
      LookupFirst(j.entries, key);
    }
  }

  /** serde_json's `Value::pointer("/items/properties")`. A pointer token is
      looked up as a key in an object; in an array "items" is not an index,
      so the pointer only ever passes through objects. */
  function ItemsProperties(j: Json): (r: Option<Json>)
    ensures r.Some? ==> r.value < j
  {
    match Get(j, "items")
    case Some(items) => Get(items, "properties")
    case None => None
  }

  /** `Value::get("title")` followed by `as_str()`, with "" when either finds nothing. */
  function TitleOf(property: Json): string {
    match Get(property, "title")
    case Some(Str(s)) => s
    case _ => ""
  }
}
