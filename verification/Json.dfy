/** JSON values as Python holds them: an object is its fields in insertion order. */
module Json {
  import opened Wrappers

  datatype Json =
    | Null
    | Bool(b: bool)
    | Number(text: string)
    | Str(s: string)
    | Arr(items: seq<Json>)
    | Obj(fields: seq<(string, Json)>)

  /** `d.get(key)` */
  function Get(fields: seq<(string, Json)>, key: string): (r: Option<Json>)
    ensures r.Some? ==> (key, r.value) in fields
    ensures r.None? ==> forall i :: 0 <= i < |fields| ==> fields[i].0 != key
  {
    if fields == [] then None
    else if fields[0].0 == key then Some(fields[0].1)
    else Get(fields[1..], key)
  }

  predicate UniqueKeys(fields: seq<(string, Json)>)
  {
    forall i, j :: 0 <= i < j < |fields| ==> fields[i].0 != fields[j].0
  }

  /** A dictionary has each key once, at every depth. */
  predicate Proper(j: Json)
    decreases j
  {
    match j
    case Arr(items) => forall x :: x in items ==> Proper(x)
    case Obj(fields) => UniqueKeys(fields) && forall f :: f in fields ==> Proper(f.1)
    case _ => true
  }

  lemma {:induction false} GetUnique(fields: seq<(string, Json)>, key: string, value: Json)
    requires UniqueKeys(fields) && (key, value) in fields
    ensures Get(fields, key) == Some(value)
  {
    if fields[0].0 != key {
      GetUnique(fields[1..], key, value);
    } else {
      var i :| 0 <= i < |fields| && fields[i] == (key, value);
      assert i == 0;
    }
  }
}
