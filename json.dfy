/**
 * JSON-like JavaScript values: what is piped into a filter, what a tool
 * receives as its payload and what the filter hands back to the template.
 * An object keeps its keys in insertion order, as JavaScript objects do
 * for non-numeric keys.
 */
module Json {
  import opened Wrappers

  datatype Value =
    | Null
    | Bool(b: bool)
    | Num(n: int)
    | Str(s: string)
    | Arr(items: seq<Value>)
    | Obj(fields: seq<(string, Value)>)

  /** No key occurs twice among the fields of an object. */
  predicate DistinctKeys(fields: seq<(string, Value)>) {
    forall i, j :: 0 <= i < j < |fields| ==> fields[i].0 != fields[j].0
  }

  /** Property access `obj[key]` on an object's fields. */
  function Get(fields: seq<(string, Value)>, key: string): (r: Option<Value>)
    ensures r.None? <==> forall k :: 0 <= k < |fields| ==> fields[k].0 != key
  {
    if fields == [] then None
    else if fields[0].0 == key then Some(fields[0].1)
    else Get(fields[1..], key)
  }

  /** Reading the key of the `i`-th field gives that field's value, when no earlier field has the same key. */
  lemma {:induction false} GetAt(fields: seq<(string, Value)>, i: int)
    requires 0 <= i < |fields|
    requires forall j :: 0 <= j < i ==> fields[j].0 != fields[i].0
    ensures Get(fields, fields[i].0) == Some(fields[i].1)
    decreases i
  {
    if i > 0 {
      GetAt(fields[1..], i - 1);
    }
  }
}
