/**
  The PHP values the component handles: what `json_decode($body, true)` returns
  and what the configuration layer hands to the Block and Code constructors,
  together with PHP's truthiness, array lookup and the failures raised at run
  time.
 */
module Php {
  import opened Wrappers

  /** A PHP value. A list array and an associative array are both PHP arrays;
      an associative array keeps its entries in insertion order. */
  datatype Value =
    | Null
    | Bool(b: bool)
    | Int(i: int)
    | Str(s: string)
    | List(items: seq<Value>)
    | Assoc(entries: seq<(string, Value)>)

  predicate IsArray(v: Value) {
    v.List? || v.Assoc?
  }

  /** The values of a PHP array in iteration order (what `foreach` and `array_map` visit). */
  function Values(v: Value): (r: seq<Value>)
    requires IsArray(v)
    ensures |r| == (if v.List? then |v.items| else |v.entries|)
    ensures v.List? ==> r == v.items
    ensures v.Assoc? ==> forall i :: 0 <= i < |r| ==> r[i] == v.entries[i].1
  {
    if v.List? then v.items else seq(|v.entries|, i requires 0 <= i < |v.entries| => v.entries[i].1)
  }

  /** The keys of an associative array in insertion order. */
  function Keys(entries: seq<(string, Value)>): (r: seq<string>)
    ensures |r| == |entries| && forall i :: 0 <= i < |r| ==> r[i] == entries[i].0
  {
    seq(|entries|, i requires 0 <= i < |entries| => entries[i].0)
  }

  /** The value stored under `key`, if any entry has that key. */
  function Lookup(entries: seq<(string, Value)>, key: string): Option<Value> {
    if entries == [] then None
    else if entries[0].0 == key then Some(entries[0].1)
    else Lookup(entries[1..], key)
  }

  /** An entry whose key no earlier entry has is the one a lookup of that key finds. */
  lemma {:induction false} LookupAt(entries: seq<(string, Value)>, i: nat)
    requires i < |entries|
    requires forall j :: 0 <= j < i ==> entries[j].0 != entries[i].0
    ensures Lookup(entries, entries[i].0) == Some(entries[i].1)
  {
    if i > 0 {
      assert entries[0].0 != entries[i].0;
      assert entries[1..][i - 1] == entries[i];
      LookupAt(entries[1..], i - 1);
    }
  }

  /** `$data[$key]` for a non-numeric string key: only an associative array can hold one. */
  function Get(data: Value, key: string): Option<Value> {
    if data.Assoc? then Lookup(data.entries, key) else None
  }

  /** The values PHP converts to false: null, false, 0, "", "0" and the empty array. */
  predicate Falsy(v: Value) {
    match v
    case Null => true
    case Bool(b) => !b
    case Int(i) => i == 0
    case Str(s) => s == "" || s == "0"
    case List(items) => items == []
    case Assoc(entries) => entries == []
  }

  /** What PHP raises, as far as the component is concerned. */
  datatype Failure =
    | UserException(message: string, code: int)  // the component's user-facing error
    | JsonException                               // json_decode(..., JSON_THROW_ON_ERROR) on a malformed body
    | TypeError(what: string)                      // a strict-types check on a property, parameter or return value
    | UninitializedProperty(name: string)          // a typed property read before it was assigned
}
