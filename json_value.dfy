/** The untyped values the chat webhook may answer with, as JavaScript sees
    them after `response.json()` or `JSON.parse`. */
module JsonValue {

  datatype Option<+T> = None | Some(value: T)

  /** A JSON value. `JNull` stands for both `null` and `undefined` (the
      extractor tests `input == null`, which is true of both). Numbers carry
      no value: nothing in the extractor looks at one. An object is the
      ordered list of its own properties in `Object.values` order;
      JavaScript lists integer-like keys first, in ascending order, then the
      other keys in insertion order, and this list stands for that order. */
  datatype Json =
    | JNull
    | JBool(b: bool)
    | JNum
    | JStr(s: string)
    | JArr(items: seq<Json>)
    | JObj(fields: seq<(string, Json)>)

  /** A measure on values: a string counts its length plus one, a container one
      plus its parts, every property one plus its value. A JSON text is always
      at least as long as the size of the value it denotes, and strictly
      longer when that value is an array or an object. */
  function Size(v: Json): (n: nat)
    ensures n >= 1
  {
    match v
    case JStr(s) => |s| + 1
    case JArr(items) => 1 + ItemsSize(items)
    case JObj(fields) => 1 + FieldsSize(fields)
    case _ => 1
  }

  function ItemsSize(items: seq<Json>): nat {
    if |items| == 0 then 0 else Size(items[0]) + ItemsSize(items[1..])
  }

  function FieldsSize(fields: seq<(string, Json)>): nat {
    if |fields| == 0 then 0
    else
      var field := fields[0];
      assert fields decreases to field;
      assert field decreases to field.1;
      1 + Size(field.1) + FieldsSize(fields[1..])
  }

  /** Every property value is smaller than the property list it sits in. */
  lemma {:induction false} FieldSmaller(fields: seq<(string, Json)>, i: nat)
    requires i < |fields|
    ensures Size(fields[i].1) < FieldsSize(fields)
  {
    if i > 0 {
      FieldSmaller(fields[1..], i - 1);
    }
  }

  /** `key in obj` followed by `obj[key]`: the value bound to `key`, taken from
      its first binding (a JavaScript object has each key once). */
  function Lookup(fields: seq<(string, Json)>, key: string): (r: Option<Json>)
    ensures r.None? <==> forall i :: 0 <= i < |fields| ==> fields[i].0 != key
    ensures r.Some? ==> exists i :: 0 <= i < |fields| && fields[i] == (key, r.value)
                          && forall j :: 0 <= j < i ==> fields[j].0 != key
    ensures r.Some? ==> Size(r.value) < FieldsSize(fields)
  {
    if |fields| == 0 then None
    else if fields[0].0 == key then Some(fields[0].1)
    else
      var r := Lookup(fields[1..], key);
      assert r.Some? ==> exists i :: 1 <= i < |fields| && fields[i] == (key, r.value)
                           && forall j :: 0 <= j < i ==> fields[j].0 != key
        by {
          if r.Some? {
            var i :| 0 <= i < |fields[1..]| && fields[1..][i] == (key, r.value)
                     && forall j :: 0 <= j < i ==> fields[1..][j].0 != key;
            assert fields[i + 1] == (key, r.value);
            assert forall j :: 0 <= j < i + 1 ==> fields[j].0 != key by {
              forall j | 0 <= j < i + 1 ensures fields[j].0 != key {
                if j > 0 { assert fields[j] == fields[1..][j - 1]; }
              }
            }
          }
        }
      assert r.None? ==> forall i :: 0 <= i < |fields| ==> fields[i].0 != key by {
        if r.None? {
          forall i | 0 <= i < |fields| ensures fields[i].0 != key {
            if i > 0 { assert fields[i] == fields[1..][i - 1]; }
          }
        }
      }
      r
  }
}
