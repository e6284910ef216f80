/**
 * JavaScript values as `JSON.parse` produces them, with the three JavaScript
 * operations the extension applies to them: truthiness (`if (x)`, `x || y`),
 * string conversion (`String(x)`, template literals) and reading a named property.
 */
module Json {
  import opened Wrappers
  import opened Text

  /**
   * A parsed JSON value. `Num` keeps the number and the text `String(n)` gives for it
   * (`"1000"`, `"0.5"`); an object is its own properties in `for...in` order.
   */
  datatype Json =
    | Null
    | Bool(b: bool)
    | Num(value: real, text: string)
    | Str(s: string)
    | Arr(items: seq<Json>)
    | Obj(fields: seq<(string, Json)>)

  /** JavaScript's ToBoolean: `null`, `false`, `0` and `""` are falsy, every array and object is truthy. */
  predicate Truthy(j: Json) {
    match j
    case Null => false
    case Bool(b) => b
    case Num(v, _) => v != 0.0
    case Str(s) => s != ""
    case Arr(_) => true
    case Obj(_) => true
  }

  /** The value of the first field named `key`, if any. */
  function Lookup(fields: seq<(string, Json)>, key: string): Option<Json> {
    if |fields| == 0 then None
    else if fields[0].0 == key then Some(fields[0].1)
    else Lookup(fields[1..], key)
  }

  /** `Lookup` finds a field exactly when one is named `key`, and then it is the first such field. */
  lemma {:induction false} LookupFirst(fields: seq<(string, Json)>, key: string)
    ensures Lookup(fields, key).None? <==> forall i :: 0 <= i < |fields| ==> fields[i].0 != key
    ensures Lookup(fields, key).Some? ==>
      exists i :: (0 <= i < |fields| && fields[i] == (key, Lookup(fields, key).value)
        && forall j :: 0 <= j < i ==> fields[j].0 != key)
  {
    if |fields| > 0 && fields[0].0 != key {
      LookupFirst(fields[1..], key);
      assert forall i :: 0 <= i < |fields| - 1 ==> fields[1..][i] == fields[i + 1];
      if Lookup(fields, key).Some? {
        var i :| 0 <= i < |fields| - 1 && fields[1..][i] == (key, Lookup(fields, key).value)
          && forall j :: 0 <= j < i ==> fields[1..][j].0 != key;
        assert fields[i + 1] == (key, Lookup(fields, key).value);
        assert forall j :: 0 <= j < i + 1 ==> fields[j].0 != key;
      }
    } else if |fields| > 0 {
      assert fields[0] == (key, Lookup(fields, key).value);
    }
  }

  /**
   * `j[key]` for the property names this model reads (none of them is an array index
   * or `length`): the own property of an object, `undefined` (None) for anything else.
   * Reading a property of `null` throws in JavaScript; callers that can meet `null`
   * test for it first.
   */
  function Field(j: Json, key: string): (r: Option<Json>)
    ensures r.Some? ==> j.Obj?
  {
    if j.Obj? then Lookup(j.fields, key) else None
  }

  /** `j[key]` where `undefined` may be treated like `null`. */
  function Prop(j: Json, key: string): Json {
    Field(j, key).GetOr(Null)
  }

  /** `a || b` over values that may be `undefined`. */
  function Or(a: Option<Json>, b: Option<Json>): (r: Option<Json>)
    ensures r == a || r == b
    ensures (a.Some? && Truthy(a.value)) <==> (r == a && r.Some? && Truthy(r.value))
    ensures !(a.Some? && Truthy(a.value)) ==> r == b
  {
    if a.Some? && Truthy(a.value) then a else b
  }

  /**
   * JavaScript's ToString: `String(j)` and the text a template literal shows.
   * An array shows its elements joined by `","`, with `""` for a `null` element.
   */
  function ToJsString(j: Json): string {
    match j
    case Null => "null"
    case Bool(b) => if b then "true" else "false"
    case Num(_, t) => t
    case Str(s) => s
    case Arr(xs) => Join(seq(|xs|, i requires 0 <= i < |xs| => if xs[i].Null? then "" else ToJsString(xs[i])), ",")
    case Obj(_) => "[object Object]"
  }
}
