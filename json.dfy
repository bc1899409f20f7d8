/** The dynamically typed values the source passes around: decoded JSON
    payloads and the dicts it builds for quotes and results. Dict fields keep
    their insertion order, as Python dicts do. `float()` of a string and
    `str()` of a number or container are floating-point and formatting work
    done by the interpreter; they are supplied as `Builtins`. */
module Json {
  import opened Wrappers

  datatype Json =
    | Null
    | Bool(b: bool)
    | Num(n: real)
    | Str(s: string)
    | Arr(items: seq<Json>)
    | Obj(fields: seq<Field>)

  datatype Field = Field(key: string, value: Json)

  /** The interpreter services the model does not re-implement:
      `float(s)` of a string (None where it raises ValueError) and `str(v)`
      of a number, list or dict. */
  datatype Builtins = Builtins(parseFloat: string -> Option<real>, render: Json -> string)

  predicate HasKey(fields: seq<Field>, key: string) {
    exists i | 0 <= i < |fields| :: fields[i].key == key
  }

  /** The value stored under `key`: the first field with that key. */
  function Lookup(fields: seq<Field>, key: string): (r: Option<Json>)
    ensures r.Some? <==> HasKey(fields, key)
    ensures r.Some? ==> exists i | 0 <= i < |fields| :: fields[i] == Field(key, r.value)
  {
    if fields == [] then None
    else if fields[0].key == key then Some(fields[0].value)
    else
      var r := Lookup(fields[1..], key);
      assert HasKey(fields, key) ==> fields[0].key == key || HasKey(fields[1..], key) by {
        if HasKey(fields, key) {
          var i :| 0 <= i < |fields| && fields[i].key == key;
          if i > 0 { assert fields[1..][i - 1].key == key; }
        }
      }
      r
  }

  /** `key in v` for a dict `v`. */
  predicate Has(v: Json, key: string) {
    v.Obj? && HasKey(v.fields, key)
  }

  /** `v.get(key)` on a dict: the value, or None when the key is absent. */
  function Get(v: Json, key: string): Json
    requires v.Obj?
  {
    match Lookup(v.fields, key)
    case Some(x) => x
    case None => Null
  }

  /** `v.get(key, default)` on a dict. */
  function GetOr(v: Json, key: string, default: Json): Json
    requires v.Obj?
  {
    match Lookup(v.fields, key)
    case Some(x) => x
    case None => default
  }

  /** Python truthiness: None, False, 0, "", [] and {} are false. */
  predicate Truthy(v: Json) {
    match v
    case Null => false
    case Bool(b) => b
    case Num(n) => n != 0.0
    case Str(s) => s != ""
    case Arr(items) => items != []
    case Obj(fields) => fields != []
  }

  /** `d.setdefault(key, value)` on a copy: a dict that already has `key`
      keeps its value, otherwise `key` is added last. */
  function SetDefault(fields: seq<Field>, key: string, value: Json): (r: seq<Field>)
    ensures HasKey(r, key)
    ensures HasKey(fields, key) ==> r == fields
    ensures !HasKey(fields, key) ==> Lookup(r, key) == Some(value)
  {
    if HasKey(fields, key) then fields
    else
      var r := fields + [Field(key, value)];
      LookupAppend(fields, Field(key, value), key);
      assert r[|fields|].key == key;
      r
  }

  lemma {:induction false} LookupAppend(fields: seq<Field>, last: Field, key: string)
    requires !HasKey(fields, key) && last.key == key
    ensures Lookup(fields + [last], key) == Some(last.value)
  {
    if fields != [] {
      assert (fields + [last])[1..] == fields[1..] + [last];
      LookupAppend(fields[1..], last, key);
    }
  }

  /** `float(v)`: a number is itself, a bool is 1.0 or 0.0, a string is parsed,
      and None, lists and dicts raise TypeError (None here). */
  function ToFloat(b: Builtins, v: Json): Option<real> {
    match v
    case Null => None
    case Bool(t) => Some(if t then 1.0 else 0.0)
    case Num(n) => Some(n)
    case Str(s) => b.parseFloat(s)
    case Arr(_) => None
    case Obj(_) => None
  }

  /** `str(v)`, as an f-string renders `v`. */
  function PyStr(b: Builtins, v: Json): string {
    match v
    case Null => "None"
    case Bool(t) => if t then "True" else "False"
    case Str(s) => s
    case _ => b.render(v)
  }
}
