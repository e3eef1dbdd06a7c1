/**
 * Decoded JSON values with the semantics of the Python operations the
 * pipeline applies to them. Each accessor returns `None` exactly where Python
 * would raise (KeyError, TypeError, IndexError, AttributeError).
 */
module Json {
  import opened Base
  import opened Dicts
  import opened Text

  /** A decoded JSON document; objects keep their keys in document order. */
  datatype Value =
    | Null
    | Bool(b: bool)
    | Int(i: int)
    | Float(x: real)
    | Str(s: string)
    | Arr(items: seq<Value>)
    | Obj(fields: seq<(string, Value)>)

  /** `v[k]` for a string key: only a dict that holds the key answers. */
  function Index(v: Value, k: string): (r: Option<Value>)
    ensures r.Some? <==> v.Obj? && k in Keys(v.fields)
    ensures r.Some? ==> Lookup(v.fields, k) == r
  {
    if v.Obj? then Lookup(v.fields, k) else None
  }

  /** `v.get(k, d)`: only a dict has `get`; a missing key yields the default. */
  function Get(v: Value, k: string, d: Value): (r: Option<Value>)
    ensures r.Some? <==> v.Obj?
    ensures v.Obj? && k !in Keys(v.fields) ==> r == Some(d)
    ensures v.Obj? && k in Keys(v.fields) ==> r == Index(v, k)
  {
    if !v.Obj? then None
    else match Lookup(v.fields, k)
      case Some(x) => Some(x)
      case None => Some(d)
  }

  /** `v[0]`: the first item of a non-empty list, or the first character of a non-empty string. */
  function Item0(v: Value): (r: Option<Value>)
    ensures r.Some? <==> (v.Arr? && |v.items| > 0) || (v.Str? && |v.s| > 0)
    ensures v.Arr? && |v.items| > 0 ==> r == Some(v.items[0])
  {
    match v
    case Arr(items) => if |items| > 0 then Some(items[0]) else None
    case Str(s) => if |s| > 0 then Some(Str([s[0]])) else None
    case _ => None
  }

  /** The characters of a string, each as a one-character string. */
  function Chars(s: string): (r: seq<Value>)
    ensures |r| == |s|
    ensures forall i :: 0 <= i < |s| ==> r[i] == Str([s[i]])
  {
    if s == [] then [] else [Str([s[0]])] + Chars(s[1..])
  }

  /** The keys of a dict, each as a string value. */
  function KeyValues(fields: seq<(string, Value)>): (r: seq<Value>)
    ensures |r| == |fields|
    ensures forall i :: 0 <= i < |fields| ==> r[i] == Str(fields[i].0)
  {
    if fields == [] then [] else [Str(fields[0].0)] + KeyValues(fields[1..])
  }

  /** `iter(v)`: lists yield their items, strings their characters, dicts their keys. */
  function Elements(v: Value): Option<seq<Value>> {
    match v
    case Arr(items) => Some(items)
    case Str(s) => Some(Chars(s))
    case Obj(fields) => Some(KeyValues(fields))
    case _ => None
  }

  /** `len(v)` */
  function Size(v: Value): Option<nat> {
    match v
    case Arr(items) => Some(|items|)
    case Str(s) => Some(|s|)
    case Obj(fields) => Some(|fields|)
    case _ => None
  }

  /** `len(v)` is defined exactly where iteration is, and counts the iterated elements. */
  lemma SizeCountsElements(v: Value)
    ensures Size(v).Some? <==> Elements(v).Some?
    ensures Size(v).Some? ==> Size(v).value == |Elements(v).value|
  {
  }

  predicate AllStrings(vs: seq<Value>) {
    forall i :: 0 <= i < |vs| ==> vs[i].Str?
  }

  function StringsOf(vs: seq<Value>): (r: seq<string>)
    requires AllStrings(vs)
    ensures |r| == |vs|
    ensures forall i :: 0 <= i < |vs| ==> r[i] == vs[i].s
  {
    if vs == [] then [] else [vs[0].s] + StringsOf(vs[1..])
  }

  /** `sep.join(v)`: every iterated element has to be a string. */
  function JoinWith(sep: string, v: Value): (r: Option<string>)
    ensures r.Some? <==> Elements(v).Some? && AllStrings(Elements(v).value)
    ensures r.Some? ==> r.value == Join(sep, StringsOf(Elements(v).value))
  {
    match Elements(v)
    case None => None
    case Some(vs) => if AllStrings(vs) then Some(Join(sep, StringsOf(vs))) else None
  }

  /**
   * `str(v)` (also what an f-string inserts). Strings, integers, booleans and
   * None are printed as Python prints them; floats, lists and dicts are handed
   * to `show`, which stands for Python's own formatting of them.
   */
  function Render(v: Value, show: Value -> string): string {
    match v
    case Str(s) => s
    case Int(i) => IntToDecimal(i)
    case Null => "None"
    case Bool(b) => if b then "True" else "False"
    case _ => show(v)
  }

  /** Whether `hash(v)` succeeds: lists and dicts are unhashable. */
  predicate Hashable(v: Value) {
    !v.Arr? && !v.Obj?
  }

  /** Python truthiness of a value. */
  predicate Truthy(v: Value) {
    match v
    case Null => false
    case Bool(b) => b
    case Int(i) => i != 0
    case Float(x) => x != 0.0
    case Str(s) => s != ""
    case Arr(items) => items != []
    case Obj(fields) => fields != []
  }

  /** `n < v` for a Python int n; comparing an int with None, a string, a list or a dict raises. */
  function IntLess(n: int, v: Value): Option<bool> {
    match v
    case Int(i) => Some(n < i)
    case Bool(b) => Some(n < if b then 1 else 0)
    case Float(x) => Some((n as real) < x)
    case _ => None
  }

  /** `v == 0`: true of 0, 0.0 and False; never raises. */
  predicate EqualsZero(v: Value) {
    v == Int(0) || v == Float(0.0) || v == Bool(false)
  }
}
