/** The Ruby values the generator and the runtime library read out of parsed YAML and
    HTTP response bodies, with Ruby's truthiness and `Hash#[]`. */
module RubyValue {
  import opened Wrappers
  import opened Strings

  datatype Value =
    | Nil
    | Bool(b: bool)
    | Int(i: int)
    | Str(s: string)
    | Sym(name: string)
    | Arr(items: seq<Value>)
    | Hash(entries: seq<(Value, Value)>)

  /** Ruby truthiness: everything except `nil` and `false`. */
  predicate Truthy(v: Value)
  {
    !(v.Nil? || v == Bool(false))
  }

  /** `hash[key]`: the value stored under `key`, or `nil`. A Ruby hash holds each key once;
      the first entry is the one read. */
  function Lookup(entries: seq<(Value, Value)>, key: Value): (r: Value)
    ensures r != Nil ==> exists i :: 0 <= i < |entries| && entries[i] == (key, r)
    ensures (forall i :: 0 <= i < |entries| ==> entries[i].0 != key) ==> r == Nil
  {
    if |entries| == 0 then Nil
    else if entries[0].0 == key then entries[0].1
    else Lookup(entries[1..], key)
  }

  /** Ruby's `a || b`. */
  function Or(a: Value, b: Value): Value
  {
    if Truthy(a) then a else b
  }

  /** `inspect`. Strings are quoted without escaping, and hash pairs are written `k=>v`. */
  function Inspect(v: Value): string
    decreases v, 2
  {
    match v
    case Nil => "nil"
    case Bool(b) => if b then "true" else "false"
    case Int(i) => IntToString(i)
    case Str(s) => "\"" + s + "\""
    case Sym(name) => ":" + name
    case Arr(items) => "[" + InspectItems(items) + "]"
    case Hash(entries) => "{" + InspectEntries(entries) + "}"
  }

  function InspectItems(items: seq<Value>): string
    decreases items, 1
  {
    if |items| == 0 then ""
    else Inspect(items[0]) + (if |items| == 1 then "" else ", " + InspectItems(items[1..]))
  }

  function InspectPair(p: (Value, Value)): string
    decreases p, 1
  {
    Inspect(p.0) + "=>" + Inspect(p.1)
  }

  function InspectEntries(entries: seq<(Value, Value)>): string
    decreases entries, 1
  {
    if |entries| == 0 then ""
    else InspectPair(entries[0]) + (if |entries| == 1 then "" else ", " + InspectEntries(entries[1..]))
  }

  /** `to_s`, as string interpolation uses it. */
  function ToS(v: Value): string
  {
    match v
    case Nil => ""
    case Str(s) => s
    case Sym(name) => name
    case _ => Inspect(v)
  }

  /** `v.any?` for the collections that define it: a hash with an entry, an array with a
      truthy element. Other values have no `any?` and raise. */
  function Any(v: Value): (r: Option<bool>)
    ensures r.Some? <==> v.Hash? || v.Arr?
    ensures v.Hash? ==> r == Some(|v.entries| > 0)
  {
    match v
    case Hash(entries) => Some(|entries| > 0)
    case Arr(items) => Some(exists i :: 0 <= i < |items| && Truthy(items[i]))
    case _ => None
  }
}
