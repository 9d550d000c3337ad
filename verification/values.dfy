/** Decoded JSON values, the currency of the notification payloads and of the
    build property records, together with the bits of Python semantics the
    modelled code applies to them: truthiness, `==`, `in`, `d[k]`, `d.get`
    and `str()`. */
module Values {
  import opened Wrappers
  import opened Strings

  datatype Value =
    | Null
    | Bool(b: bool)
    | Int(i: int)
    | Str(s: string)
    | List(items: seq<Value>)
    | Obj(fields: map<string, Value>)

  /** A keyword-argument dictionary such as `**pulse_properties`. */
  type Props = map<string, Value>

  /** Python truthiness. */
  predicate Truthy(v: Value) {
    match v
    case Null => false
    case Bool(b) => b
    case Int(i) => i != 0
    case Str(s) => s != ""
    case List(xs) => xs != []
    case Obj(m) => m != map[]
  }

  /** The numeric value of a bool or an int (`True == 1` in Python). */
  function Number(v: Value): Option<int> {
    match v
    case Bool(b) => Some(if b then 1 else 0)
    case Int(i) => Some(i)
    case _ => None
  }

  /** Python `==` at the top level: numbers compare by value, everything else structurally. */
  predicate PyEq(a: Value, b: Value) {
    if Number(a).Some? && Number(b).Some? then Number(a) == Number(b) else a == b
  }

  predicate Hashable(v: Value) {
    !v.List? && !v.Obj?
  }

  /** `item in container`. */
  function PyIn(item: Value, container: Value): (r: Result<bool>)
    ensures container.List? ==> r.Success?
    ensures container.Obj? && item.Str? ==> r == Success(item.s in container.fields)
  {
    match container
    case List(xs) => Success(exists k :: 0 <= k < |xs| && PyEq(xs[k], item))
    case Obj(m) =>
      if !Hashable(item) then Failure(TypeError("unhashable"))
      else Success(item.Str? && item.s in m)
    case Str(s) =>
      if item.Str? then Success(Contains(s, item.s))
      else Failure(TypeError("in string"))
    case _ => Failure(TypeError("not iterable"))
  }

  /** Membership of a value in a configured list of strings. */
  predicate InStrings(v: Value, xs: seq<string>) {
    v.Str? && v.s in xs
  }

  /** `d[k]` on a dictionary of keyword arguments. */
  function At(d: Props, k: string): (r: Result<Value>)
    ensures r.Success? <==> k in d
    ensures k in d ==> r.value == d[k]
  {
    if k in d then Success(d[k]) else Failure(KeyError(k))
  }

  /** `v[k]` on a decoded JSON value. */
  function Field(v: Value, k: string): (r: Result<Value>)
    ensures r.Success? <==> v.Obj? && k in v.fields
    ensures r.Success? ==> r.value == v.fields[k]
  {
    match v
    case Obj(m) => if k in m then Success(m[k]) else Failure(KeyError(k))
    case Null => Failure(TypeError("not subscriptable"))
    case List(_) => Failure(TypeError("list index"))
    case Str(_) => Failure(TypeError("string index"))
    case _ => Failure(TypeError("not subscriptable"))
  }

  /** The first of `keys` that `d` lacks: the key a `KeyError` names. */
  function FirstMissing(d: Props, keys: seq<string>): string {
    if |keys| == 0 then ""
    else if keys[0] !in d then keys[0]
    else FirstMissing(d, keys[1..])
  }

  /** `d.get(k, default)`. */
  function Get(d: Props, k: string, default: Value): (r: Value)
    ensures k in d ==> r == d[k]
    ensures k !in d ==> r == default
  {
    if k in d then d[k] else default
  }

  /** `v.get(k, default)` on a decoded JSON value (only dictionaries have `get`). */
  function GetField(v: Value, k: string, default: Value): (r: Result<Value>)
    ensures r.Success? <==> v.Obj?
    ensures v.Obj? ==> r.value == Get(v.fields, k, default)
  {
    if v.Obj? then Success(Get(v.fields, k, default))
    else Failure(AttributeError("get"))
  }

  /** Strings as values, in the same order. */
  function Strs(ks: seq<string>): (r: seq<Value>)
    ensures |r| == |ks|
    ensures forall i :: 0 <= i < |ks| ==> r[i] == Str(ks[i])
    ensures forall k :: k in ks ==> Str(k) in r
  {
    if |ks| == 0 then [] else [Str(ks[0])] + Strs(ks[1..])
  }

  /** `iter(v)`: a list yields its items, a string its characters, a
      dictionary its keys; nothing else can be iterated. */
  function Elements(v: Value): (r: Result<seq<Value>>)
    ensures r.Success? <==> v.List? || v.Str? || v.Obj?
    ensures v.List? ==> r == Success(v.items)
    ensures v.Str? ==> |r.value| == |v.s| && forall i :: 0 <= i < |v.s| ==> r.value[i] == Str([v.s[i]])
    ensures v.Obj? ==> |r.value| == |v.fields|
    ensures v.Obj? ==> forall i :: 0 <= i < |r.value| ==> r.value[i].Str? && r.value[i].s in v.fields
    ensures v.Obj? ==> forall k :: k in v.fields ==> Str(k) in r.value
    ensures !r.Success? ==> r.error.TypeError?
  {
    match v
    case List(xs) => Success(xs)
    case Str(s) => Success(seq(|s|, i requires 0 <= i < |s| => Str([s[i]])))
    case Obj(m) => Success(Strs(InOrder(m.Keys)))
    case _ => Failure(TypeError("not iterable"))
  }

  /** `v.lower()`: only strings have it. */
  function LowerValue(v: Value): (r: Result<string>)
    ensures r.Success? <==> v.Str?
    ensures v.Str? ==> r.value == Lower(v.s)
  {
    if v.Str? then Success(Lower(v.s)) else Failure(AttributeError("lower"))
  }

  /** `str(v)` as used by `'{}'.format(v)`.  Lists and dictionaries are
      rendered by a fixed placeholder; the model never relies on their text. */
  function ToStr(v: Value): string {
    match v
    case Null => "None"
    case Bool(b) => if b then "True" else "False"
    case Int(i) => IntToString(i)
    case Str(s) => s
    case List(_) => "[...]"
    case Obj(_) => "{...}"
  }

  /** `'%s' % x` for an optional command-line value. */
  function OptStr(v: Option<string>): string {
    match v
    case Some(s) => s
    case None => "None"
  }

  /** Truthiness of an optional command-line string. */
  predicate OptTruthy(v: Option<string>) {
    v.Some? && v.value != ""
  }
}
