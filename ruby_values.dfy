/** Parsed JSON values as the Ruby client holds them, and the few Ruby
    operations the client applies to them: indexing with a string key,
    `to_f`, and iteration with `for ... in`. Each of these raises on a
    receiver that does not support it. */
module RubyValues {
  import opened OrderedHash

  /** A JSON value after `JSON.parse`; `Null` is Ruby's nil. */
  datatype Value =
    | Null
    | Bool(b: bool)
    | Num(x: real)
    | Str(s: string)
    | Arr(items: seq<Value>)
    | Obj(fields: Assoc<Value>)

  /** The outcome of a Ruby expression: a value, or an exception in flight. */
  datatype Outcome<+T> = Returned(value: T) | Raised

  /** `k` occurs in `s` as a contiguous substring. */
  predicate Contains(s: string, k: string)
    decreases |s|
  {
    k <= s || (s != [] && Contains(s[1..], k))
  }

  /** `v[key]` for a String key: a Hash looks the key up (nil when absent), a
      String answers the key itself when it contains it (nil otherwise); nil,
      booleans, numbers and arrays raise. */
  function Index(v: Value, key: string): (r: Outcome<Value>)
    ensures r.Returned? <==> v.Obj? || v.Str?
    ensures v.Obj? && key in Keys(v.fields) ==> r == Returned(Get(v.fields, key).value)
    ensures v.Obj? && key !in Keys(v.fields) ==> r == Returned(Null)
  {
    match v
    case Obj(fields) =>
      (match Get(fields, key)
       case Some(x) => Returned(x)
       case None => Returned(Null))
    case Str(s) => Returned(if Contains(s, key) then Str(key) else Null)
    case _ => Raised
  }

  /** `v.to_f`: nil gives 0.0, a number itself, a String whatever `String#to_f`
      (the parameter `stringToF`) parses from it; other values raise. */
  function ToF(stringToF: string -> real, v: Value): (r: Outcome<real>)
    ensures r.Returned? <==> v.Null? || v.Num? || v.Str?
    ensures v.Null? ==> r == Returned(0.0)
    ensures v.Num? ==> r == Returned(v.x)
    ensures v.Str? ==> r == Returned(stringToF(v.s))
  {
    match v
    case Null => Returned(0.0)
    case Num(x) => Returned(x)
    case Str(s) => Returned(stringToF(s))
    case _ => Raised
  }

  /** What `for t in v` visits: the elements of an Array, the `[key, value]`
      pairs of a Hash; any other receiver has no `each` and raises. */
  function Elements(v: Value): (r: Outcome<seq<Value>>)
    ensures r.Returned? <==> v.Arr? || v.Obj?
    ensures v.Arr? ==> r == Returned(v.items)
    ensures v.Obj? ==> |r.value| == |v.fields|
    ensures v.Obj? ==> forall i :: 0 <= i < |v.fields| ==> r.value[i] == Arr([Str(v.fields[i].0), v.fields[i].1])
  {
    match v
    case Arr(items) => Returned(items)
    case Obj(fields) =>
      Returned(seq(|fields|, i requires 0 <= i < |fields| => Arr([Str(fields[i].0), fields[i].1])))
    case _ => Raised
  }
}
