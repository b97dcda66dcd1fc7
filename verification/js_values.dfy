/**
 * The JavaScript values the event bus moves around: what `JSON.parse` yields,
 * property reads (`v.key`) that throw on `null` and `undefined`, truthiness as
 * used by `x || y`, and the string conversion a template literal applies.
 * `undefined` is not a `Value`: an absent property reads as `None`.
 */
module JsValues {
  import opened Wrappers

  datatype Value =
    | Null
    | Bool(b: bool)
    | Num(n: int)
    | Str(s: string)
    | Arr(items: seq<Value>)
    | Obj(fields: map<string, Value>)

  /**
   * The `TypeError`s the core can throw: a property read on `null` or
   * `undefined`, and a string conversion that finds no primitive value.
   */
  datatype JsError = TypeError(property: string) | NoPrimitive

  /** `v` is truthy: `v || d` evaluates to `v` exactly when this holds. */
  predicate Truthy(v: Value) {
    match v
    case Null => false
    case Bool(b) => b
    case Num(n) => n != 0
    case Str(s) => s != ""
    case Arr(_) => true
    case Obj(_) => true
  }

  /** `v` is `null` or `undefined`. */
  predicate Nullish(v: Option<Value>) {
    v == None || v == Some(Null)
  }

  /** The property read `v.key` on a value that may be `undefined` (`None`). */
  function GetProp(v: Option<Value>, key: string): (r: Result<Option<Value>, JsError>)
    ensures r.Err? <==> Nullish(v)
    ensures r.Err? ==> r.error == TypeError(key)
    ensures r.Ok? ==> r.value == Lookup(v, key)
  {
    match v
    case None => Err(TypeError(key))
    case Some(Null) => Err(TypeError(key))
    case Some(Obj(fields)) => Ok(if key in fields then Some(fields[key]) else None)
    case Some(_) => Ok(None)
  }

  /** The property `key` of an object, or `None` (`undefined`) for anything else. */
  function Lookup(v: Option<Value>, key: string): Option<Value> {
    if v.Some? && v.value.Obj? && key in v.value.fields then Some(v.value.fields[key]) else None
  }

  /** `s` occurs in `text` as a contiguous piece. */
  ghost predicate Contains(text: string, s: string) {
    exists i :: OccursAt(text, s, i)
  }

  /** `s` occurs in `text` starting at index `i`. */
  predicate OccursAt(text: string, s: string, i: int) {
    0 <= i <= |text| - |s| && text[i..i + |s|] == s
  }

  function Digit(d: nat): char
    requires d < 10
  {
    "0123456789"[d]
  }

  /** Decimal digits of a natural number, without leading zeros. */
  function NatText(n: nat): (r: string)
    ensures |r| >= 1
    ensures forall i :: 0 <= i < |r| ==> '0' <= r[i] <= '9'
    ensures n >= 10 ==> r[0] != '0'
    decreases n
  {
    if n < 10 then [Digit(n)] else NatText(n / 10) + [Digit(n % 10)]
  }

  /** `String(n)`; JavaScript prints an integer this way below `10^21` in magnitude. */
  function IntText(n: int): string {
    if n < 0 then "-" + NatText(-n) else NatText(n)
  }

  /**
   * `String(v)` succeeds: no object the conversion reaches has an own
   * `toString` key. A parsed object can hold `toString` only as data, which
   * is not callable, and `Object.prototype.valueOf` returns the object
   * itself, so the conversion throws. Arrays convert through `join`, which
   * converts each element.
   */
  predicate Renderable(v: Value) {
    match v
    case Obj(fields) => "toString" !in fields
    case Arr(items) => forall i :: 0 <= i < |items| ==> Renderable(items[i])
    case _ => true
  }

  /** `String(v)` succeeds on `v`, which may be `undefined`. */
  predicate Renders(v: Option<Value>) {
    v.None? || Renderable(v.value)
  }

  /** `String(v)`, as a template literal `${v}` renders a value. */
  function Display(v: Option<Value>): (r: Result<string, JsError>)
    ensures r.Ok? <==> Renders(v)
    ensures r.Err? ==> r.error == NoPrimitive
    ensures v == None ==> r == Ok("undefined")
  {
    match v
    case None => Ok("undefined")
    case Some(x) => Text(x)
  }

  function Text(v: Value): (r: Result<string, JsError>)
    ensures r.Ok? <==> Renderable(v)
    ensures r.Err? ==> r.error == NoPrimitive
    ensures v.Str? ==> r == Ok(v.s)
    decreases v, if v.Arr? then |v.items| + 1 else 0
  {
    match v
    case Null => Ok("null")
    case Bool(b) => Ok(if b then "true" else "false")
    case Num(n) => Ok(IntText(n))
    case Str(s) => Ok(s)
    case Arr(items) => JoinText(v, 0)
    case Obj(fields) => if "toString" in fields then Err(NoPrimitive) else Ok("[object Object]")
  }

  /**
   * `Array.prototype.join(",")` on the elements of `arr` from index `i` on:
   * `null` elements render as the empty string, and the first element that
   * cannot be converted throws.
   */
  function JoinText(arr: Value, i: nat): (r: Result<string, JsError>)
    requires arr.Arr? && i <= |arr.items|
    ensures r.Ok? <==> forall j :: i <= j < |arr.items| ==> Renderable(arr.items[j])
    ensures r.Err? ==> r.error == NoPrimitive
    decreases arr, |arr.items| - i
  {
    if i == |arr.items| then Ok("")
    else
      var item :- if arr.items[i] == Null then Ok("") else Text(arr.items[i]);
      if i + 1 == |arr.items| then Ok(item)
      else
        var rest :- JoinText(arr, i + 1);
        Ok(item + "," + rest)
  }

  /** The largest integer a JavaScript number holds exactly, `2^53 - 1`. */
  const MaxSafeInteger: int := 0x1F_FFFF_FFFF_FFFF

  /** Every number in `v` is a safe integer, so `JSON.parse` reads it back unrounded. */
  predicate SafeNumbers(v: Value) {
    match v
    case Num(n) => -MaxSafeInteger <= n <= MaxSafeInteger
    case Arr(items) => forall i :: 0 <= i < |items| ==> SafeNumbers(items[i])
    case Obj(fields) => forall k :: k in fields ==> SafeNumbers(fields[k])
    case _ => true
  }
}
