/** The fragment of JavaScript semantics the API client relies on: values as
    they arrive from callers and from parsed JSON responses, truthiness,
    underscore's `_.isEmpty`, property reads, string conversion and the
    Latin-1 restriction of `window.btoa`. */
module Js {

  /** The largest integer a JavaScript number holds exactly, 2^53 - 1. */
  const MaxSafeInteger: int := 0x1F_FFFF_FFFF_FFFF

  /** The integers a JavaScript number represents exactly. Below 10^21 such
      numbers print as plain decimal numerals. */
  type SafeInt = n: int | -MaxSafeInteger <= n <= MaxSafeInteger

  /** A JavaScript value that can reach the client as call data, stored
      credentials or a parsed response body. Numbers are safe integers. */
  datatype Value =
    | Undefined
    | Null
    | Bool(b: bool)
    | Num(n: SafeInt)
    | Str(s: string)
    | Arr(items: seq<Value>)
    | Obj(fields: map<string, Value>)

  /** A property that may be absent from an object. */
  datatype Option<+T> = None | Some(value: T)

  /** The exceptions the modelled code can raise. */
  datatype Error = TypeError | InvalidCharacterError

  /** A computation that either yields a value or throws. */
  datatype Result<+T> = Ok(value: T) | Err(error: Error) {
    predicate IsFailure() {
      Err?
    }

    function PropagateFailure<U>(): Result<U>
      requires Err?
    {
      Err(error)
    }

    function Extract(): T
      requires Ok?
    {
      value
    }
  }

  const EmptyObject: Value := Obj(map[])

  /** `v == null` in JavaScript: both null and undefined. */
  predicate Nullish(v: Value) {
    v.Undefined? || v.Null?
  }

  /** ToBoolean: undefined, null, false, 0 and "" are the falsy values. */
  predicate Truthy(v: Value) {
    match v
    case Undefined => false
    case Null => false
    case Bool(b) => b
    case Num(n) => n != 0
    case Str(s) => |s| > 0
    case Arr(_) => true
    case Obj(_) => true
  }

  /** `a || b` */
  function Or(a: Value, b: Value): Value {
    if Truthy(a) then a else b
  }

  /** underscore's `_.isEmpty`: null and undefined are empty, strings and
      arrays are empty when their length is 0, everything else when it has
      no own enumerable keys (so numbers and booleans are always empty). */
  predicate IsEmpty(v: Value) {
    match v
    case Str(s) => |s| == 0
    case Arr(items) => |items| == 0
    case Obj(fields) => |fields| == 0
    case _ => true
  }

  /** The two property names the client reads from a credential. Neither is
      an array index, `length`, or a property every object inherits. */
  datatype CredentialField = KeyField | SecretField {
    function Name(): string {
      match this
      case KeyField => "key"
      case SecretField => "secret"
    }
  }

  /** The value of property `f` of a non-nullish value: an own field of an
      object, and undefined for every other kind of value. */
  function Prop(v: Value, f: CredentialField): Value {
    match v
    case Obj(fields) => if f.Name() in fields then fields[f.Name()] else Undefined
    case _ => Undefined
  }

  /** The property read `v.f`, which throws a TypeError on null and undefined. */
  function Member(v: Value, f: CredentialField): (r: Result<Value>)
    ensures r.Err? <==> Nullish(v)
    ensures r.Err? ==> r.error == TypeError
    ensures v.Obj? && f.Name() !in v.fields ==> r == Ok(Undefined)
    ensures v.Obj? && f.Name() in v.fields ==> r == Ok(v.fields[f.Name()])
  {
    if Nullish(v) then Err(TypeError) else Ok(Prop(v, f))
  }

  /** The character of decimal digit `d`. */
  function DigitChar(d: nat): (c: char)
    requires d < 10
    ensures '0' <= c <= '9'
  {
    (48 + d) as char
  }

  predicate AllDigits(s: string) {
    forall i :: 0 <= i < |s| ==> '0' <= s[i] <= '9'
  }

  /** The number a string of decimal digits denotes. */
  function DigitsValue(s: string): nat
    requires AllDigits(s)
  {
    if |s| == 0 then 0 else 10 * DigitsValue(s[..|s| - 1]) + (s[|s| - 1] as int - '0' as int)
  }

  /** The shortest decimal numeral of `n`: non-empty, all digits, denoting
      `n`, and without a leading zero unless it is "0". */
  function NatDecimal(n: nat): (s: string)
    ensures |s| > 0 && AllDigits(s)
    ensures DigitsValue(s) == n
    ensures s[0] == '0' <==> n == 0
    ensures n == 0 ==> s == "0"
  {
    if n < 10 then
      [DigitChar(n)]
    else
      var prefix := NatDecimal(n / 10);
      var s := prefix + [DigitChar(n % 10)];
      assert s[..|s| - 1] == prefix;
      s
  }

  /** Number-to-string conversion of an integral number below 10^21 in
      magnitude, which JavaScript prints as a plain decimal numeral. */
  function Decimal(n: int): string {
    if n < 0 then "-" + NatDecimal(-n) else NatDecimal(n)
  }

  /** ToString, as applied by `+` when the other operand is a string. An
      object goes through OrdinaryToPrimitive. Its inherited `valueOf`
      returns the object itself and is passed over. An own non-callable
      `toString` field hides the inherited one, leaving no method that yields
      a primitive, and that throws a TypeError. Values parsed from JSON carry
      no callable fields. */
  function ToStr(v: Value): (r: Result<string>)
    ensures r.Err? ==> r.error == TypeError
    ensures v.Str? ==> r == Ok(v.s)
    decreases v, 1, 0
  {
    match v
    case Undefined => Ok("undefined")
    case Null => Ok("null")
    case Bool(b) => Ok(if b then "true" else "false")
    case Num(n) => Ok(Decimal(n))
    case Str(s) => Ok(s)
    case Arr(items) => JoinFrom(v, 0)
    case Obj(fields) => if "toString" in fields then Err(TypeError) else Ok("[object Object]")
  }

  /** `Array.prototype.join(",")` over the elements of array `v` from index
      `i` on: null and undefined elements contribute the empty string, and
      the first element that cannot be converted throws. */
  function JoinFrom(v: Value, i: nat): (r: Result<string>)
    requires v.Arr? && i <= |v.items|
    ensures r.Err? ==> r.error == TypeError
    decreases v, 0, |v.items| - i
  {
    if i == |v.items| then Ok("")
    else
      var e := v.items[i];
      var head :- if Nullish(e) then Ok("") else ToStr(e);
      if i + 1 == |v.items| then Ok(head)
      else
        var rest :- JoinFrom(v, i + 1);
        Ok(head + "," + rest)
  }

  /** The join from index `i` throws when some element at or after `i` is an
      object with its own `toString` field. */
  lemma {:induction false} JoinFromThrows(v: Value, i: nat, j: nat)
    requires v.Arr? && i <= j < |v.items|
    requires v.items[j].Obj? && "toString" in v.items[j].fields
    ensures JoinFrom(v, i) == Err(TypeError)
    decreases j - i
  {
    if i < j {
      JoinFromThrows(v, i + 1, j);
    }
  }

  /** An object with its own `toString` field cannot be converted, whatever
      the field holds; as an element of any array it makes the join throw. */
  lemma OwnToStringThrows(fields: map<string, Value>, items: seq<Value>, j: nat)
    requires "toString" in fields
    requires j < |items| && items[j] == Obj(fields)
    ensures ToStr(Obj(fields)) == Err(TypeError)
    ensures ToStr(Arr(items)) == Err(TypeError)
  {
    JoinFromThrows(Arr(items), 0, j);
  }

  /** Every character is in the Latin-1 range, as `window.btoa` requires. */
  predicate Latin1(s: string) {
    forall i :: 0 <= i < |s| ==> s[i] as int < 256
  }

  /** `window.btoa`: throws InvalidCharacterError on a character outside
      Latin-1, otherwise yields the base64 text computed by `base64`. */
  function Btoa(base64: string -> string, s: string): (r: Result<string>)
    ensures r.Ok? <==> Latin1(s)
    ensures r.Ok? ==> r.value == base64(s)
    ensures r.Err? ==> r.error == InvalidCharacterError
  {
    if Latin1(s) then Ok(base64(s)) else Err(InvalidCharacterError)
  }
}
