/**
 * Values shared by every part of the model: an optional value, and the
 * loosely-typed JSON values that the exchange client reads out of REST
 * replies and WebSocket pushes (JavaScript `any`).
 */
module Common {

  datatype Option<+T> = None | Some(value: T)

  /** A parsed JSON value, plus JavaScript's `undefined` for a missing key.
      Numbers on the wire here are integral (ids, millisecond times, counts). */
  datatype Json =
    | Undefined
    | Null
    | Bool(b: bool)
    | Num(n: int)
    | Str(s: string)
    | Arr(items: seq<Json>)
    | Object(fields: map<string, Json>)

  /** A JSON object, keyed by property name. */
  type Obj = map<string, Json>

  /** The properties a value exposes to `v.key`: an object's own fields, none
      for the other non-nullish values, and `None` where the read throws
      (`undefined.key`, `null.key`). */
  function PropsOf(v: Json): (r: Option<Obj>)
    ensures r.None? <==> IsNullish(v)
    ensures v.Object? ==> r == Some(v.fields)
  {
    match v
    case Undefined => None
    case Null => None
    case Object(fields) => Some(fields)
    case _ => Some(map[])
  }

  /** Property read `o.key`: `undefined` when the key is absent. */
  function Get(o: Obj, key: string): Json
  {
    if key in o then o[key] else Undefined
  }

  /** True for the two values the nullish operators `??` and `?.` skip. */
  predicate IsNullish(v: Json)
  {
    v == Undefined || v == Null
  }

  /** `a ?? b` */
  function Coalesce(a: Json, b: Json): (r: Json)
    ensures !IsNullish(a) ==> r == a
    ensures IsNullish(a) ==> r == b
  {
    if IsNullish(a) then b else a
  }

  /** JavaScript truthiness (`if (v)`, `!!v`, `v || w`). */
  predicate Truthy(v: Json)
  {
    match v
    case Undefined => false
    case Null => false
    case Bool(b) => b
    case Num(n) => n != 0
    case Str(s) => s != ""
    case Arr(_) => true
    case Object(_) => true
  }

  function DigitChar(d: nat): (c: char)
    requires d < 10
    ensures '0' <= c <= '9'
  {
    ('0' as int + d) as char
  }

  /** Decimal text of a natural number, most significant digit first. */
  function NatToString(n: nat): (s: string)
    ensures |s| >= 1
    ensures forall i :: 0 <= i < |s| ==> '0' <= s[i] <= '9'
    decreases n
  {
    if n < 10 then [DigitChar(n)] else NatToString(n / 10) + [DigitChar(n % 10)]
  }

  /** Value of a string of decimal digits. */
  function DecimalValue(s: string): nat
    requires forall i :: 0 <= i < |s| ==> '0' <= s[i] <= '9'
  {
    if s == [] then 0 else 10 * DecimalValue(s[..|s| - 1]) + (s[|s| - 1] as int - '0' as int)
  }

  /** Reading the decimal text back gives the number: so distinct numbers
      have distinct texts. */
  lemma {:induction false} DecimalRoundTrip(n: nat)
    ensures DecimalValue(NatToString(n)) == n
    decreases n
  {
    var s := NatToString(n);
    if n >= 10 {
      DecimalRoundTrip(n / 10);
      assert s[..|s| - 1] == NatToString(n / 10);
    }
  }

  /** `String(v)` / `${v}` for the values the model carries. */
  function JsString(v: Json): string
    decreases v, if v.Arr? then |v.items| + 1 else 0
  {
    match v
    case Undefined => "undefined"
    case Null => "null"
    case Bool(b) => if b then "true" else "false"
    case Num(n) => if n < 0 then "-" + NatToString(-n) else NatToString(n)
    case Str(s) => s
    case Arr(items) => JoinFrom(items, 0)
    case Object(_) => "[object Object]"
  }

  /** `Array.prototype.join(",")` from index `i` on, as `String(array)` uses
      it: nullish items render empty. */
  function JoinFrom(items: seq<Json>, i: nat): string
    requires i <= |items|
    decreases Arr(items), |items| - i
  {
    if i == |items| then ""
    else
      var head := if IsNullish(items[i]) then "" else JsString(items[i]);
      if i + 1 == |items| then head else head + "," + JoinFrom(items, i + 1)
  }

  lemma NatStringInjective(x: nat, y: nat)
    requires NatToString(x) == NatToString(y)
    ensures x == y
  {
    DecimalRoundTrip(x);
    DecimalRoundTrip(y);
  }

  /** Two numeric order ids print the same text exactly when they are equal,
      so comparing `String(a) === String(b)` compares the numbers. */
  lemma NumStringInjective(a: int, b: int)
    ensures JsString(Num(a)) == JsString(Num(b)) <==> a == b
  {
    if JsString(Num(a)) == JsString(Num(b)) {
      SignedText(a);
      SignedText(b);
      if a < 0 && b < 0 {
        var sa := "-" + NatToString(-a);
        assert sa[1..] == NatToString(-a);
        NatStringInjective(-a, -b);
      } else if a >= 0 && b >= 0 {
        NatStringInjective(a, b);
      }
    }
  }

  lemma SignedText(a: int)
    ensures a < 0 ==> JsString(Num(a)) == "-" + NatToString(-a) && JsString(Num(a))[0] == '-'
    ensures a >= 0 ==> JsString(Num(a)) == NatToString(a) && '0' <= JsString(Num(a))[0] <= '9'
  {
  }
}
