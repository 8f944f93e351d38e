/**
 * The few JavaScript values the coordinator handles: the properties of the
 * options object given to `start`, object spread, truthiness and the string
 * conversion done by a template literal.
 */
module JsValues {

  datatype Option<+T> = None | Some(value: T)

  /** A JavaScript value as far as the options of `start` use it:
      `undefined`, an integral number or a string. */
  datatype Value = Undefined | Num(n: int) | Str(s: string)

  /** A plain object, as the map of its own enumerable properties. */
  type Object = map<string, Value>

  /** Property read: a property the object does not have reads as `undefined`. */
  function Get(o: Object, key: string): Value
  {
    if key in o then o[key] else Undefined
  }

  /** `{ ...a, ...b }`: every property of `b` overrides the one of `a`, including
      a property of `b` whose value is `undefined`. */
  function Spread(a: Object, b: Object): (r: Object)
    ensures r.Keys == a.Keys + b.Keys
    ensures forall k :: Get(r, k) == if k in b then b[k] else Get(a, k)
  {
    a + b
  }

  /** JavaScript truthiness (`x || y`, `if (x)`) of a value. */
  predicate Truthy(v: Value)
  {
    match v
    case Undefined => false
    case Num(n) => n != 0
    case Str(s) => s != ""
  }

  /** The text a template literal `${v}` inserts for `v`. */
  function Show(v: Value): string
  {
    match v
    case Undefined => "undefined"
    case Num(n) => if n < 0 then "-" + Digits(-n) else Digits(n)
    case Str(s) => s
  }

  predicate IsDigit(c: char)
  {
    '0' <= c <= '9'
  }

  function DigitChar(d: nat): (c: char)
    requires d < 10
    ensures IsDigit(c) && (c as int) - ('0' as int) == d
  {
    (('0' as int) + d) as char
  }

  /** The decimal numeral of `n`, most significant digit first, without leading zeros. */
  function Digits(n: nat): (s: string)
    ensures |s| >= 1
    ensures forall i :: 0 <= i < |s| ==> IsDigit(s[i])
    ensures s[0] == '0' ==> n == 0
  {
    if n < 10 then [DigitChar(n)] else Digits(n / 10) + [DigitChar(n % 10)]
  }

  /** The number a string of decimal digits denotes. */
  function DigitsValue(s: string): nat
    requires forall i :: 0 <= i < |s| ==> IsDigit(s[i])
  {
    if s == [] then 0
    else
      assert IsDigit(s[|s| - 1]);
      DigitsValue(s[..|s| - 1]) * 10 + ((s[|s| - 1] as int) - ('0' as int))
  }

  /** Reading back the numeral of `n` gives `n`. */
  lemma {:induction false} DigitsRoundTrip(n: nat)
    ensures DigitsValue(Digits(n)) == n
  {
    if n >= 10 {
      var s := Digits(n);
      assert s[..|s| - 1] == Digits(n / 10);
      DigitsRoundTrip(n / 10);
    }
  }

  /** A number's text is its numeral, with a minus sign exactly when it is negative. */
  lemma ShowNumber(n: int)
    ensures |Show(Num(n))| >= 1
    ensures Show(Num(n))[0] == '-' <==> n < 0
    ensures n >= 0 ==> DigitsValue(Show(Num(n))) == n
    ensures n < 0 ==> DigitsValue(Show(Num(n))[1..]) == -n
  {
    if n < 0 {
      var d := Digits(-n);
      assert Show(Num(n)) == "-" + d;
      assert ("-" + d)[1..] == d;
      DigitsRoundTrip(-n);
    } else {
      var d := Digits(n);
      assert Show(Num(n)) == d;
      assert IsDigit(d[0]);
      DigitsRoundTrip(n);
    }
  }
}
