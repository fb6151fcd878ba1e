/** The few Java types the widget's code relies on: fixed-width integers,
    nullable references and thrown exceptions. */
module Java {

  /** Java `int`. */
  newtype int32 = x: int | -0x8000_0000 <= x < 0x8000_0000

  /** Java `long`. */
  newtype int64 = x: int | -0x8000_0000_0000_0000 <= x < 0x8000_0000_0000_0000

  /** Java `int` addition, which wraps around modulo 2^32. */
  function AddInt32(a: int32, b: int32): (r: int32)
    ensures -0x8000_0000 <= a as int + b as int < 0x8000_0000 ==> r as int == a as int + b as int
  {
    (((a as int + b as int + 0x8000_0000) % 0x1_0000_0000) - 0x8000_0000) as int32
  }

  /** A Java reference of type `T` that may be `null`. */
  datatype Nullable<T> = Null | Ref(get: T)

  /** The unchecked exceptions thrown by the widget's guards. */
  datatype JavaException =
    | NullPointerException(message: string)
    | IllegalStateException(message: string)

  /** The outcome of a Java call: it returns a value or throws. */
  datatype Outcome<T> = Returned(value: T) | Thrown(exception: JavaException)

  /** A decimal digit character. */
  predicate IsDigit(c: char) {
    '0' <= c <= '9'
  }

  /** The decimal digits of a natural number, most significant first, as
      `Integer.toString` writes them. */
  function Digits(n: nat): (r: string)
    ensures |r| >= 1 && forall i :: 0 <= i < |r| ==> IsDigit(r[i])
    ensures n >= 10 <==> |r| >= 2
    decreases n
  {
    if n < 10 then [('0' as int + n) as char] else Digits(n / 10) + [('0' as int + n % 10) as char]
  }

  /** The number a string of decimal digits denotes, most significant first. */
  function DigitsValue(s: string): (v: nat)
    requires forall i :: 0 <= i < |s| ==> IsDigit(s[i])
    decreases |s|
  {
    if s == [] then 0
    else
      var last := s[|s| - 1];
      assert IsDigit(last);
      DigitsValue(s[..|s| - 1]) * 10 + (last as int - '0' as int)
  }

  /** Reading back the digits written for `n` gives `n`. */
  lemma {:induction false} DigitsRoundTrip(n: nat)
    ensures DigitsValue(Digits(n)) == n
    decreases n
  {
    if n >= 10 {
      var prefix := Digits(n / 10);
      DigitsRoundTrip(n / 10);
      assert Digits(n)[..|Digits(n)| - 1] == prefix;
    }
  }

  /** String concatenation of an `int` (`"..." + value`): a minus sign for a
      negative value, then the digits of its magnitude. */
  function IntToString(v: int32): (r: string)
    ensures |r| >= 1
    ensures (r[0] == '-') <==> v < 0
    ensures forall i :: 0 < i < |r| ==> IsDigit(r[i])
  {
    if v < 0 then "-" + Digits(-(v as int)) else Digits(v as int)
  }

  /** The text written for an `int` denotes it: the sign, then the magnitude. */
  lemma IntToStringRoundTrip(v: int32)
    ensures var r := IntToString(v);
      (if r[0] == '-' then -(DigitsValue(r[1..]) as int) else DigitsValue(r) as int) == v as int
  {
    if v < 0 {
      DigitsRoundTrip(-(v as int));
      assert IntToString(v)[1..] == Digits(-(v as int));
    } else {
      DigitsRoundTrip(v as int);
    }
  }
}
