/**
 * `Number(text)` and `String(number)` for the column fields of a fixed-format
 * line. Those fields are at most seven characters wide, so every value they
 * denote is an integer well inside the exactly representable range of a
 * double; the only non-integer outcome that matters is NaN.
 */
module JsNumber {

  datatype Num = Finite(n: int) | NaN

  predicate IsDigit(c: char) {
    '0' <= c <= '9'
  }

  predicate IsDigits(s: string) {
    |s| > 0 && forall i :: 0 <= i < |s| ==> IsDigit(s[i])
  }

  /** The value of a decimal digit string (leading zeros allowed). */
  function DigitsValue(s: string): nat
    requires forall i :: 0 <= i < |s| ==> IsDigit(s[i])
  {
    if s == [] then 0
    else
      assert IsDigit(s[|s| - 1]);
      DigitsValue(s[..|s| - 1]) * 10 + (s[|s| - 1] as int - '0' as int)
  }

  /**
   * `Number(s)` for an already trimmed string: "" is 0, an optionally signed
   * run of decimal digits is its value, anything else is NaN.
   */
  function ToNumber(s: string): Num {
    if s == "" then Finite(0)
    else if IsDigits(s) then Finite(DigitsValue(s))
    else if (s[0] == '+' || s[0] == '-') && IsDigits(s[1..]) then
      var v: int := DigitsValue(s[1..]);
      Finite(if s[0] == '-' then -v else v)
    else NaN
  }

  /** Decimal digits of n without leading zeros (`String(n)` for n >= 0). */
  function NatText(n: nat): (r: string)
    ensures IsDigits(r)
    decreases n
  {
    if n < 10 then [('0' as int + n) as char]
    else NatText(n / 10) + [('0' as int + n % 10) as char]
  }

  /** `String(x)`. */
  function NumText(x: Num): string {
    match x
    case NaN => "NaN"
    case Finite(n) => if n < 0 then "-" + NatText(-n) else NatText(n)
  }

  function Add(x: Num, y: Num): Num {
    if x.Finite? && y.Finite? then Finite(x.n + y.n) else NaN
  }

  function Sub(x: Num, y: Num): Num {
    if x.Finite? && y.Finite? then Finite(x.n - y.n) else NaN
  }

  function Mul(x: Num, y: Num): Num {
    if x.Finite? && y.Finite? then Finite(x.n * y.n) else NaN
  }

  lemma {:induction false} NatTextValue(n: nat)
    ensures DigitsValue(NatText(n)) == n
    decreases n
  {
    if n >= 10 {
      var t := NatText(n / 10);
      var r := NatText(n);
      assert r[..|r| - 1] == t;
      NatTextValue(n / 10);
    }
  }

  /** Reading back what `String` printed gives the number again, NaN included. */
  lemma {:induction false} NumTextRoundTrip(x: Num)
    ensures ToNumber(NumText(x)) == x
  {
    match x
    case NaN =>
      assert !IsDigits("NaN") by { assert !IsDigit("NaN"[0]); }
      assert "NaN"[0] != '+' && "NaN"[0] != '-';
    case Finite(n) =>
      if n < 0 {
        var t := NatText(-n);
        NatTextValue(-n);
        assert ("-" + t)[1..] == t;
        assert !IsDigits("-" + t) by { assert !IsDigit(("-" + t)[0]); }
      } else {
        NatTextValue(n);
      }
  }

  function Pow(b: nat, e: nat): (r: nat)
    ensures b >= 1 ==> r >= 1
  {
    if e == 0 then 1 else b * Pow(b, e - 1)
  }

  lemma {:induction false} PowAdd(b: nat, m: nat, n: nat)
    ensures Pow(b, m + n) == Pow(b, m) * Pow(b, n)
    decreases n
  {
    if n > 0 {
      var x, y := Pow(b, m), Pow(b, n - 1);
      calc {
        Pow(b, m + n);
        b * Pow(b, m + (n - 1));
        { PowAdd(b, m, n - 1); }
        b * (x * y);
        { assert b * (x * y) == x * (b * y); }
        x * (b * y);
        Pow(b, m) * Pow(b, n);
      }
    }
  }

  /** `String(n)` has k digits exactly when n lies in [10^(k-1), 10^k). */
  lemma {:induction false} NatTextLength(n: nat, k: nat)
    requires 1 <= k && Pow(10, k - 1) <= n < Pow(10, k)
    ensures |NatText(n)| == k
    decreases k
  {
    if k > 1 {
      var q := n / 10;
      assert Pow(10, k - 1) == 10 * Pow(10, k - 2);
      assert Pow(10, k) == 10 * Pow(10, k - 1);
      assert n == 10 * q + n % 10;
      assert Pow(10, k - 2) <= q < Pow(10, k - 1);
      NatTextLength(q, k - 1);
    }
  }
}
