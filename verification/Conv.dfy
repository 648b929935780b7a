/** Decimal conversion of the standard library (stdlib/conv/conv.sy), with the 64-bit
    wrap-around arithmetic of the language. */
module Conv {
  import opened Language

  predicate IsDigit(c: char) { '0' <= c <= '9' }

  predicate AllDigits(s: string) { forall i :: 0 <= i < |s| ==> IsDigit(s[i]) }

  function DigitValue(c: char): int { c as int - 48 }

  /** The number a string of digits denotes. */
  function Decimal(s: string): int
  {
    if s == [] then 0 else Decimal(s[..|s| - 1]) * 10 + DigitValue(s[|s| - 1])
  }

  datatype Conversion = Number(n: int) | Invalid

  // ---------- wrap-around ----------

  lemma WrapMultiple(n: int, k: int)
    ensures Wrap(n + k * TWO_64) == Wrap(n)
  {
    assert (n + k * TWO_64 + TWO_63) % TWO_64 == (n + TWO_63) % TWO_64 by { ModMultiple(n + TWO_63, k); }
  }

  lemma ModMultiple(a: int, k: int)
    ensures (a + k * TWO_64) % TWO_64 == a % TWO_64
  {
    var q, r := a / TWO_64, a % TWO_64;
    assert a + k * TWO_64 == (q + k) * TWO_64 + r;
  }

  /** Wrapping differs from the exact value by a multiple of 2^64. */
  lemma WrapOff(n: int) returns (k: int)
    ensures Wrap(n) == n + k * TWO_64
  {
    k := -((n + TWO_63) / TWO_64);
  }

  lemma WrapSmall(n: int)
    requires -TWO_63 <= n < TWO_63
    ensures Wrap(n) == n
  {
  }

  /** One step of atoi: wrapping on the way does not matter. */
  lemma WrapStep(v: int, c: int)
    ensures Wrap(Wrap(Wrap(Wrap(v) * 10) + c) - 48) == Wrap(v * 10 + c - 48)
  {
    var k := WrapOff(v);
    var a := Wrap(v) * 10;
    var j := WrapOff(a);
    var b := Wrap(a) + c;
    var i := WrapOff(b);
    assert Wrap(b) - 48 == (v * 10 + c - 48) + (10 * k + j + i) * TWO_64;
    WrapMultiple(v * 10 + c - 48, 10 * k + j + i);
  }

  // ---------- atoi ----------

  /** Every string of digits gives its value, wrapped around; any other string is an error. */
  method Atoi(str: string) returns (r: Conversion)
    ensures r == if AllDigits(str) then Number(Wrap(Decimal(str))) else Invalid
  {
    var n := 0;
    for i := 0 to |str|
      invariant AllDigits(str[..i]) && n == Wrap(Decimal(str[..i]))
    {
      var chr := str[i];
      if chr < '0' || chr > '9' {
        assert !IsDigit(str[i]);
        return Invalid;
      }
      WrapStep(Decimal(str[..i]), chr as int);
      assert str[..i + 1][..i] == str[..i];
      n := Wrap(Wrap(Wrap(n * 10) + chr as int) - 48);
    }
    assert str[..|str|] == str;
    r := Number(n);
  }

  // ---------- itoa ----------

  /** The character for a remainder; `byte` keeps the low eight bits. */
  function DigitChar(d: int): char { ((d + 48) % 256) as char }

  /** The characters of the loop of itoa, for the number `num`. */
  function Digits(num: int): string
    decreases if num < 0 then -num else num
  {
    if num == 0 then "" else Digits(TruncDiv(num, 10)) + [DigitChar(TruncMod(num, 10))]
  }

  function Itoa(num: int): string
  {
    if num == 0 then "0" else if num < 0 then "-" + Digits(Wrap(-num)) else Digits(num)
  }

  function Abs(n: int): nat { if n < 0 then -n else n }

  lemma Shrinks(n: int)
    requires n != 0
    ensures Abs(TruncDiv(n, 10)) < Abs(n)
  {
  }

  /** One more character in front of those already there. */
  lemma DigitsStep(n: int, s: string)
    requires n != 0
    ensures Digits(n) + s == Digits(TruncDiv(n, 10)) + ([DigitChar(TruncMod(n, 10))] + s)
  {
    hide TruncDiv, TruncMod, DigitChar;
    assert Digits(n) == Digits(TruncDiv(n, 10)) + [DigitChar(TruncMod(n, 10))];
  }

  method ItoaLoop(num: int) returns (s: string)
    requires -TWO_63 <= num < TWO_63
    ensures s == Itoa(num)
  {
    hide TruncDiv, TruncMod, DigitChar, Wrap;
    s := "";
    if num == 0 { return "0"; }
    var isNeg, n := false, num;
    if n < 0 {
      isNeg := true;
      n := Wrap(-n);
    }
    ghost var start := n;
    while n != 0
      invariant Digits(start) == Digits(n) + s
      decreases Abs(n)
    {
      DigitsStep(n, s);
      Shrinks(n);
      var digit := TruncMod(n, 10);
      var b := DigitChar(digit);
      s := [b] + s;
      n := TruncDiv(n, 10);
    }
    if isNeg { s := "-" + s; }
  }

  // ---------- round trips ----------

  lemma OneDigit(d: int)
    requires 0 <= d < 10
    ensures IsDigit(DigitChar(d)) && DigitValue(DigitChar(d)) == d
  {
  }

  lemma DecimalMore(s: string, c: char)
    ensures Decimal(s + [c]) == Decimal(s) * 10 + DigitValue(c)
    ensures AllDigits(s) && IsDigit(c) ==> AllDigits(s + [c])
  {
    assert (s + [c])[..|s|] == s;
  }

  lemma {:induction false} DigitsDenote(n: int)
    requires n >= 0
    ensures AllDigits(Digits(n)) && Decimal(Digits(n)) == n
    decreases n
  {
    if n > 0 {
      hide Decimal, DigitChar, AllDigits;
      assert TruncDiv(n, 10) == n / 10 && TruncMod(n, 10) == n % 10;
      DigitsDenote(n / 10);
      OneDigit(n % 10);
      DecimalMore(Digits(n / 10), DigitChar(n % 10));
    }
  }

  /** atoi undoes itoa exactly for the numbers that are not negative. */
  lemma RoundTrip(n: int)
    requires -TWO_63 <= n < TWO_63
    ensures n >= 0 ==> AllDigits(Itoa(n)) && Wrap(Decimal(Itoa(n))) == n
    ensures n < 0 ==> !AllDigits(Itoa(n))
  {
    if n == 0 {
      assert "0"[..0] == "";
    } else if n > 0 {
      DigitsDenote(n);
      WrapSmall(n);
    } else {
      assert Itoa(n)[0] == '-';
    }
  }

  /** Negative numbers but the least have a sign and the digits of their absolute value. */
  lemma NegativeItoa(n: int)
    requires -TWO_63 < n < 0
    ensures Itoa(n) == "-" + Itoa(-n)
  {
    WrapSmall(-n);
  }

  /** The least number has no absolute value; its last character is not even a digit. */
  lemma LeastItoa()
    ensures var s := Itoa(-TWO_63); s[|s| - 1] == '(' && !IsDigit(s[|s| - 1])
  {
    assert Wrap(TWO_63) == -TWO_63;
    assert TruncMod(-TWO_63, 10) == -8;
  }

  /** The decimal digits of a number that is not negative. */
  function Decimals(n: nat): string { if n == 0 then "0" else Digits(n) }

  /** itoa writes the sign and the digits of the absolute value, for every number but the
      least and for that one not. */
  lemma ItoaExact(n: int)
    requires -TWO_63 <= n < TWO_63
    ensures AllDigits(Decimals(Abs(n))) && Decimal(Decimals(Abs(n))) == Abs(n)
    ensures Itoa(n) == (if n < 0 then "-" else "") + Decimals(Abs(n)) <==> n != -TWO_63
  {
    DigitsDenote(Abs(n));
    if n == 0 { assert "0"[..0] == ""; }
    if n < 0 {
      if n == -TWO_63 {
        LeastItoa();
        var d := "-" + Decimals(Abs(n));
        assert d[|d| - 1] == Decimals(Abs(n))[|Decimals(Abs(n))| - 1];
      } else {
        NegativeItoa(n);
      }
    }
  }

  method ThereAndBack(n: int) returns (r: Conversion)
    requires -TWO_63 <= n < TWO_63
    ensures r == if n >= 0 then Number(n) else Invalid
  {
    var s := ItoaLoop(n);
    r := Atoi(s);
    RoundTrip(n);
  }
}
