/** Kotlin's decimal conversions between `Int` and `String`. */
module Text {
  import opened Common

  predicate IsDigit(c: char) {
    '0' <= c <= '9'
  }

  predicate AllDigits(s: string) {
    forall i :: 0 <= i < |s| ==> IsDigit(s[i])
  }

  function DigitValue(c: char): nat
    requires IsDigit(c)
  {
    c as int - '0' as int
  }

  function DigitChar(d: nat): (c: char)
    requires d < 10
    ensures IsDigit(c) && DigitValue(c) == d
  {
    ('0' as int + d) as char
  }

  /** The decimal digits of `n`, most significant first, with no leading zero. */
  function Digits(n: nat): (s: string)
    ensures |s| >= 1 && AllDigits(s)
    ensures n >= 10 ==> s[0] != '0'
  {
    if n < 10 then [DigitChar(n)] else Digits(n / 10) + [DigitChar(n % 10)]
  }

  /** The number a string of decimal digits denotes. */
  function DigitsValue(s: string): nat
    requires AllDigits(s)
  {
    if s == [] then 0 else DigitsValue(s[..|s| - 1]) * 10 + DigitValue(s[|s| - 1])
  }

  /** `Int.toString()`: an optional minus sign followed by the digits of the magnitude. */
  function IntToString(n: int): string {
    if n < 0 then "-" + Digits(-n) else Digits(n)
  }

  /** Decimal text: one or more digits, or a sign followed by one or more digits. */
  predicate IsSignedDecimal(s: string) {
    || (|s| >= 1 && AllDigits(s))
    || (|s| >= 2 && (s[0] == '+' || s[0] == '-') && AllDigits(s[1..]))
  }

  /** The integer decimal text denotes: the digits' value, negated after a minus sign. */
  function SignedDecimalValue(s: string): int
    requires IsSignedDecimal(s)
  {
    if s[0] == '-' then 0 - DigitsValue(s[1..]) as int
    else if s[0] == '+' then DigitsValue(s[1..])
    else DigitsValue(s)
  }

  /**
   * `String.toIntOrNull()`: an optional `+` or `-` followed by at least one
   * decimal digit, denoting a value in the `Int` range; anything else is null.
   */
  function ToIntOrNull(s: string): (r: Option<Int32>)
    ensures r.Some? <==> IsSignedDecimal(s) && INT_MIN <= SignedDecimalValue(s) <= INT_MAX
    ensures r.Some? ==> r.value == SignedDecimalValue(s)
    ensures r.Some? ==> |s| > 0 && (IsDigit(s[0]) || s[0] == '-' || s[0] == '+')
    ensures r.Some? ==> forall i :: 0 < i < |s| ==> IsDigit(s[i])
    ensures |s| == 0 ==> r == None
  {
    if |s| == 0 then None
    else
      var digits := if s[0] == '-' || s[0] == '+' then s[1..] else s;
      if |digits| == 0 || !AllDigits(digits) then None
      else
        var v: int := if s[0] == '-' then 0 - DigitsValue(digits) as int else DigitsValue(digits);
        if INT_MIN <= v <= INT_MAX then Some(v) else None
  }

  lemma {:induction false} DigitsValueOfDigits(n: nat)
    ensures DigitsValue(Digits(n)) == n
  {
    if n >= 10 {
      var s := Digits(n);
      assert s[..|s| - 1] == Digits(n / 10);
      DigitsValueOfDigits(n / 10);
    }
  }

  /** Reading back what `Int.toString()` printed gives the same `Int`. */
  lemma ToIntOrNullOfIntToString(n: Int32)
    ensures ToIntOrNull(IntToString(n)) == Some(n)
  {
    var s := IntToString(n);
    if n < 0 {
      var m: nat := -(n as int);
      assert s[1..] == Digits(m);
      DigitsValueOfDigits(m);
    } else {
      DigitsValueOfDigits(n);
    }
  }

  /**
   * A plus sign and leading zeros are accepted, a lone sign is not, and a
   * value just past the `Int` range is null.
   */
  lemma ToIntOrNullExamples()
    ensures ToIntOrNull("+9000") == Some(9000)
    ensures ToIntOrNull("09000") == Some(9000)
    ensures ToIntOrNull("-") == None
    ensures ToIntOrNull("2147483648") == None
  {
    assert DigitsValue("9000") == 9000 by {
      assert "9000"[..3] == "900" && "900"[..2] == "90" && "90"[..1] == "9" && "9"[..0] == "";
    }
    assert "+9000"[1..] == "9000";
    assert "09000"[..4] == "0900" && "0900"[..3] == "090" && "090"[..2] == "09" && "09"[..1] == "0";
    assert "0"[..0] == "";
    assert DigitsValue("2147483648") == 2147483648 by {
      assert "2147483648"[..9] == "214748364" && "214748364"[..8] == "21474836" && "21474836"[..7] == "2147483";
      assert "2147483"[..6] == "214748" && "214748"[..5] == "21474" && "21474"[..4] == "2147";
      assert "2147"[..3] == "214" && "214"[..2] == "21" && "21"[..1] == "2";
      assert "2"[..0] == "";
    }
  }
}
