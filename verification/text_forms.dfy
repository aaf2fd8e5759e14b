/** The two pieces of Java's text handling the validator relies on: the
    `toString` form of a raw value, and `Integer.parseInt`, which accepts an
    optional sign followed by decimal digits whose value fits in 32 bits. */
module TextForms {
  import opened Results
  import opened PropertyValues

  const IntMin: int := -0x8000_0000
  const IntMax: int := 0x7FFF_FFFF

  predicate IsDigit(c: char) {
    '0' <= c <= '9'
  }

  predicate AllDigits(s: string) {
    forall i :: 0 <= i < |s| ==> IsDigit(s[i])
  }

  function DigitChar(d: nat): (c: char)
    requires d < 10
    ensures IsDigit(c)
  {
    ('0' as int + d) as char
  }

  /** The value of a digit string read most significant digit first. */
  function DigitsValue(s: string): nat
    requires AllDigits(s)
  {
    if |s| == 0 then 0
    else DigitsValue(s[..|s| - 1]) * 10 + (s[|s| - 1] as int - '0' as int)
  }

  /** Decimal digits of a natural number, without leading zeros. */
  function NatToString(n: nat): (s: string)
    ensures |s| > 0 && AllDigits(s)
    decreases n
  {
    if n < 10 then [DigitChar(n)] else NatToString(n / 10) + [DigitChar(n % 10)]
  }

  /** `Integer.toString` / `Long.toString`: a minus sign for negatives. */
  function IntToString(n: int): (s: string)
    ensures |s| > 0
  {
    if n < 0 then "-" + NatToString(-n) else NatToString(n)
  }

  /** `Integer.parseInt`: an optional '+' or '-', then at least one decimal
      digit, and the signed value must lie in the 32-bit range. */
  function ParseInt(s: string): (r: Option<int>)
    ensures r.Some? ==> IntMin <= r.value <= IntMax
    ensures r.Some? ==> |s| > 0
    ensures r.Some? ==> forall i :: 0 <= i < |s| ==> IsDigit(s[i]) || (i == 0 && (s[0] == '-' || s[0] == '+'))
    ensures r.Some? && s[0] == '-' ==> r.value <= 0
    ensures r.Some? && s[0] != '-' ==> r.value >= 0
  {
    if |s| == 0 then None
    else
      var negative := s[0] == '-';
      var digits := if s[0] == '-' || s[0] == '+' then s[1..] else s;
      if |digits| == 0 || !AllDigits(digits) then None
      else
        var magnitude: int := DigitsValue(digits);
        var v := if negative then -magnitude else magnitude;
        if IntMin <= v <= IntMax then Some(v) else None
  }

  /** `toString` of a raw value: decimal for numbers, the text itself for
      other scalars, and "[a, b, c]" for lists. */
  function Show(r: Raw): (s: string)
    ensures r.List? ==> |s| > 0 && s[0] == '['
    ensures r.Number? ==> ParseInt(s) == (if IntMin <= r.n <= IntMax then Some(r.n) else None)
    decreases r, 1
  {
    match r
    case Number(n) => ParseIntOfIntToString(n); IntToString(n)
    case Scalar(text) => text
    case List(items) => "[" + ShowItems(items) + "]"
  }

  /** The elements' `toString` forms separated by ", ". */
  function ShowItems(items: seq<Raw>): string
    decreases items, 0
  {
    if |items| == 0 then ""
    else if |items| == 1 then Show(items[0])
    else Show(items[0]) + ", " + ShowItems(items[1..])
  }

  lemma {:induction false} DigitsValueOfNatToString(n: nat)
    ensures DigitsValue(NatToString(n)) == n
    decreases n
  {
    var s := NatToString(n);
    if n < 10 {
    } else {
      var prefix := NatToString(n / 10);
      assert s == prefix + [DigitChar(n % 10)];
      assert s[..|s| - 1] == prefix;
      DigitsValueOfNatToString(n / 10);
    }
  }

  /** Round trip: parsing the decimal form of any integer gives it back
      exactly when it fits in 32 bits, and fails otherwise. */
  lemma ParseIntOfIntToString(n: int)
    ensures ParseInt(IntToString(n)) == (if IntMin <= n <= IntMax then Some(n) else None)
  {
    var s := IntToString(n);
    if n < 0 {
      DigitsValueOfNatToString(-n);
      assert s[1..] == NatToString(-n);
    } else {
      DigitsValueOfNatToString(n);
      assert s[0] != '-' && s[0] != '+';
    }
  }

  /** A list's text starts with '[' and so never parses as an integer. */
  lemma ListNeverParses(items: seq<Raw>)
    ensures ParseInt(Show(List(items))).None?
  {
  }
  /** The text `Integer.toString` would print: no '+', and no leading zero
      except for zero itself ("-0" is not canonical). */
  predicate Canonical(s: string) {
    && |s| > 0
    && s[0] != '+'
    && var digits := if s[0] == '-' then s[1..] else s;
       && |digits| > 0 && AllDigits(digits)
       && (digits[0] != '0' || s == "0")
  }

  /** A digit string with a non-zero leading digit has a positive value. */
  lemma {:induction false} LeadingDigitPositive(d: string)
    requires |d| > 0 && AllDigits(d) && d[0] != '0'
    ensures DigitsValue(d) > 0
    decreases |d|
  {
    if |d| > 1 {
      LeadingDigitPositive(d[..|d| - 1]);
    }
  }

  /** Printing the value of a digit string without superfluous leading zeros
      gives that digit string back. */
  lemma {:induction false} NatToStringOfDigitsValue(d: string)
    requires |d| > 0 && AllDigits(d) && (d[0] != '0' || |d| == 1)
    ensures NatToString(DigitsValue(d)) == d
    decreases |d|
  {
    if |d| > 1 {
      var prefix := d[..|d| - 1];
      var last := d[|d| - 1] as int - '0' as int;
      LeadingDigitPositive(prefix);
      NatToStringOfDigitsValue(prefix);
      var n := DigitsValue(d);
      assert n / 10 == DigitsValue(prefix) && n % 10 == last;
      assert DigitChar(last) == d[|d| - 1];
      assert d == prefix + [d[|d| - 1]];
    }
  }

  /** Round trip in the other direction: canonical text that parses is
      printed back exactly, so `ParseInt` and `IntToString` are inverse
      bijections between canonical texts and the 32-bit integers. */
  lemma ShowOfParseInt(s: string)
    requires Canonical(s)
    ensures ParseInt(s).Some? ==> IntToString(ParseInt(s).value) == s
  {
    if s[0] == '-' {
      var digits := s[1..];
      LeadingDigitPositive(digits);
      NatToStringOfDigitsValue(digits);
      assert s == "-" + digits;
    } else {
      NatToStringOfDigitsValue(s);
    }
  }

  /** Every integer prints as canonical text. */
  lemma IntToStringIsCanonical(n: int)
    ensures Canonical(IntToString(n))
  {
    var s := IntToString(n);
    if n < 0 {
      assert s[1..] == NatToString(-n);
      NatToStringLeading(-n);
    } else {
      NatToStringLeading(n);
    }
  }

  /** Only zero prints with a leading '0'. */
  lemma {:induction false} NatToStringLeading(n: nat)
    ensures NatToString(n)[0] == '0' <==> n == 0
    ensures n == 0 ==> NatToString(n) == "0"
    decreases n
  {
    if n >= 10 {
      NatToStringLeading(n / 10);
      assert NatToString(n)[0] == NatToString(n / 10)[0];
    }
  }
}
