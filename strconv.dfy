/** Decimal integer text, as Go's `strconv.Atoi` reads it and `strconv.Itoa`
    writes it. Integers are unbounded: Atoi's range error is not modelled. */
module Strconv {
  import opened Errors

  predicate IsDigit(ch: char)
  {
    '0' <= ch <= '9'
  }

  predicate AllDigits(s: string)
  {
    forall i | 0 <= i < |s| :: IsDigit(s[i])
  }

  predicate HasSign(s: string)
  {
    |s| > 0 && (s[0] == '+' || s[0] == '-')
  }

  /** The text `Atoi` accepts: an optional `+` or `-`, then one or more ASCII digits. */
  predicate IsDecimal(s: string)
  {
    var digits := if HasSign(s) then s[1..] else s;
    |digits| > 0 && AllDigits(digits)
  }

  function DigitValue(ch: char): (d: nat)
    requires IsDigit(ch)
    ensures d < 10
  {
    ch as int - '0' as int
  }

  function DigitChar(d: nat): (ch: char)
    requires d < 10
    ensures IsDigit(ch) && DigitValue(ch) == d
  {
    ('0' as int + d) as char
  }

  /** The value of a run of digits, most significant first. */
  function DigitsValue(ds: string): nat
    requires AllDigits(ds)
  {
    if ds == [] then 0 else DigitsValue(ds[..|ds| - 1]) * 10 + DigitValue(ds[|ds| - 1])
  }

  /** `strconv.Atoi`: a syntax error comes with the value 0. */
  function Atoi(s: string): (r: Returns<int>)
    ensures r.err.None? <==> IsDecimal(s)
    ensures r.err.Some? ==> r == Returns(0, Some(Syntax(s)))
    ensures r.err.None? && s[0] == '-' ==> r.value <= 0
    ensures r.err.None? && s[0] != '-' ==> r.value >= 0
  {
    if !IsDecimal(s) then Returns(0, Some(Syntax(s)))
    else if HasSign(s) then
      var n: int := DigitsValue(s[1..]);
      Returns(if s[0] == '-' then -n else n, None)
    else Returns(DigitsValue(s), None)
  }

  /** The shortest decimal rendering of a natural number: no sign, and no
      leading zero except for 0 itself. */
  function NatDigits(n: nat): (s: string)
    ensures |s| > 0 && AllDigits(s)
    ensures s[0] == '0' <==> n == 0
  {
    if n < 10 then [DigitChar(n)] else NatDigits(n / 10) + [DigitChar(n % 10)]
  }

  /** `strconv.Itoa`. */
  function Itoa(n: int): (s: string)
    ensures IsDecimal(s)
    ensures HasSign(s) <==> n < 0
  {
    if n < 0 then "-" + NatDigits(-n) else NatDigits(n)
  }

  lemma {:induction false} NatDigitsValue(n: nat)
    ensures DigitsValue(NatDigits(n)) == n
  {
    if n >= 10 {
      var s := NatDigits(n);
      assert s[..|s| - 1] == NatDigits(n / 10);
      NatDigitsValue(n / 10);
    }
  }

  /** Reading back what `Itoa` writes gives the number written. */
  lemma AtoiItoa(n: int)
    ensures Atoi(Itoa(n)) == Returns(n, None)
  {
    var s := Itoa(n);
    if n < 0 {
      assert s[1..] == NatDigits(-n);
      NatDigitsValue(-n);
    } else {
      NatDigitsValue(n);
    }
  }

  /** A leading zero adds nothing to a run of digits. */
  lemma {:induction false} DigitsValueLeadingZero(ds: string)
    requires AllDigits(ds)
    ensures AllDigits("0" + ds) && DigitsValue("0" + ds) == DigitsValue(ds)
  {
    if ds != [] {
      var init := ds[..|ds| - 1];
      assert ("0" + ds)[..|"0" + ds| - 1] == "0" + init;
      DigitsValueLeadingZero(init);
    }
  }

  /** Leading zeros are accepted and ignored: "007" reads as 7. */
  lemma AtoiLeadingZero(s: string)
    requires |s| > 0 && AllDigits(s)
    ensures Atoi("0" + s) == Atoi(s)
  {
    DigitsValueLeadingZero(s);
  }

  /** A `+` sign changes nothing: "+5" reads as 5. */
  lemma AtoiPlus(s: string)
    requires |s| > 0 && AllDigits(s)
    ensures Atoi("+" + s) == Atoi(s)
  {
  }

  /** A `-` sign negates: "-5" reads as -5, and "-0" as 0. */
  lemma AtoiMinus(s: string)
    requires |s| > 0 && AllDigits(s)
    ensures Atoi("-" + s) == Returns(-Atoi(s).value, None)
  {
  }
}
