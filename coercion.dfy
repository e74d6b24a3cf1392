/** Raw field values and the `Number(x) || 0` coercion used by the total.
    A quantity or unit price starts out as a number (the default record) and,
    once the user edits it, holds the raw text of the input box. */
module Coercion {

  /** A quantity or price as stored in the record: a number, or raw input text. */
  datatype Raw = Num(value: int) | Text(text: string)

  predicate IsDigit(c: char) {
    '0' <= c <= '9'
  }

  predicate AllDigits(s: string) {
    forall i :: 0 <= i < |s| ==> IsDigit(s[i])
  }

  /** Text that `Number` reads as an integer: an optional sign and at least one decimal digit. */
  predicate IntegerText(s: string) {
    if |s| > 0 && (s[0] == '-' || s[0] == '+') then |s| > 1 && AllDigits(s[1..])
    else |s| > 0 && AllDigits(s)
  }

  function DigitValue(c: char): (d: nat)
    requires IsDigit(c)
    ensures d < 10
  {
    (c - '0') as nat
  }

  /** The value of a string of decimal digits, most significant digit first. */
  function DigitsValue(s: string): (n: nat)
    requires AllDigits(s)
  {
    if s == [] then 0 else DigitsValue(s[..|s| - 1]) * 10 + DigitValue(s[|s| - 1])
  }

  /** `Number(x) || 0`: a number stays itself; text is parsed, and empty or
      non-numeric text counts as 0. */
  function Coerce(x: Raw): (n: int)
    ensures x.Num? ==> n == x.value
    ensures x.Text? && !IntegerText(x.text) ==> n == 0
    ensures x.Text? && IntegerText(x.text) && x.text[0] == '-' ==> n <= 0
    ensures x.Text? && IntegerText(x.text) && x.text[0] != '-' ==> n >= 0
  {
    match x
    case Num(v) => v
    case Text(s) =>
      if !IntegerText(s) then 0
      else if s[0] == '-' then -(DigitsValue(s[1..]) as int)
      else if s[0] == '+' then DigitsValue(s[1..])
      else DigitsValue(s)
  }

  function DigitChar(d: nat): (c: char)
    requires d < 10
    ensures IsDigit(c) && DigitValue(c) == d
  {
    ('0' as int + d) as char
  }

  /** The decimal text of a natural number, as a number input shows it. */
  function NatText(n: nat): (s: string)
    ensures |s| > 0 && AllDigits(s)
  {
    if n < 10 then [DigitChar(n)] else NatText(n / 10) + [DigitChar(n % 10)]
  }

  /** The decimal text of an integer: a minus sign for negatives, no sign otherwise. */
  function DecimalText(n: int): (s: string)
    ensures IntegerText(s)
  {
    if n < 0 then "-" + NatText(-n) else NatText(n)
  }

  lemma {:induction false} NatTextValue(n: nat)
    ensures DigitsValue(NatText(n)) == n
  {
    var s := NatText(n);
    if n >= 10 {
      NatTextValue(n / 10);
      assert s[..|s| - 1] == NatText(n / 10);
    }
  }

  /** Typing the decimal text of any integer into a quantity or price box
      makes the total count exactly that integer. */
  lemma CoerceDecimalText(n: int)
    ensures Coerce(Text(DecimalText(n))) == n
  {
    var s := DecimalText(n);
    if n < 0 {
      assert s[1..] == NatText(-n);
      NatTextValue(-n);
    } else {
      assert IsDigit(s[0]);
      NatTextValue(n);
    }
  }

  /** Leading zeros do not change the value of a digit string. */
  lemma {:induction false} DigitsLeadingZero(s: string)
    requires AllDigits(s)
    ensures AllDigits("0" + s)
    ensures DigitsValue("0" + s) == DigitsValue(s)
  {
    var t := "0" + s;
    if s != [] {
      assert t[..|t| - 1] == "0" + s[..|s| - 1];
      assert t[|t| - 1] == s[|s| - 1];
      DigitsLeadingZero(s[..|s| - 1]);
    }
  }

  /** A run of `z` zero digits. */
  function Zeros(z: nat): (s: string)
    ensures |s| == z && AllDigits(s)
  {
    if z == 0 then "" else "0" + Zeros(z - 1)
  }

  /** Any number of leading zeros, as a number input may return ("007"),
      leaves the value unchanged. */
  lemma {:induction false} CoerceLeadingZeros(z: nat, s: string)
    requires |s| > 0 && AllDigits(s)
    ensures Coerce(Text(Zeros(z) + s)) == Coerce(Text(s))
    decreases z
  {
    if z > 0 {
      CoerceLeadingZeros(z - 1, s);
      assert Zeros(z) + s == "0" + (Zeros(z - 1) + s);
      DigitsLeadingZero(Zeros(z - 1) + s);
      CoerceDigits(Zeros(z - 1) + s);
      CoerceDigits(Zeros(z) + s);
    } else {
      assert Zeros(z) + s == s;
    }
  }

  /** Unsigned digit text counts as its positional value. */
  lemma CoerceDigits(s: string)
    requires |s| > 0 && AllDigits(s)
    ensures Coerce(Text(s)) == DigitsValue(s)
  {
    assert IsDigit(s[0]);
  }

  /** A `+` sign leaves the value of digit text alone and a `-` sign negates
      it; in particular "-0" counts as 0. */
  lemma CoerceSigned(s: string)
    requires |s| > 0 && AllDigits(s)
    ensures Coerce(Text("+" + s)) == Coerce(Text(s))
    ensures Coerce(Text("-" + s)) == -Coerce(Text(s))
  {
    assert ("+" + s)[1..] == s;
    assert ("-" + s)[1..] == s;
    CoerceDigits(s);
  }

  /** Blank input, as left behind when a box is cleared, counts as 0. */
  lemma CoerceBlank()
    ensures Coerce(Text("")) == 0
    ensures Coerce(Num(0)) == 0
  {
  }
}
