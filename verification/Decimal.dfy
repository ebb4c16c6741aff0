/** Decimal printing of integers (Go's %d verb) and its inverse. */
module Decimal {

  predicate IsDigit(c: char) { '0' <= c <= '9' }

  function DigitChar(d: nat): (c: char)
    requires d < 10
    ensures IsDigit(c) && DigitValue(c) == d
  {
    (48 + d) as char
  }

  function DigitValue(c: char): nat
    requires IsDigit(c)
  {
    c as int - 48
  }

  function PrintNat(n: nat): (s: string)
    ensures s != [] && forall i :: 0 <= i < |s| ==> IsDigit(s[i])
  {
    if n < 10 then [DigitChar(n)] else PrintNat(n / 10) + [DigitChar(n % 10)]
  }

  function Print(n: int): (s: string)
    ensures forall i :: 0 <= i < |s| ==> IsDigit(s[i]) || s[i] == '-'
  {
    if n < 0 then "-" + PrintNat(-n) else PrintNat(n)
  }

  function ParseNat(s: string): nat
    requires forall i :: 0 <= i < |s| ==> IsDigit(s[i])
  {
    if s == [] then 0 else ParseNat(s[..|s| - 1]) * 10 + DigitValue(s[|s| - 1])
  }

  /** Reads back what Print writes; anything else reads as zero. */
  function Parse(s: string): int {
    if s != [] && s[0] == '-' && (forall i :: 1 <= i < |s| ==> IsDigit(s[i])) then var n: int := ParseNat(s[1..]); -n
    else if forall i :: 0 <= i < |s| ==> IsDigit(s[i]) then ParseNat(s)
    else 0
  }

  lemma {:induction false} ParseNatPrintNat(n: nat)
    ensures ParseNat(PrintNat(n)) == n
  {
    var s := PrintNat(n);
    if n < 10 {
      assert s[..0] == [];
    } else {
      assert s[..|s| - 1] == PrintNat(n / 10);
      ParseNatPrintNat(n / 10);
    }
  }

  lemma ParsePrint(n: int)
    ensures Parse(Print(n)) == n
  {
    if n < 0 {
      ParseNatPrintNat(-n);
      assert Print(n)[1..] == PrintNat(-n);
    } else {
      ParseNatPrintNat(n);
      assert IsDigit(Print(n)[0]);
    }
  }

  /** The digits, and where the tens and the sign go. */
  lemma Digits(d: nat)
    requires d < 10
    ensures DigitChar(d) == "0123456789"[d]
    ensures PrintNat(d) == [DigitChar(d)]
    ensures PrintNat(10 + d) == [DigitChar(1), DigitChar(d)]
    ensures Print(-10 - d) == ['-', DigitChar(1), DigitChar(d)]
  {
    hide DigitChar;
    assert PrintNat(1) == [DigitChar(1)];
    assert DigitChar(d) == "0123456789"[d] by { OneDigit(d); }
  }

  lemma OneDigit(d: nat)
    requires d < 10
    ensures DigitChar(d) == "0123456789"[d]
  {
  }
}
