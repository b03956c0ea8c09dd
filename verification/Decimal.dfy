/** Unsigned decimal numbers as the standard library of the source language
    prints and parses them. */
module Decimal {
  import opened Common

  function Digit(d: nat): char
    requires d < 10
  {
    "0123456789"[d]
  }

  predicate IsDigit(c: char) {
    '0' <= c <= '9'
  }

  function Print(n: nat): (s: string)
    ensures s != [] && forall c :: c in s ==> IsDigit(c)
  {
    if n < 10 then [Digit(n)] else Print(n / 10) + [Digit(n % 10)]
  }

  function ValueOf(s: string): nat
    requires forall c :: c in s ==> IsDigit(c)
  {
    if s == "" then 0
    else
      assert IsDigit(Last(s)) by { assert Last(s) in s; }
      assert forall c :: c in Front(s) ==> c in s;
      10 * ValueOf(Front(s)) + (Last(s) as int - '0' as int)
  }

  /** One optional plus sign, at least one digit, nothing else, and no value
      above `max`. */
  function Parse(s: string, max: nat): Option<nat> {
    var digits := if s != "" && s[0] == '+' then s[1..] else s;
    if digits == "" || (exists c :: c in digits && !IsDigit(c)) then None
    else if ValueOf(digits) > max then None
    else Some(ValueOf(digits))
  }

  lemma {:induction false} ValueOfPrint(n: nat)
    ensures ValueOf(Print(n)) == n
  {
    if n >= 10 {
      ValueOfPrint(n / 10);
      assert Front(Print(n)) == Print(n / 10);
    }
  }

  lemma ParseUndoesPrint(n: nat, max: nat)
    requires n <= max
    ensures Parse(Print(n), max) == Some(n)
  {
    ValueOfPrint(n);
    var s := Print(n);
    assert s[0] in s;
  }

  lemma {:induction false} LeadingZero(s: string)
    requires forall c :: c in s ==> IsDigit(c)
    ensures ValueOf("0" + s) == ValueOf(s)
  {
    if s == "" {
      assert "0" + s == "0" && Front("0") == "";
    } else {
      assert Front("0" + s) == "0" + Front(s) && Last("0" + s) == Last(s);
      assert forall c :: c in Front(s) ==> c in s;
      LeadingZero(Front(s));
    }
  }

  /** A plus sign and leading zeros make no difference; a number that is too
      large is refused, and so are the empty text, a lone sign, and any text
      with a character that is no digit, apart from that sign. */
  lemma ParseForms(n: nat, max: nat, s: string)
    ensures Parse("+" + Print(n), max) == Parse("0" + Print(n), max) == Parse(Print(n), max) ==
      (if n <= max then Some(n) else None)
    ensures Parse("", max) == None && Parse("+", max) == None
    ensures (exists i :: 1 <= i < |s| && !IsDigit(s[i])) ==> Parse(s, max) == None
    ensures s != "" && s[0] != '+' && !IsDigit(s[0]) ==> Parse(s, max) == None
  {
    ValueOfPrint(n);
    LeadingZero(Print(n));
    var p := Print(n);
    assert p[0] in p;
    assert ("+" + p)[1..] == p && "+"[1..] == "";
    assert ("0" + p)[0] == '0' && forall c :: c in "0" + p ==> c == '0' || c in p;
    if i :| 1 <= i < |s| && !IsDigit(s[i]) {
      assert s[1..][i - 1] == s[i] && s[i] in s && s[i] in s[1..];
    }
    if s != "" {
      assert s[0] in s;
    }
  }
}
