/** White space, and trimming it off both ends of a text. */
module Whitespace {
  import opened Common

  /** White space as the script language's `trim` sees it. */
  predicate IsScriptSpace(c: char) {
    var n := c as int;
    (9 <= n <= 13) || n == 32 || n == 0xA0 || n == 0x1680 || (0x2000 <= n <= 0x200A) ||
    n == 0x2028 || n == 0x2029 || n == 0x202F || n == 0x205F || n == 0x3000 || n == 0xFEFF
  }

  /** White space as the server's `trim` sees it: the Unicode property. */
  predicate IsUnicodeSpace(c: char) {
    (IsScriptSpace(c) && c as int != 0xFEFF) || c as int == 0x85
  }

  function TrimStart(s: string, space: char -> bool): string {
    if s != "" && space(s[0]) then TrimStart(s[1..], space) else s
  }

  function TrimEnd(s: string, space: char -> bool): string {
    if s != "" && space(Last(s)) then TrimEnd(Front(s), space) else s
  }

  function Trim(s: string, space: char -> bool): string {
    TrimEnd(TrimStart(s, space), space)
  }

  predicate AllOf(s: string, space: char -> bool) {
    forall c :: c in s ==> space(c)
  }

  /** No white space at either end. */
  predicate Bare(s: string, space: char -> bool) {
    s != "" ==> !space(s[0]) && !space(Last(s))
  }

  lemma {:induction false} TrimStartSkips(a: string, s: string, space: char -> bool)
    requires AllOf(a, space)
    ensures TrimStart(a + s, space) == TrimStart(s, space)
  {
    if a == "" {
      assert a + s == s;
    } else {
      assert a[0] in a && (a + s)[1..] == a[1..] + s;
      TrimStartSkips(a[1..], s, space);
    }
  }

  lemma {:induction false} TrimEndSkips(s: string, b: string, space: char -> bool)
    requires AllOf(b, space)
    ensures TrimEnd(s + b, space) == TrimEnd(s, space)
  {
    if b == "" {
      assert s + b == s;
    } else {
      assert Last(b) in b && Last(s + b) == Last(b) && Front(s + b) == s + Front(b);
      TrimEndSkips(s, Front(b), space);
    }
  }

  /** Trimming takes the white space off both ends, all of it and nothing
      else. */
  lemma TrimMeans(a: string, s: string, b: string, space: char -> bool)
    requires AllOf(a, space) && AllOf(b, space) && Bare(s, space)
    ensures Trim(a + s + b, space) == s
  {
    assert a + s + b == a + (s + b);
    TrimStartSkips(a, s + b, space);
    if s == "" {
      assert s + b == b && b + "" == b;
      TrimStartSkips(b, "", space);
    } else {
      assert (s + b)[0] == s[0];
      TrimEndSkips(s, b, space);
    }
  }
}
