/** String facts the app relies on: Python's substring test `sub in s` and
    the decimal rendering an f-string gives an integer. */
module Text {

  /** Python's `sub in s` for strings: `sub` occurs as a contiguous slice of `s`. */
  predicate Contains(s: string, sub: string) {
    exists i | 0 <= i <= |s| :: OccursAt(s, sub, i)
  }

  /** `sub` starts at position `i` of `s`. */
  predicate OccursAt(s: string, sub: string, i: int) {
    0 <= i <= |s| - |sub| && s[i..i + |sub|] == sub
  }

  /** A string occurs in any string that has it as an infix. */
  lemma ContainsInfix(pre: string, sub: string, post: string)
    ensures Contains(pre + sub + post, sub)
  {
    var s := pre + sub + post;
    assert s[|pre|..|pre| + |sub|] == sub;
    assert OccursAt(s, sub, |pre|);
  }

  /** An occurrence survives text added on either side. */
  lemma ContainsWiden(pre: string, s: string, post: string, sub: string)
    requires Contains(s, sub)
    ensures Contains(pre + s + post, sub)
  {
    var i :| 0 <= i <= |s| && OccursAt(s, sub, i);
    assert s[i..i + |sub|] == sub;
    var t := pre + s + post;
    assert t[|pre| + i..|pre| + i + |sub|] == s[i..i + |sub|];
    assert OccursAt(t, sub, |pre| + i);
  }

  /** `sub` occurs in `s` at the start of a line: at position 0 or right after a newline. */
  predicate ContainsLine(s: string, sub: string) {
    exists i | 0 <= i <= |s| :: OccursAt(s, sub, i) && (i == 0 || s[i - 1] == '\n')
  }

  lemma LineInfix(pre: string, sub: string, post: string)
    requires pre == [] || pre[|pre| - 1] == '\n'
    ensures ContainsLine(pre + sub + post, sub)
  {
    var s := pre + sub + post;
    assert s[|pre|..|pre| + |sub|] == sub;
    assert OccursAt(s, sub, |pre|);
  }

  /** A line-start occurrence survives text appended after it. */
  lemma LineWidenRight(s: string, post: string, sub: string)
    requires ContainsLine(s, sub)
    ensures ContainsLine(s + post, sub)
  {
    var i :| 0 <= i <= |s| && OccursAt(s, sub, i) && (i == 0 || s[i - 1] == '\n');
    assert s[i..i + |sub|] == sub;
    var t := s + post;
    assert t[i..i + |sub|] == s[i..i + |sub|];
    assert OccursAt(t, sub, i);
  }

  /** A line-start occurrence survives text put before it that ends a line. */
  lemma LineWidenLeft(pre: string, s: string, sub: string)
    requires ContainsLine(s, sub)
    requires pre == [] || pre[|pre| - 1] == '\n'
    ensures ContainsLine(pre + s, sub)
  {
    var i :| 0 <= i <= |s| && OccursAt(s, sub, i) && (i == 0 || s[i - 1] == '\n');
    assert s[i..i + |sub|] == sub;
    var t := pre + s;
    assert t[|pre| + i..|pre| + i + |sub|] == s[i..i + |sub|];
    assert OccursAt(t, sub, |pre| + i);
  }

  /** The pieces of an f-string, joined in order. */
  function Concat(parts: seq<string>): string {
    if parts == [] then "" else Concat(parts[..|parts| - 1]) + parts[|parts| - 1]
  }

  /** Every piece occurs in the joined string. */
  lemma {:induction false} ConcatContains(parts: seq<string>, k: nat)
    requires k < |parts|
    ensures Contains(Concat(parts), parts[k])
    decreases |parts|
  {
    var init, last := parts[..|parts| - 1], parts[|parts| - 1];
    assert Concat(parts) == Concat(init) + last;
    if k == |parts| - 1 {
      assert Concat(parts) == Concat(init) + last + "";
      ContainsInfix(Concat(init), last, "");
    } else {
      assert init[k] == parts[k];
      ConcatContains(init, k);
      assert Concat(parts) == "" + Concat(init) + last;
      ContainsWiden("", Concat(init), last, parts[k]);
    }
  }

  predicate IsDigit(c: char) {
    '0' <= c <= '9'
  }

  predicate AllDigits(s: string) {
    forall i :: 0 <= i < |s| ==> IsDigit(s[i])
  }

  function DigitChar(d: nat): (c: char)
    requires d < 10
    ensures IsDigit(c)
  {
    ('0' as int + d) as char
  }

  function DigitValue(c: char): (d: nat)
    requires IsDigit(c)
    ensures d < 10 && DigitChar(d) == c
  {
    c as int - '0' as int
  }

  /** `str(n)` for a non-negative Python int: its shortest decimal numeral. */
  function NatToString(n: nat): (s: string)
    ensures |s| > 0 && AllDigits(s)
    ensures |s| > 1 ==> s[0] != '0'
    decreases n
  {
    if n < 10 then [DigitChar(n)] else NatToString(n / 10) + [DigitChar(n % 10)]
  }

  /** The value of a decimal numeral, read most significant digit first. */
  function ParseNat(s: string): nat
    requires AllDigits(s)
  {
    if s == [] then 0 else ParseNat(s[..|s| - 1]) * 10 + DigitValue(s[|s| - 1])
  }

  /** Rendering a natural number loses nothing: reading the numeral back gives it. */
  lemma {:induction false} ParseNatToString(n: nat)
    ensures ParseNat(NatToString(n)) == n
  {
    if n >= 10 {
      var s := NatToString(n);
      assert s[..|s| - 1] == NatToString(n / 10);
      ParseNatToString(n / 10);
    }
  }

  /** `str(i)` for any Python int: a minus sign before the numeral of a negative value. */
  function IntToString(i: int): (s: string)
    ensures |s| > 0
    ensures (s[0] == '-') <==> (i < 0)
  {
    if i < 0 then "-" + NatToString(-i) else NatToString(i)
  }

  predicate IsIntLiteral(s: string) {
    if |s| > 0 && s[0] == '-' then AllDigits(s[1..]) else AllDigits(s)
  }

  function ParseInt(s: string): int
    requires IsIntLiteral(s)
  {
    if |s| > 0 && s[0] == '-' then -(ParseNat(s[1..]) as int) else ParseNat(s)
  }

  /** Rendering an integer, sign included, loses nothing. */
  lemma ParseIntToString(i: int)
    ensures IsIntLiteral(IntToString(i))
    ensures ParseInt(IntToString(i)) == i
  {
    if i < 0 {
      assert IntToString(i)[1..] == NatToString(-i);
      ParseNatToString(-i);
    } else {
      ParseNatToString(i);
    }
  }
}
