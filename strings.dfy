/**
  String helpers for the parts of Ruby's String and Array API that the
  checkers and offenses use: `start_with?`, `end_with?`, substring search,
  `chomp`, `Array#join` and `Integer#to_s`.
 */
module Strings {
  import Sequences

  predicate IsPrefix(p: string, s: string) {
    |p| <= |s| && s[..|p|] == p
  }

  predicate IsSuffix(p: string, s: string) {
    |p| <= |s| && s[|s| - |p|..] == p
  }

  /** `p` occurs in `s` starting at index `i`. */
  predicate OccursAt(p: string, s: string, i: int) {
    0 <= i <= |s| - |p| && s[i..i + |p|] == p
  }

  /** `s.include?(p)` for strings: `p` occurs somewhere in `s`. */
  predicate IsInfix(p: string, s: string) {
    exists i | 0 <= i <= |s| - |p| :: OccursAt(p, s, i)
  }

  lemma InfixOfConcat(a: string, p: string, b: string)
    ensures IsInfix(p, a + p + b)
  {
    var s := a + p + b;
    assert s[|a|..|a| + |p|] == p;
    assert OccursAt(p, s, |a|);
  }

  lemma InfixStart(p: string, b: string)
    ensures IsInfix(p, p + b)
  {
    assert (p + b)[0..|p|] == p;
    assert OccursAt(p, p + b, 0);
  }

  lemma InfixGrowsLeft(p: string, a: string, s: string)
    requires IsInfix(p, s)
    ensures IsInfix(p, a + s)
  {
    var i :| 0 <= i <= |s| - |p| && OccursAt(p, s, i);
    assert s[i..i + |p|] == p;
    assert (a + s)[|a| + i..|a| + i + |p|] == p;
    assert OccursAt(p, a + s, |a| + i);
  }

  lemma InfixGrowsRight(p: string, s: string, b: string)
    requires IsInfix(p, s)
    ensures IsInfix(p, s + b)
  {
    var i :| 0 <= i <= |s| - |p| && OccursAt(p, s, i);
    assert s[i..i + |p|] == p;
    assert (s + b)[i..i + |p|] == p;
    assert OccursAt(p, s + b, i);
  }

  lemma InfixOfPrefix(p: string, h: string, s: string)
    requires IsInfix(p, h) && IsPrefix(h, s)
    ensures IsInfix(p, s)
  {
    assert s == h + s[|h|..];
    InfixGrowsRight(p, h, s[|h|..]);
  }

  lemma InfixOfInfix(p: string, h: string, s: string)
    requires IsInfix(p, h) && IsInfix(h, s)
    ensures IsInfix(p, s)
  {
    var i :| 0 <= i <= |s| - |h| && OccursAt(h, s, i);
    assert s == s[..i] + h + s[i + |h|..];
    InfixGrowsLeft(p, s[..i], h);
    InfixGrowsRight(p, s[..i] + h, s[i + |h|..]);
  }

  lemma PrefixOfConcat(a: string, b: string, c: string)
    ensures IsPrefix(a, a + b + c)
  {
    assert (a + b + c)[..|a|] == a;
  }

  lemma SuffixOfConcat(a: string, b: string)
    ensures IsSuffix(b, a + b)
  {
    assert (a + b)[|a + b| - |b|..] == b;
  }

  lemma LastOfConcat(a: string, b: string)
    requires |b| > 0
    ensures (a + b)[|a + b| - 1] == b[|b| - 1]
  {
  }

  /** How the pieces of a four-part concatenation sit in the whole. */
  lemma FourPieces(a: string, b: string, c: string, d: string)
    ensures IsPrefix(a, a + b + c + d)
    ensures IsInfix(c, a + b + c + d)
    ensures IsSuffix(d, a + b + c + d)
  {
    var s := a + b + c + d;
    assert s[..|a|] == a;
    InfixOfConcat(a + b, c, d);
    assert s == (a + b) + c + d;
    assert s[|s| - |d|..] == d;
  }

  /**
    Ruby's `String#chomp` without an argument: removes one trailing "\r\n",
    or else one trailing "\n" or "\r".
   */
  function Chomp(s: string): (r: string)
    ensures IsPrefix(r, s) && |s| - 2 <= |r| <= |s|
    ensures |r| < |s| <==> |s| > 0 && (s[|s| - 1] == '\n' || s[|s| - 1] == '\r')
  {
    if |s| >= 2 && s[|s| - 2..] == "\r\n" then s[..|s| - 2]
    else if |s| >= 1 && (s[|s| - 1] == '\n' || s[|s| - 1] == '\r') then s[..|s| - 1]
    else s
  }

  /** Chomping a heredoc's final newline gives back the text before it. */
  lemma ChompLine(t: string)
    requires t == [] || t[|t| - 1] != '\r'
    ensures Chomp(t + "\n") == t
  {
    var s := t + "\n";
    if |s| >= 2 {
      assert s[|s| - 2] == t[|t| - 1];
    }
    assert s[..|s| - 1] == t;
  }

  /**
    A heredoc of four parts with its final newline chomped: the text itself,
    so its first part is a prefix, its third an infix and its last a suffix.
   */
  function ChompedHeredoc(a: string, b: string, c: string, d: string): (m: string)
    requires |d| > 0 && d[|d| - 1] != '\r'
    ensures m == a + b + c + d
    ensures IsPrefix(a, m) && IsInfix(c, m) && IsSuffix(d, m)
    ensures m[|m| - 1] == d[|d| - 1]
  {
    FourPieces(a, b, c, d);
    LastOfConcat(a + b + c, d);
    ChompLine(a + b + c + d);
    Chomp(a + b + c + d + "\n")
  }

  /** Ruby's `Array#join(sep)` over strings. */
  function Join(xs: seq<string>, sep: string): (r: string)
    ensures xs == [] ==> r == ""
  {
    if |xs| == 0 then ""
    else if |xs| == 1 then xs[0]
    else xs[0] + sep + Join(xs[1..], sep)
  }

  /** Every joined element appears in the joined string. */
  lemma {:induction false} JoinContains(xs: seq<string>, sep: string, k: nat)
    requires k < |xs|
    ensures IsInfix(xs[k], Join(xs, sep))
  {
    var x := xs[k];
    if |xs| == 1 {
      assert Join(xs, sep) == x + "";
      InfixStart(x, "");
    } else if k == 0 {
      var rest := Join(xs[1..], sep);
      Sequences.ConcatAssociative(x, sep, rest);
      InfixStart(x, sep + rest);
    } else {
      var rest := Join(xs[1..], sep);
      assert xs[1..][k - 1] == x;
      JoinContains(xs[1..], sep, k - 1);
      InfixGrowsLeft(x, xs[0] + sep, rest);
    }
  }

  predicate IsDigits(s: string) {
    forall i :: 0 <= i < |s| ==> '0' <= s[i] <= '9'
  }

  function DigitChar(d: nat): (c: char)
    requires d < 10
    ensures '0' <= c <= '9' && c as int - '0' as int == d
  {
    (d + '0' as int) as char
  }

  /** Ruby's `Integer#to_s` for a non-negative integer: its decimal digits. */
  function NatToString(n: nat): (r: string)
    ensures |r| > 0 && IsDigits(r)
    ensures n < 10 <==> |r| == 1
  {
    if n < 10 then [DigitChar(n)] else NatToString(n / 10) + [DigitChar(n % 10)]
  }

  /** Reads a string of decimal digits back as a number. */
  function ParseNat(s: string): (n: nat)
    requires IsDigits(s)
  {
    if s == [] then 0
    else ParseNat(s[..|s| - 1]) * 10 + (s[|s| - 1] as int - '0' as int)
  }

  lemma {:induction false} ParseNatToString(n: nat)
    ensures ParseNat(NatToString(n)) == n
  {
    var s := NatToString(n);
    if n >= 10 {
      ParseNatToString(n / 10);
      assert s[..|s| - 1] == NatToString(n / 10);
    }
  }

  /** Different numbers print differently. */
  lemma NatToStringInjective(m: nat, n: nat)
    requires NatToString(m) == NatToString(n)
    ensures m == n
  {
    ParseNatToString(m);
    ParseNatToString(n);
  }
}
