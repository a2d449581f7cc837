/** White space, the order of JavaScript strings, and natural numbers as text. */
module Strings {
  /** White space: what `trim` removes and `\s` matches. */
  predicate Blank(c: char) {
    c == ' ' || '\t' <= c <= '\r' || c == '\U{00A0}' || c == '\U{FEFF}' || c == '\U{1680}'
    || '\U{2000}' <= c <= '\U{200A}' || c == '\U{2028}' || c == '\U{2029}' || c == '\U{202F}' || c == '\U{205F}'
    || c == '\U{3000}'
  }

  /** WhiteSpace and LineTerminator of sections 12.2 and 12.3 of ECMA-262, by code. */
  lemma {:induction false} BlankIff(c: char)
    ensures Blank(c) <==>
            var n := c as int;
            || n == 0x09 || n == 0x0B || n == 0x0C || n == 0x20 || n == 0xA0 || n == 0xFEFF
            || n == 0x1680 || 0x2000 <= n <= 0x200A || n == 0x202F || n == 0x205F || n == 0x3000
            || n == 0x0A || n == 0x0D || n == 0x2028 || n == 0x2029
  {
  }

  predicate AllBlank(s: string) {
    forall i :: 0 <= i < |s| ==> Blank(s[i])
  }

  /** Relational `<` on JavaScript strings. */
  predicate Less(s: string, t: string)
    decreases |s|
  {
    t != "" && (s == "" || s[0] < t[0] || (s[0] == t[0] && Less(s[1..], t[1..])))
  }

  lemma {:induction false} LessFromDifference(s: string, t: string, i: nat)
    requires i < |s| && i < |t| && s[..i] == t[..i] && s[i] != t[i]
    ensures Less(s, t) <==> s[i] < t[i]
  {
    if i > 0 {
      assert s[0] == s[..i][0] == t[..i][0] == t[0];
      assert s[1..][..i - 1] == s[..i][1..] == t[..i][1..] == t[1..][..i - 1];
      LessFromDifference(s[1..], t[1..], i - 1);
    }
  }

  /** It is a strict total order. */
  lemma {:induction false} LessIsStrictTotalOrder(a: string, b: string, c: string)
    ensures !Less(a, a)
    ensures Less(a, b) && Less(b, c) ==> Less(a, c)
    ensures Less(a, b) || a == b || Less(b, a)
    decreases |a|
  {
    if a != "" { LessIsStrictTotalOrder(a[1..], if b != "" then b[1..] else "", if c != "" then c[1..] else ""); }
    if a != "" && b != "" && a[0] == b[0] { assert a == [a[0]] + a[1..] && b == [b[0]] + b[1..]; }
  }

  lemma {:induction false} FirstDifference(s: string, t: string, from: nat) returns (i: nat)
    requires |s| == |t| && s != t && from <= |s| && s[..from] == t[..from]
    ensures i < |s| && s[..i] == t[..i] && s[i] != t[i]
    decreases |s| - from
  {
    assert from < |s| by { assert s[..|s|] == s && t[..|t|] == t; }
    if s[from] != t[from] {
      i := from;
    } else {
      assert s[..from + 1] == s[..from] + [s[from]] && t[..from + 1] == t[..from] + [t[from]];
      i := FirstDifference(s, t, from + 1);
    }
  }

  function Decimal(n: nat): string {
    (if n < 10 then "" else Decimal(n / 10)) + ['0' + (n % 10) as char]
  }

  lemma {:induction false} DecimalInjective(m: nat, n: nat)
    requires Decimal(m) == Decimal(n)
    ensures m == n
  {
    var s, t := Decimal(m), Decimal(n);
    assert s[|s| - 1] == '0' + (m % 10) as char && t[|t| - 1] == '0' + (n % 10) as char;
    DecimalPrefix(m);
    DecimalPrefix(n);
    if m >= 10 && n >= 10 { DecimalInjective(m / 10, n / 10); }
  }

  lemma {:induction false} DecimalPrefix(n: nat)
    ensures Decimal(n)[..|Decimal(n)| - 1] == if n < 10 then "" else Decimal(n / 10)
    ensures n >= 10 ==> |Decimal(n)| > 1
  {
  }

  /** What a text of digits stands for. */
  function NumberOf(s: string): nat
    requires forall i :: 0 <= i < |s| ==> '0' <= s[i] <= '9'
  {
    if s == "" then 0 else 10 * NumberOf(s[..|s| - 1]) + (s[|s| - 1] - '0') as nat
  }

  /** `Decimal` writes a number in digits that stand for it, without leading zeros. */
  lemma {:induction false} DecimalReadsBack(n: nat)
    ensures forall i :: 0 <= i < |Decimal(n)| ==> '0' <= Decimal(n)[i] <= '9'
    ensures NumberOf(Decimal(n)) == n && (n > 0 ==> Decimal(n)[0] != '0')
  {
    var s := Decimal(n);
    if n >= 10 {
      DecimalReadsBack(n / 10);
      assert s[..|s| - 1] == Decimal(n / 10);
    }
  }
}
