/** `ILIKE … ESCAPE '\'` (section 9.7.1 of the PostgreSQL manual) and the pattern the query
    compiler builds for a `contains` filter. */
module Like {

  predicate Special(c: char) { c == '\\' || c == '%' || c == '_' }

  /** Pattern matching with `%` for any sequence, `_` for any one character and backslash as
      the escape.  A pattern ending in a lone escape, which the database refuses, matches nothing. */
  predicate Matches(p: string, s: string)
    decreases |p| + |s|
  {
    if p == "" then s == ""
    else if p[0] == '\\' then |p| >= 2 && s != "" && s[0] == p[1] && Matches(p[2..], s[1..])
    else if p[0] == '%' then Matches(p[1..], s) || (s != "" && Matches(p, s[1..]))
    else if p[0] == '_' then s != "" && Matches(p[1..], s[1..])
    else s != "" && s[0] == p[0] && Matches(p[1..], s[1..])
  }

  /** Case folding character by character; the database folds text and pattern alike. */
  function Fold(lower: char -> char, s: string): (r: string)
    ensures |r| == |s| && forall i :: 0 <= i < |s| ==> r[i] == lower(s[i])
  {
    seq(|s|, i requires 0 <= i < |s| => lower(s[i]))
  }

  predicate ILike(lower: char -> char, p: string, s: string) {
    Matches(Fold(lower, p), Fold(lower, s))
  }

  /** Folding neither touches nor produces a pattern character. */
  ghost predicate SafeFold(lower: char -> char) {
    forall c :: Special(c) || Special(lower(c)) ==> lower(c) == c
  }

  /** `value.replace(/[\\%_]/g, '\\$&')`: a backslash before every pattern character. */
  function Escape(v: string): string {
    if v == "" then ""
    else Literal(v[0]) + Escape(v[1..])
  }

  function ContainsPattern(v: string): string {
    "%" + Escape(v) + "%"
  }

  /** v occurs in s: some suffix of s starts with it. */
  ghost predicate Contains(s: string, v: string) {
    exists i :: 0 <= i <= |s| && v <= s[i..]
  }

  function Literal(c: char): string { if Special(c) then ['\\', c] else [c] }

  lemma {:induction false} LiteralMatchesItself(c: char, rest: string, s: string)
    ensures Matches(Literal(c) + rest, s) <==> s != "" && s[0] == c && Matches(rest, s[1..])
  {
    var p := Literal(c) + rest;
    assert p[|Literal(c)|..] == rest;
  }

  /** An escaped value matches itself and nothing else: what follows it in the pattern must
      match what follows it in the text. */
  lemma {:induction false} EscapeMatchesLiterally(v: string, rest: string, s: string)
    ensures Matches(Escape(v) + rest, s) <==> v <= s && Matches(rest, s[|v|..])
    decreases |v|
  {
    if v == "" {
      assert Escape(v) + rest == rest && s[0..] == s;
    } else {
      assert Escape(v) + rest == Literal(v[0]) + (Escape(v[1..]) + rest);
      LiteralMatchesItself(v[0], Escape(v[1..]) + rest, s);
      if s != "" {
        EscapeMatchesLiterally(v[1..], rest, s[1..]);
        PrefixOfCons(v, s);
      }
    }
  }

  lemma {:induction false} PrefixOfCons(v: string, s: string)
    requires v != "" && s != ""
    ensures v <= s <==> v[0] == s[0] && v[1..] <= s[1..]
    ensures v <= s ==> s[|v|..] == s[1..][|v[1..]|..]
  {
    assert s == [s[0]] + s[1..] && v == [v[0]] + v[1..];
  }

  lemma {:induction false} PercentMatchesAll(s: string)
    ensures Matches("%", s)
  {
    if s != "" { PercentMatchesAll(s[1..]); } else { assert Matches("%"[1..], s); }
  }

  ghost predicate MatchesSomeSuffix(p: string, s: string) {
    exists i :: 0 <= i <= |s| && Matches(p, s[i..])
  }

  lemma {:induction false} SuffixesOfCons(p: string, s: string)
    requires s != ""
    ensures MatchesSomeSuffix(p, s) <==> Matches(p, s) || MatchesSomeSuffix(p, s[1..])
  {
    assert s[0..] == s;
    if i :| 0 <= i <= |s| && Matches(p, s[i..]) {
      if i > 0 { assert s[1..][i - 1..] == s[i..]; }
    }
    if i :| 0 <= i <= |s[1..]| && Matches(p, s[1..][i..]) {
      assert s[1..][i..] == s[i + 1..];
    }
  }

  /** A leading `%` tries every suffix of the text. */
  lemma {:induction false} PercentTriesSuffixes(p: string, s: string)
    requires p != "" && p[0] == '%'
    ensures Matches(p, s) <==> MatchesSomeSuffix(p[1..], s)
  {
    if s == "" {
      assert s[0..] == s;
    } else {
      PercentTriesSuffixes(p, s[1..]);
      SuffixesOfCons(p[1..], s);
    }
  }

  /** A leading `_` takes any one character. */
  lemma {:induction false} UnderscoreTakesOne(p: string, s: string)
    requires p != "" && p[0] == '_'
    ensures Matches(p, s) <==> |s| > 0 && Matches(p[1..], s[1..])
  {
  }

  /** The pattern of a `contains` filter finds exactly the texts that contain the value. */
  lemma {:induction false} ContainsPatternMatches(v: string, s: string)
    ensures Matches(ContainsPattern(v), s) <==> Contains(s, v)
  {
    var p := ContainsPattern(v);
    assert p[1..] == Escape(v) + "%";
    PercentTriesSuffixes(p, s);
    forall i | 0 <= i <= |s|
      ensures Matches(p[1..], s[i..]) <==> v <= s[i..]
    {
      EscapeMatchesLiterally(v, "%", s[i..]);
      if v <= s[i..] { PercentMatchesAll(s[i..][|v|..]); }
    }
  }

  lemma {:induction false} FoldConcatenates(lower: char -> char, s: string, t: string)
    ensures Fold(lower, s + t) == Fold(lower, s) + Fold(lower, t)
  {
  }

  lemma {:induction false} FoldOfLiteral(lower: char -> char, c: char)
    requires SafeFold(lower)
    ensures Fold(lower, Literal(c)) == Literal(lower(c))
  {
    assert Special('\\');
    assert Special(c) || Special(lower(c)) ==> lower(c) == c;
  }

  lemma {:induction false} FoldOfEscape(lower: char -> char, v: string)
    requires SafeFold(lower)
    ensures Fold(lower, Escape(v)) == Escape(Fold(lower, v))
  {
    if v != "" {
      var rest := Escape(v[1..]);
      FoldOfEscape(lower, v[1..]);
      FoldConcatenates(lower, Literal(v[0]), rest);
      FoldOfLiteral(lower, v[0]);
      assert Fold(lower, v)[0] == lower(v[0]) && Fold(lower, v)[1..] == Fold(lower, v[1..]);
    }
  }

  /** Whatever `%`, `_` and backslash the value holds, the compiled ILIKE test holds exactly
      of the texts that contain the value up to case. */
  lemma {:induction false} ContainsIsCaseInsensitiveSubstring(lower: char -> char, v: string, s: string)
    requires SafeFold(lower)
    ensures ILike(lower, ContainsPattern(v), s) <==> Contains(Fold(lower, s), Fold(lower, v))
  {
    FoldOfEscape(lower, v);
    assert Special('%');
    assert Fold(lower, ContainsPattern(v)) == ContainsPattern(Fold(lower, v));
    ContainsPatternMatches(Fold(lower, v), Fold(lower, s));
  }
}
