/** The human reply that confirms a pending change: an affirmative verb and the confirmation id. */
module ConfirmationReply {
  import opened Wrappers
  import opened Strings

  /** Case folding of the letters that occur in the two verbs and in hexadecimal digits. */
  function LowerChar(c: char): char {
    if 'A' <= c <= 'Z' then c + ' ' else if c == '\U{c1}' then '\U{e1}' else if c == '\U{1eac}' then '\U{1ead}' else c
  }

  function Lower(s: string): (r: string)
    ensures |r| == |s|
  {
    seq(|s|, i requires 0 <= i < |s| => LowerChar(s[i]))
  }

  predicate HexDigit(c: char) { '0' <= c <= '9' || 'a' <= LowerChar(c) <= 'f' }

  /** `xxxxxxxx-xxxx-Vxxx-Nxxx-xxxxxxxxxxxx` with version V in 1-5 and variant N in 8, 9, a, b. */
  predicate Uuid(s: string) {
    && |s| == 36
    && (forall i :: 0 <= i < 36 ==> if i in {8, 13, 18, 23} then s[i] == '-' else HexDigit(s[i]))
    && '1' <= s[14] <= '5'
    && (s[19] == '8' || s[19] == '9' || LowerChar(s[19]) == 'a' || LowerChar(s[19]) == 'b')
  }

  const CONFIRM := "confirm"
  const XAC := "x\U{e1}c"
  const NHAN := "nh\U{1ead}n"

  predicate StartsWith(t: string, word: string) {
    |word| <= |t| && Lower(t[..|word|]) == word
  }

  function SkipSpaces(t: string): string {
    if t != "" && Blank(t[0]) then SkipSpaces(t[1..]) else t
  }

  function AfterVerb(t: string): Option<string> {
    if StartsWith(t, CONFIRM) then Some(t[|CONFIRM|..])
    else if StartsWith(t, XAC) && |t| > |XAC| && Blank(t[|XAC|]) && StartsWith(SkipSpaces(t[|XAC|..]), NHAN)
    then Some(SkipSpaces(t[|XAC|..])[|NHAN|..])
    else None
  }

  /** `parseExplicitConfirmation`: one pass over the reply. */
  function Parse(text: string): Option<string> {
    match AfterVerb(SkipSpaces(text))
    case None => None
    case Some(u) =>
      if u == "" || !Blank(u[0]) then None else
      var w := SkipSpaces(u);
      if |w| < 36 || !Uuid(w[..36]) then None else
      var e := SkipSpaces(w[36..]);
      var f := if e != "" && (e[0] == '.' || e[0] == '!') then e[1..] else e;
      if SkipSpaces(f) == "" then Some(Lower(w[..36])) else None
  }

  predicate Verb(v: string) {
    || Lower(v) == CONFIRM
    || (|v| > 7 && Lower(v[..3]) == XAC && AllBlank(v[3..|v| - 4]) && Lower(v[|v| - 4..]) == NHAN)
  }

  /** The reply has the form: spaces, verb, spaces, id, spaces, an optional mark, spaces. */
  predicate Form(text: string, a: string, verb: string, b: string, u: string, c: string, mark: string, d: string) {
    && text == a + (verb + (b + (u + (c + (mark + d)))))
    && AllBlank(a) && Verb(verb) && b != "" && AllBlank(b) && Uuid(u) && AllBlank(c)
    && (mark == "" || mark == "." || mark == "!") && AllBlank(d)
  }

  lemma {:induction false} SkipsExactly(s: string, t: string)
    requires AllBlank(s) && (t == "" || !Blank(t[0]))
    ensures SkipSpaces(s + t) == t
  {
    if s == "" {
      assert s + t == t;
    } else {
      assert (s + t)[0] == s[0] && (s + t)[1..] == s[1..] + t;
      SkipsExactly(s[1..], t);
    }
  }

  lemma {:induction false} SkipSplits(t: string) returns (s: string)
    ensures AllBlank(s) && t == s + SkipSpaces(t) && (SkipSpaces(t) == "" || !Blank(SkipSpaces(t)[0]))
    ensures t != "" && Blank(t[0]) ==> s != ""
  {
    if t != "" && Blank(t[0]) {
      var s' := SkipSplits(t[1..]);
      s := [t[0]] + s';
    } else {
      s := "";
    }
  }

  lemma {:induction false} WordIsNotSpace(v: string)
    ensures v != "" && Lower(v) in {CONFIRM, XAC, NHAN} ==> !Blank(v[0])
    ensures Verb(v) ==> v != "" && !Blank(v[0])
    ensures Uuid(v) ==> !Blank(v[0])
  {
    if Verb(v) && Lower(v) != CONFIRM { assert Lower(v[..3])[0] == LowerChar(v[0]); }
    if v != "" { assert Lower(v)[0] == LowerChar(v[0]); }
  }

  lemma {:induction false} VerbIsRead(v: string, t: string)
    requires Verb(v) && t != "" && Blank(t[0])
    ensures AfterVerb(v + t) == Some(t)
  {
    var w := v + t;
    if Lower(v) == CONFIRM {
      assert |v| == 7 && w[..7] == v && w[7..] == t;
    } else {
      var mid, last := v[3..|v| - 4], v[|v| - 4..];
      assert w[..3] == v[..3];
      assert Lower(w[..3])[0] == 'x';
      assert !StartsWith(w, CONFIRM) by { if |w| >= 7 { assert Lower(w[..7])[0] == LowerChar(w[0]); } }
      assert w[3..] == mid + (last + t);
      WordIsNotSpace(last);
      SkipsExactly(mid, last + t);
      assert (last + t)[..4] == last && (last + t)[4..] == t;
      MiddleIsSpace(v);
    }
  }

  lemma {:induction false} MiddleIsSpace(v: string)
    requires |v| > 7 && AllBlank(v[3..|v| - 4])
    ensures Blank(v[3])
  {
    assert v[3..|v| - 4][0] == v[3];
  }

  lemma {:induction false} VerbWasRead(t: string) returns (v: string)
    requires AfterVerb(t).Some?
    ensures Verb(v) && t == v + AfterVerb(t).value
  {
    if StartsWith(t, CONFIRM) {
      v := t[..7];
    } else {
      var mid := SkipSplits(t[3..]);
      var rest := SkipSpaces(t[3..]);
      v := t[..3] + mid + rest[..4];
      assert t == t[..3] + (mid + rest);
      assert v[..3] == t[..3] && v[3..|v| - 4] == mid && v[|v| - 4..] == rest[..4];
    }
  }

  lemma {:induction false} ParseAccepts(text: string, a: string, verb: string, b: string, u: string, c: string,
          mark: string, d: string)
    requires Form(text, a, verb, b, u, c, mark, d)
    ensures Parse(text) == Some(Lower(u))
  {
    var e := mark + d;
    var w := u + (c + e);
    WordIsNotSpace(verb);
    WordIsNotSpace(u);
    SkipsExactly(a, verb + (b + w));
    VerbIsRead(verb, b + w);
    SkipsExactly(b, w);
    assert w[..36] == u && w[36..] == c + e;
    if mark == "" {
      assert c + e == (c + d) + "";
      SkipsExactly(c + d, "");
      assert SkipSpaces("") == "";
    } else {
      SkipsExactly(c, e);
      assert e[0] == mark[0] && e[1..] == d + "";
      SkipsExactly(d, "");
    }
  }

  lemma {:induction false} ParseRejects(text: string)
    returns (a: string, verb: string, b: string, u: string, c: string, mark: string, d: string)
    requires Parse(text).Some?
    ensures Form(text, a, verb, b, u, c, mark, d) && Parse(text) == Some(Lower(u))
  {
    a := SkipSplits(text);
    verb := VerbWasRead(SkipSpaces(text));
    var rest := AfterVerb(SkipSpaces(text)).value;
    b := SkipSplits(rest);
    var w := SkipSpaces(rest);
    u := w[..36];
    c := SkipSplits(w[36..]);
    var e := SkipSpaces(w[36..]);
    mark := if e != "" && (e[0] == '.' || e[0] == '!') then [e[0]] else "";
    d := SkipSplits(e[|mark|..]);
    assert d == e[|mark|..];
    assert e == mark + d && w == u + (c + e);
  }

  /** A reply confirms exactly when it consists of the verb and the id, whatever the case and the
      spacing, with nothing else around them; the id comes back in lower case. */
  lemma {:induction false} ConfirmsOnlyByVerbAndId(text: string, id: string)
    ensures Parse(text) == Some(id) <==>
            exists a, verb, b, u, c, mark, d :: Form(text, a, verb, b, u, c, mark, d) && id == Lower(u)
  {
    if Parse(text) == Some(id) {
      var a, verb, b, u, c, mark, d := ParseRejects(text);
    }
    if a, verb, b, u, c, mark, d :| Form(text, a, verb, b, u, c, mark, d) && id == Lower(u) {
      ParseAccepts(text, a, verb, b, u, c, mark, d);
    }
  }
}
