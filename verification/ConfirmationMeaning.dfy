/** The forms that the confirmation protocol accepts, letter by letter, and what every preview and every reply is
    answered. */
module ConfirmationMeaning {
  import opened Wrappers
  import opened CanonicalJson
  import opened PayloadGraph
  import opened PayloadTrees
  import opened Confirmation
  import Reply = ConfirmationReply
  import Strings

  // --------------------------------------------------------------------------- forms

  predicate Hex(s: string) {
    forall i :: 0 <= i < |s| ==> '0' <= s[i] <= '9' || 'a' <= s[i] <= 'f' || 'A' <= s[i] <= 'F'
  }

  /** Five groups of hexadecimal digits, the third beginning with the version, the fourth with the variant. */
  predicate UuidForm(s: string) {
    && |s| == 36 && s[8] == '-' && s[13] == '-' && s[18] == '-' && s[23] == '-'
    && Hex(s[..8]) && Hex(s[9..13]) && Hex(s[14..18]) && Hex(s[19..23]) && Hex(s[24..])
    && '1' <= s[14] <= '5' && s[19] in {'8', '9', 'a', 'b', 'A', 'B'}
  }

  lemma {:induction false} HexDigitIff(c: char)
    ensures Reply.HexDigit(c) <==> '0' <= c <= '9' || 'a' <= c <= 'f' || 'A' <= c <= 'F'
  {
  }

  lemma {:induction false} HexGroup(s: string, i: nat, j: nat)
    requires i <= j <= |s|
    ensures Hex(s[i..j]) <==> forall k :: i <= k < j ==> Reply.HexDigit(s[k])
  {
    forall k | i <= k < j ensures s[k] == s[i..j][k - i] { HexDigitIff(s[k]); }
    forall k | 0 <= k < j - i ensures s[i..j][k] == s[i + k] { HexDigitIff(s[i + k]); }
  }

  lemma {:induction false} UuidIff(s: string)
    ensures Reply.Uuid(s) <==> UuidForm(s)
  {
    if |s| == 36 {
      HexGroup(s, 0, 8);
      HexGroup(s, 9, 13);
      HexGroup(s, 14, 18);
      HexGroup(s, 19, 23);
      HexGroup(s, 24, 36);
      assert s[..8] == s[0..8] && s[24..] == s[24..36];
    }
  }

  predicate Letter(c: char) { 'a' <= c <= 'z' || 'A' <= c <= 'Z' }

  /** Up to a hundred letters, digits, hyphens and underscores, the first a letter or digit. */
  predicate CompanyForm(s: string) {
    && 0 < |s| < 101 && s[0] != '_' && s[0] != '-'
    && forall i :: 0 <= i < |s| ==> Letter(s[i]) || '0' <= s[i] <= '9' || s[i] == '_' || s[i] == '-'
  }

  /** Up to a hundred small letters, digits, dots, hyphens and underscores, the first a letter. */
  predicate KindForm(s: string) {
    && 0 < |s| < 101 && Letter(s[0])
    && forall i :: 0 <= i < |s| ==>
         (Letter(s[i]) && s[i] >= 'a') || '0' <= s[i] <= '9' || s[i] == '_' || s[i] == '-' || s[i] == '.'
  }

  lemma {:induction false} NamesIff(s: string)
    ensures CompanyId(s) <==> CompanyForm(s)
    ensures MutationKind(s) <==> KindForm(s)
  {
  }

  /** The two verbs, each letter in either case. */
  predicate Either(c: char, small: char, capital: char) { c == small || c == capital }

  lemma {:induction false} LowerIs(v: string, w: string)
    ensures Reply.Lower(v) == w <==> |v| == |w| && forall i :: 0 <= i < |v| ==> Reply.LowerChar(v[i]) == w[i]
  {
  }

  lemma {:induction false} EitherCase(c: char, small: char, capital: char)
    requires ('a' <= small <= 'z' && small as int == capital as int + 32)
             || (small == '\U{e1}' && capital == '\U{c1}') || (small == '\U{1ead}' && capital == '\U{1eac}')
    ensures Reply.LowerChar(c) == small <==> Either(c, small, capital)
  {
  }

  lemma {:induction false} ConfirmIff(v: string)
    ensures Reply.Lower(v) == Reply.CONFIRM <==>
            |v| == 7 && Either(v[0], 'c', 'C') && Either(v[1], 'o', 'O') && Either(v[2], 'n', 'N')
            && Either(v[3], 'f', 'F') && Either(v[4], 'i', 'I') && Either(v[5], 'r', 'R') && Either(v[6], 'm', 'M')
  {
    LowerIs(v, Reply.CONFIRM);
    if |v| == 7 {
      EitherCase(v[0], 'c', 'C');
      EitherCase(v[1], 'o', 'O');
      EitherCase(v[2], 'n', 'N');
      EitherCase(v[3], 'f', 'F');
      EitherCase(v[4], 'i', 'I');
      EitherCase(v[5], 'r', 'R');
      EitherCase(v[6], 'm', 'M');
    }
  }

  lemma {:induction false} XacIff(v: string)
    ensures Reply.Lower(v) == Reply.XAC <==>
            |v| == 3 && Either(v[0], 'x', 'X') && Either(v[1], '\U{e1}', '\U{c1}') && Either(v[2], 'c', 'C')
  {
    LowerIs(v, Reply.XAC);
    if |v| == 3 {
      EitherCase(v[0], 'x', 'X');
      EitherCase(v[1], '\U{e1}', '\U{c1}');
      EitherCase(v[2], 'c', 'C');
    }
  }

  lemma {:induction false} NhanIff(v: string)
    ensures Reply.Lower(v) == Reply.NHAN <==>
            |v| == 4 && Either(v[0], 'n', 'N') && Either(v[1], 'h', 'H') && Either(v[2], '\U{1ead}', '\U{1eac}')
            && Either(v[3], 'n', 'N')
  {
    LowerIs(v, Reply.NHAN);
    if |v| == 4 {
      EitherCase(v[0], 'n', 'N');
      EitherCase(v[1], 'h', 'H');
      EitherCase(v[2], '\U{1ead}', '\U{1eac}');
      EitherCase(v[3], 'n', 'N');
    }
  }

  // ------------------------------------------------------------------------- answers

  predicate Identified(c: Context) { UuidForm(c.user) && UuidForm(c.conversation) && CompanyForm(c.company) }

  lemma {:induction false} IdentifiedIff(c: Context)
    ensures ValidContext(c) <==> Identified(c)
  {
    UuidIff(c.user);
    UuidIff(c.conversation);
    NamesIff(c.company);
  }

  /** An instant that a JavaScript Date can hold. */
  predicate IsDate(ms: int) { -100_000_000 * 86_400_000 <= ms <= 100_000_000 * 86_400_000 }

  /** Nothing is wrong with a preview. */
  ghost predicate Previewable(k: Setting, r: Request)
    requires r.Preview? && ValidRequest(r)
  {
    && Identified(r.context) && KindForm(r.kind) && IsDate(r.now) && IsDate(r.now + k.ttl)
    && CanonicalPayload(r.heap, r.targets).Ok? && CanonicalPayload(r.heap, r.payload).Ok?
  }

  /** A preview is prompted for exactly when nothing is wrong with it and it could be stored, under the id and until
      the time that the prompt names. */
  lemma {:induction false} PromptedIff(k: Setting, rows: Table, r: Request)
    requires r.Preview? && ValidRequest(r)
    ensures var a := PreviewAnswer(k, rows, r);
            && (a.Prompted? <==> Previewable(k, r) && r.stored && r.newId !in rows)
            && (a.Prompted? ==> a.id == r.newId && a.kind == r.kind && a.expiresAt == r.now + k.ttl)
  {
    IdentifiedIff(r.context);
    NamesIff(r.kind);
  }

  /** The failures of the others, the first check that fails deciding. */
  lemma {:induction false} PreviewFailsWith(k: Setting, rows: Table, r: Request)
    requires r.Preview? && ValidRequest(r)
    ensures var a := PreviewAnswer(k, rows, r);
            var data := CanonicalPayload(r.heap, r.targets).Ok? && CanonicalPayload(r.heap, r.payload).Ok?;
            var clock := IsDate(r.now) && IsDate(r.now + k.ttl);
            && (a == Failed(ContextInvalid) <==> !Identified(r.context))
            && ((exists why :: a == Failed(PayloadInvalid(why))) <==> Identified(r.context) && !data)
            && (a == Failed(ClockInvalid) <==> Identified(r.context) && data && !clock)
            && (a == Failed(KindInvalid) <==> Identified(r.context) && data && clock && !KindForm(r.kind))
            && (a == Failed(StorageFailed) <==> Previewable(k, r) && !(r.stored && r.newId !in rows))
  {
    IdentifiedIff(r.context);
    NamesIff(r.kind);
  }

  /** The row is open to the actor: his, of this kind, not yet used, and not expired. */
  predicate OpenTo(row: Row, c: Context, kind: string, now: int) {
    && row.context.user == Reply.Lower(c.user) && row.context.company == c.company
    && row.context.conversation == Reply.Lower(c.conversation) && row.kind == kind
    && !row.consumed && now < row.expiresAt
  }

  /** A reply is answered with nothing exactly when it is no confirmation or no open row is meant, and else uses up
      the one row it means. */
  lemma {:induction false} ReplyAnswers(k: Setting, rows: Table, r: Request)
    requires r.Confirm?
    ensures var (after, a) := Step(k, rows, r);
            var well := Identified(r.context) && KindForm(r.kind);
            var open := r.reply.Some? && r.reply.value in rows
                        && OpenTo(rows[r.reply.value], r.context, r.kind, r.dbNow);
            && (a == Nothing <==> r.reply.None? || (well && !open))
            && (a == Failed(ContextInvalid) <==> r.reply.Some? && !Identified(r.context))
            && (a == Failed(KindInvalid) <==> r.reply.Some? && Identified(r.context) && !KindForm(r.kind))
            && (well && open ==> after == rows[r.reply.value := rows[r.reply.value].(consumed := true)])
            && (!(well && open) ==> after == rows)
  {
    IdentifiedIff(r.context);
    NamesIff(r.kind);
  }
}
