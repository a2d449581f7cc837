/** The confirmation protocol: a change is previewed, its canonical payload is stored with a digest,
    and one explicit human reply consumes the record and hands the payload to the executor. */
module Confirmation {
  import opened Wrappers
  import opened CanonicalJson
  import opened PayloadGraph
  import opened PayloadTrees
  import Reply = ConfirmationReply

  const MIN_TTL_MS := 60_000
  const MAX_TTL_MS := 30 * 60_000

  datatype Context = Context(user: string, company: string, conversation: string)

  /** The digest of a text, and the arrangement in which the database returns the keys of an object. */
  datatype Setting = Setting(ttl: int, digest: string -> string, arrange: Data -> Data)

  datatype Row = Row(context: Context, kind: string, targets: Data, digest: string, payload: Data, expiresAt: int,
                     consumed: bool)

  type Table = map<string, Row>

  datatype Failure =
    | ContextInvalid | KindInvalid | PayloadInvalid(why: Refusal) | ClockInvalid | StorageFailed | IntegrityFailed

  datatype Response =
    | Prompted(id: string, kind: string, targets: Json, expiresAt: int)
    | Handed(id: string, kind: string, targets: Json, payload: Json, expiresAt: int)
    | Nothing
    | Failed(failure: Failure)

  // ------------------------------------------------------------------- validation

  predicate AlphaNumeric(c: char) { 'A' <= c <= 'Z' || 'a' <= c <= 'z' || '0' <= c <= '9' }

  predicate CompanyId(s: string) {
    && 1 <= |s| <= 100 && AlphaNumeric(s[0])
    && forall i :: 1 <= i < |s| ==> AlphaNumeric(s[i]) || s[i] == '_' || s[i] == '-'
  }

  predicate MutationKind(s: string) {
    && 1 <= |s| <= 100 && 'a' <= s[0] <= 'z'
    && forall i :: 1 <= i < |s| ==>
         'a' <= s[i] <= 'z' || '0' <= s[i] <= '9' || s[i] == '.' || s[i] == '_' || s[i] == '-'
  }

  predicate ValidContext(c: Context) {
    Reply.Uuid(c.user) && Reply.Uuid(c.conversation) && CompanyId(c.company)
  }

  /** The identifiers as the database compares them: UUIDs ignore case. */
  function Bound(c: Context): Context {
    Context(Reply.Lower(c.user), c.company, Reply.Lower(c.conversation))
  }

  /** The instants a JavaScript Date can hold, in milliseconds. */
  predicate DateHolds(t: int) { -8_640_000_000_000_000 <= t <= 8_640_000_000_000_000 }

  // ---------------------------------------------------------------------- requests

  datatype Request =
    | Preview(heap: Heap, context: Context, kind: string, targets: Value, payload: Value, now: int,
              newId: string, stored: bool)          // the id the database drew; whether the insert succeeded
    | Confirm(reply: Option<string>, context: Context, kind: string, dbNow: int)   // the id read off the human reply
    | Rewrite(id: string, newTargets: Data, newPayload: Data)   // storage changes the data of a row by itself

  ghost predicate ValidRequest(r: Request) {
    r.Preview? ==> ValidHeap(r.heap) && ValidValue(r.heap, r.targets) && ValidValue(r.heap, r.payload)
  }

  function NewRow(k: Setting, r: Request): Row
    requires r.Preview? && ValidHeap(r.heap) && ValidValue(r.heap, r.targets) && ValidValue(r.heap, r.payload)
    requires CanonicalPayload(r.heap, r.targets).Ok? && CanonicalPayload(r.heap, r.payload).Ok?
  {
    var c := PayloadData(r.heap, r.payload);
    Row(Bound(r.context), r.kind, k.arrange(PayloadData(r.heap, r.targets)), k.digest(Stringify(c)), k.arrange(c),
        r.now + k.ttl, false)
  }

  function PreviewAnswer(k: Setting, rows: Table, r: Request): (res: Response)
    requires r.Preview? && ValidHeap(r.heap) && ValidValue(r.heap, r.targets) && ValidValue(r.heap, r.payload)
  {
    if !ValidContext(r.context) then Failed(ContextInvalid) else
    match CanonicalPayload(r.heap, r.targets)
    case Err(e) => Failed(PayloadInvalid(e))
    case Ok(_) =>
      match CanonicalPayload(r.heap, r.payload)
      case Err(e) => Failed(PayloadInvalid(e))
      case Ok(_) =>
        if !DateHolds(r.now) || !DateHolds(r.now + k.ttl) then Failed(ClockInvalid)
        else if !MutationKind(r.kind) then Failed(KindInvalid)
        else if !r.stored || r.newId in rows then Failed(StorageFailed)
        else Prompted(r.newId, r.kind, k.arrange(PayloadData(r.heap, r.targets)), r.now + k.ttl)
  }

  /** The row a confirmation matches in the conditional UPDATE, if any. */
  function Matched(rows: Table, id: string, context: Context, kind: string, dbNow: int): Option<Row> {
    if && id in rows && rows[id].context == Bound(context) && rows[id].kind == kind
       && !rows[id].consumed && rows[id].expiresAt > dbNow
    then Some(rows[id]) else None
  }

  function Release(k: Setting, id: string, row: Row): Response {
    match ParsedPayload(row.payload)
    case Err(e) => Failed(PayloadInvalid(e))
    case Ok(c) =>
      if k.digest(Stringify(c)) != row.digest then Failed(IntegrityFailed) else
      match ParsedPayload(row.targets)
      case Err(e) => Failed(PayloadInvalid(e))
      case Ok(t) => Handed(id, row.kind, t, c, row.expiresAt)
  }

  /** What one request does to the table, and its answer. */
  function Step(k: Setting, rows: Table, r: Request): (Table, Response)
    requires r.Preview? ==> ValidHeap(r.heap) && ValidValue(r.heap, r.targets) && ValidValue(r.heap, r.payload)
  {
    match r
    case Preview(_, _, _, _, _, _, newId, _) =>
      var res := PreviewAnswer(k, rows, r);
      (if res.Prompted? then rows[newId := NewRow(k, r)] else rows, res)
    case Confirm(reply, context, kind, dbNow) => (
      match reply
      case None => (rows, Nothing)
      case Some(id) =>
        if !ValidContext(context) then (rows, Failed(ContextInvalid))
        else if !MutationKind(kind) then (rows, Failed(KindInvalid))
        else match Matched(rows, id, context, kind, dbNow)
             case None => (rows, Nothing)
             case Some(row) => (rows[id := row.(consumed := true)], Release(k, id, row)))
    case Rewrite(id, t, p) =>
      (if id in rows then rows[id := rows[id].(targets := t, payload := p)] else rows, Nothing)
  }

  /** A request that passes every check is stored, unless storage refuses. */
  lemma {:induction false} CheckedPreview(k: Setting, rows: Table, r: Request)
    requires r.Preview? && ValidHeap(r.heap) && ValidValue(r.heap, r.targets) && ValidValue(r.heap, r.payload)
    requires ValidContext(r.context) && MutationKind(r.kind) && DateHolds(r.now) && DateHolds(r.now + k.ttl)
    requires CanonicalPayload(r.heap, r.targets).Ok? && CanonicalPayload(r.heap, r.payload).Ok?
    ensures Step(k, rows, r) ==
            if r.stored && r.newId !in rows
            then (rows[r.newId := NewRow(k, r)],
                  Prompted(r.newId, r.kind, k.arrange(PayloadData(r.heap, r.targets)), r.now + k.ttl))
            else (rows, Failed(StorageFailed))
  {
  }

  // ----------------------------------------------------------- repository and service

  class MutationConfirmationRepository {
    var rows: Table
    const setting: Setting

    constructor (setting: Setting)
      ensures rows == map[] && this.setting == setting
    {
      rows := map[];
      this.setting := setting;
    }

    /** INSERT ... RETURNING; a repeated primary key or any other refusal stores nothing. */
    method Create(id: string, row: Row, stored: bool) returns (r: Option<Row>)
      modifies this
      ensures stored && id !in old(rows) ==>
                var kept := row.(targets := setting.arrange(row.targets), payload := setting.arrange(row.payload));
                rows == old(rows)[id := kept] && r == Some(kept)
      ensures !stored || id in old(rows) ==> rows == old(rows) && r == None
    {
      if !stored || id in rows { return None; }
      var kept := row.(targets := setting.arrange(row.targets), payload := setting.arrange(row.payload));
      rows := rows[id := kept];
      return Some(kept);
    }

    /** UPDATE ... SET consumed_at WHERE id, context and kind match, unconsumed and unexpired.
        What is returned can never be matched again. */
    method ConsumeBound(id: string, context: Context, kind: string, dbNow: int) returns (r: Option<Row>)
      modifies this
      ensures r.Some? <==> Matched(old(rows), id, context, kind, dbNow).Some?
      ensures r.Some? ==> r == Some(old(rows)[id].(consumed := true)) && rows == old(rows)[id := r.value]
      ensures r.Some? ==> forall c, n, t :: Matched(rows, id, c, n, t) == None
      ensures r.None? ==> rows == old(rows)
    {
      if id !in rows { return None; }
      var row, owner := rows[id], Bound(context);
      if row.context.user != owner.user || row.context.company != owner.company { return None; }
      if row.context.conversation != owner.conversation || row.kind != kind { return None; }
      if row.consumed || row.expiresAt <= dbNow { return None; }
      row := row.(consumed := true);
      rows := rows[id := row];
      return Some(row);
    }
  }

  class MutationConfirmationService {
    const repository: MutationConfirmationRepository

    constructor (repository: MutationConfirmationRepository)
      requires MIN_TTL_MS <= repository.setting.ttl <= MAX_TTL_MS
      ensures this.repository == repository
    {
      this.repository := repository;
    }

    /** A time to live outside one to thirty minutes is refused. */
    static method Open(repository: MutationConfirmationRepository) returns (r: Option<MutationConfirmationService>)
      ensures r.Some? <==> 60_000 <= repository.setting.ttl <= 1_800_000
      ensures r.Some? ==> fresh(r.value) && r.value.repository == repository
    {
      if repository.setting.ttl < MIN_TTL_MS || repository.setting.ttl > MAX_TTL_MS { return None; }
      var service := new MutationConfirmationService(repository);
      return Some(service);
    }

    method CreatePreview(g: Heap, context: Context, kind: string, targets: Value, payload: Value, now: int,
                         newId: string, stored: bool)
      returns (r: Response)
      requires ValidHeap(g) && ValidValue(g, targets) && ValidValue(g, payload)
      modifies repository
      ensures (repository.rows, r) ==
              Step(repository.setting, old(repository.rows),
                   Preview(g, context, kind, targets, payload, now, newId, stored))
    {
      var k := repository.setting;
      if !ValidContext(context) { return Failed(ContextInvalid); }
      var t := CanonicalPayload(g, targets);
      if t.Err? { return Failed(PayloadInvalid(t.error)); }
      var c := CanonicalPayload(g, payload);
      if c.Err? { return Failed(PayloadInvalid(c.error)); }
      if !DateHolds(now) { return Failed(ClockInvalid); }
      var expiresAt := now + k.ttl;
      if !DateHolds(expiresAt) { return Failed(ClockInvalid); }
      if !MutationKind(kind) { return Failed(KindInvalid); }
      CheckedPreview(k, repository.rows, Preview(g, context, kind, targets, payload, now, newId, stored));
      // the digest is taken of the payload canonicalised once more
      OnceMore(g, payload);
      var targetIds, resolved := PayloadData(g, targets), PayloadData(g, payload);
      var digest := k.digest(Stringify(ParsedPayload(resolved).value));
      var row := Row(Bound(context), kind, targetIds, digest, resolved, expiresAt, false);
      var record := repository.Create(newId, row, stored);
      if record.None? { return Failed(StorageFailed); }
      return Prompted(newId, record.value.kind, record.value.targets, record.value.expiresAt);
    }

    method ConsumeExplicitConfirmation(text: string, context: Context, kind: string, dbNow: int) returns (r: Response)
      modifies repository
      ensures (repository.rows, r) ==
              Step(repository.setting, old(repository.rows), Confirm(Reply.Parse(text), context, kind, dbNow))
    {
      var k := repository.setting;
      var id := Reply.Parse(text);
      if id.None? { return Nothing; }
      if !ValidContext(context) { return Failed(ContextInvalid); }
      if !MutationKind(kind) { return Failed(KindInvalid); }
      var record := repository.ConsumeBound(id.value, context, kind, dbNow);
      if record.None? { return Nothing; }
      var c := ParsedPayload(record.value.payload);
      if c.Err? { return Failed(PayloadInvalid(c.error)); }
      if k.digest(Stringify(c.value)) != record.value.digest { return Failed(IntegrityFailed); }
      var t := ParsedPayload(record.value.targets);
      if t.Err? { return Failed(PayloadInvalid(t.error)); }
      return Handed(id.value, record.value.kind, t.value, c.value, record.value.expiresAt);
    }
  }

  // -------------------------------------------------------------------- whole runs

  /** Tables and answers of a run: `tables[i]` is the table before request `i`. */
  datatype Trace = Trace(tables: seq<Table>, answers: seq<Response>)

  ghost predicate Shaped(rs: seq<Request>, t: Trace) {
    && |t.tables| == |rs| + 1 && |t.answers| == |rs| && t.tables[0] == map[]
    && forall i :: 0 <= i < |rs| ==> ValidRequest(rs[i])
  }

  /** The trace of serving the requests one after the other from an empty table. */
  ghost predicate IsRun(k: Setting, rs: seq<Request>, t: Trace) {
    Shaped(rs, t) && forall i :: 0 <= i < |rs| ==> (t.tables[i + 1], t.answers[i]) == Step(k, t.tables[i], rs[i])
  }

  /** A preview stores what it binds the confirmation to. */
  ghost predicate Created(k: Setting, p: Request, row: Row) {
    && p.Preview? && ValidRequest(p)
    && CanonicalPayload(p.heap, p.targets).Ok? && CanonicalPayload(p.heap, p.payload).Ok?
    && row.context == Bound(p.context) && row.kind == p.kind && row.expiresAt == p.now + k.ttl
    && row.digest == k.digest(Stringify(CanonicalPayload(p.heap, p.payload).value))
  }

  /** A request never removes a row and never changes what it is bound to; only a rewrite changes its
      data, and consumption is final. */
  ghost predicate Kept(r: Request, id: string, was: Row, row: Row) {
    && (was.consumed ==> row.consumed)
    && row.context == was.context && row.kind == was.kind && row.expiresAt == was.expiresAt && row.digest == was.digest
    && if r.Rewrite? && r.id == id then row.targets == r.newTargets && row.payload == r.newPayload
       else row.targets == was.targets && row.payload == was.payload
  }

  ghost predicate Added(k: Setting, r: Request, a: Response, id: string, row: Row) {
    && Created(k, r, row) && row == NewRow(k, r) && r.newId == id
    && a.Prompted? && a.id == id && a.expiresAt == row.expiresAt
  }

  /** Only a matching reply releases a payload, and it consumes the row. */
  ghost predicate Released(k: Setting, before: Table, r: Request, after: Table, a: Response) {
    && r.Confirm? && a.Handed? && r.reply == Some(a.id) && a.id in before && a.id in after && after[a.id].consumed
    && Matched(before, a.id, r.context, r.kind, r.dbNow) == Some(before[a.id])
    && Release(k, a.id, before[a.id]) == a
  }

  ghost predicate Legal(k: Setting, before: Table, r: Request, after: Table, a: Response)
    requires ValidRequest(r)
  {
    && (forall id :: id in before ==> id in after && Kept(r, id, before[id], after[id]))
    && (forall id :: id in after && id !in before ==> Added(k, r, a, id, after[id]))
    && (a.Handed? ==> Released(k, before, r, after, a))
    && (r.Confirm? && a.Failed? && (a.failure.IntegrityFailed? || a.failure.PayloadInvalid?) ==>
          exists id :: id in before && a == Release(k, id, before[id]))
  }

  /** An answer that releases nothing and leaves the table alone. */
  lemma {:induction false} UnchangedIsLegal(k: Setting, before: Table, r: Request, a: Response)
    requires ValidRequest(r) && !r.Rewrite? && !a.Handed?
    requires r.Confirm? ==> !(a.Failed? && (a.failure.IntegrityFailed? || a.failure.PayloadInvalid?))
    ensures Legal(k, before, r, before, a)
  {
  }

  lemma {:induction false} PromptedIsAdded(k: Setting, before: Table, r: Request)
    requires r.Preview? && ValidRequest(r) && PreviewAnswer(k, before, r).Prompted?
    ensures CanonicalPayload(r.heap, r.targets).Ok? && CanonicalPayload(r.heap, r.payload).Ok? && r.newId !in before
    ensures Added(k, r, PreviewAnswer(k, before, r), r.newId, NewRow(k, r))
  {
  }

  lemma {:induction false} PreviewIsLegal(k: Setting, before: Table, r: Request)
    requires r.Preview? && ValidRequest(r)
    ensures Legal(k, before, r, Step(k, before, r).0, Step(k, before, r).1)
  {
    var a := PreviewAnswer(k, before, r);
    if a.Prompted? { PromptedIsAdded(k, before, r); } else { UnchangedIsLegal(k, before, r, a); }
  }

  lemma {:induction false} MatchIsLegal(k: Setting, before: Table, r: Request, id: string, row: Row)
    requires r.Confirm? && r.reply == Some(id) && Matched(before, id, r.context, r.kind, r.dbNow) == Some(row)
    ensures Legal(k, before, r, before[id := row.(consumed := true)], Release(k, id, row))
  {
  }

  lemma {:induction false} ConfirmIsLegal(k: Setting, before: Table, r: Request)
    requires r.Confirm?
    ensures Legal(k, before, r, Step(k, before, r).0, Step(k, before, r).1)
  {
    if r.reply.Some? && ValidContext(r.context) && MutationKind(r.kind) {
      var m := Matched(before, r.reply.value, r.context, r.kind, r.dbNow);
      if m.Some? {
        MatchIsLegal(k, before, r, r.reply.value, m.value);
      } else {
        UnchangedIsLegal(k, before, r, Nothing);
      }
    } else {
      UnchangedIsLegal(k, before, r, Step(k, before, r).1);
    }
  }

  lemma {:induction false} RewriteIsLegal(k: Setting, before: Table, r: Request)
    requires r.Rewrite?
    ensures Legal(k, before, r, Step(k, before, r).0, Step(k, before, r).1)
  {
  }

  lemma {:induction false} StepIsLegal(k: Setting, before: Table, r: Request)
    requires ValidRequest(r)
    ensures Legal(k, before, r, Step(k, before, r).0, Step(k, before, r).1)
  {
    match r {
      case Preview(_, _, _, _, _, _, _, _) => PreviewIsLegal(k, before, r);
      case Confirm(_, _, _, _) => ConfirmIsLegal(k, before, r);
      case Rewrite(_, _, _) => RewriteIsLegal(k, before, r);
    }
  }

  ghost predicate LegalAt(k: Setting, rs: seq<Request>, t: Trace, i: nat)
    requires Shaped(rs, t) && i < |rs|
  {
    Legal(k, t.tables[i], rs[i], t.tables[i + 1], t.answers[i])
  }

  ghost predicate LegalRun(k: Setting, rs: seq<Request>, t: Trace) {
    Shaped(rs, t) && forall i :: 0 <= i < |rs| ==> LegalAt(k, rs, t, i)
  }

  lemma {:induction false} RunIsLegal(k: Setting, rs: seq<Request>, t: Trace)
    requires IsRun(k, rs, t)
    ensures LegalRun(k, rs, t)
  {
    forall i | 0 <= i < |rs| ensures LegalAt(k, rs, t, i) {
      StepIsLegal(k, t.tables[i], rs[i]);
    }
  }

  lemma {:induction false} ConsumedStaysConsumed(k: Setting, rs: seq<Request>, t: Trace, m: nat, n: nat, id: string)
    requires LegalRun(k, rs, t) && m <= n <= |rs| && id in t.tables[m] && t.tables[m][id].consumed
    ensures id in t.tables[n] && t.tables[n][id].consumed
  {
    if m < n {
      ConsumedStaysConsumed(k, rs, t, m, n - 1, id);
      assert LegalAt(k, rs, t, n - 1);
      assert Kept(rs[n - 1], id, t.tables[n - 1][id], t.tables[n][id]);
    }
  }

  ghost predicate ConsumesRow(before: Table, after: Table, id: string) {
    id in before && !before[id].consumed && id in after && after[id].consumed
  }

  lemma {:induction false} HandingConsumes(k: Setting, rs: seq<Request>, t: Trace, i: nat)
    requires LegalRun(k, rs, t) && i < |rs| && t.answers[i].Handed?
    ensures ConsumesRow(t.tables[i], t.tables[i + 1], t.answers[i].id)
  {
    assert LegalAt(k, rs, t, i);
  }

  lemma {:induction false} HandedOnce(k: Setting, rs: seq<Request>, t: Trace, i: nat, j: nat)
    requires LegalRun(k, rs, t) && i < j < |rs| && t.answers[i].Handed? && t.answers[j].Handed?
    ensures t.answers[i].id != t.answers[j].id
  {
    HandingConsumes(k, rs, t, i);
    HandingConsumes(k, rs, t, j);
    ConsumedStaysConsumed(k, rs, t, i + 1, j, t.answers[i].id);
  }

  /** Over all runs a confirmation hands out its payload at most once, whatever else happens,
      storage changing rows by itself included. */
  lemma {:induction false} PayloadHandedOutAtMostOnce(k: Setting, rs: seq<Request>, t: Trace, i: nat, j: nat)
    requires IsRun(k, rs, t) && i < j < |rs| && t.answers[i].Handed? && t.answers[j].Handed?
    ensures t.answers[i].id != t.answers[j].id
  {
    RunIsLegal(k, rs, t);
    HandedOnce(k, rs, t, i, j);
  }

  /** `arrange` only reorders keys. */
  ghost predicate Permutes(arrange: Data -> Data) {
    forall j: Data :: Same(j, arrange(j))
  }

  /** Every rewrite by storage only reorders the keys of what the row holds. */
  ghost predicate OnlyPermutes(k: Setting, rs: seq<Request>, t: Trace)
    requires Shaped(rs, t)
  {
    && Permutes(k.arrange)
    && forall i :: 0 <= i < |rs| && rs[i].Rewrite? && rs[i].id in t.tables[i] ==>
         var row := t.tables[i][rs[i].id];
         Same(row.payload, rs[i].newPayload) && Same(row.targets, rs[i].newTargets)
  }

  /** The row still holds, up to key order, the canonical data of request `p`. */
  ghost predicate Holds(p: Request, row: Row) {
    && p.Preview? && ValidRequest(p)
    && CanonicalPayload(p.heap, p.payload).Ok? && CanonicalPayload(p.heap, p.targets).Ok?
    && Same(CanonicalPayload(p.heap, p.payload).value, row.payload)
    && Same(CanonicalPayload(p.heap, p.targets).value, row.targets)
  }

  lemma {:induction false} SameTransitive(u: Json, v: Json, w: Json)
    requires WellFormed(u) && WellFormed(v) && WellFormed(w) && Same(u, v) && Same(v, w)
    ensures Same(u, w)
  {
    CanonEqualIffSame(u, v);
    CanonEqualIffSame(v, w);
    CanonEqualIffSame(u, w);
  }

  lemma {:induction false} NewRowHolds(k: Setting, p: Request)
    requires p.Preview? && ValidRequest(p) && Permutes(k.arrange)
    requires CanonicalPayload(p.heap, p.targets).Ok? && CanonicalPayload(p.heap, p.payload).Ok?
    ensures Holds(p, NewRow(k, p))
  {
    ReturnsCanonicalForm(p.heap, p.payload);
    ReturnsCanonicalForm(p.heap, p.targets);
  }

  lemma {:induction false} RewriteHolds(p: Request, was: Row, row: Row)
    requires Holds(p, was)
    requires Same(was.payload, row.payload) && Same(was.targets, row.targets)
    ensures Holds(p, row)
  {
    ReturnsCanonicalForm(p.heap, p.payload);
    ReturnsCanonicalForm(p.heap, p.targets);
    SameTransitive(CanonicalPayload(p.heap, p.payload).value, was.payload, row.payload);
    SameTransitive(CanonicalPayload(p.heap, p.targets).value, was.targets, row.targets);
  }

  /** Every row goes back to the preview that was answered with its id. */
  ghost predicate Origin(k: Setting, rs: seq<Request>, t: Trace, j: nat, id: string, row: Row) {
    && j < |rs| && j < |t.answers| && Created(k, rs[j], row)
    && t.answers[j].Prompted? && t.answers[j].id == id && t.answers[j].expiresAt == row.expiresAt
  }

  lemma {:induction false} KeptRowKeepsOrigin(k: Setting, rs: seq<Request>, t: Trace, n: nat, id: string, j: nat)
    requires LegalRun(k, rs, t) && 0 < n <= |rs| && id in t.tables[n - 1]
    requires j < n && Origin(k, rs, t, j, id, t.tables[n - 1][id])
    requires OnlyPermutes(k, rs, t) ==> Holds(rs[j], t.tables[n - 1][id])
    ensures id in t.tables[n] && Origin(k, rs, t, j, id, t.tables[n][id])
    ensures OnlyPermutes(k, rs, t) ==> Holds(rs[j], t.tables[n][id])
  {
    var r, was := rs[n - 1], t.tables[n - 1][id];
    assert LegalAt(k, rs, t, n - 1);
    assert Kept(r, id, was, t.tables[n][id]);
    if OnlyPermutes(k, rs, t) && r.Rewrite? && r.id == id { RewriteHolds(rs[j], was, t.tables[n][id]); }
  }

  lemma {:induction false} AddedRowHasOrigin(k: Setting, rs: seq<Request>, t: Trace, n: nat, id: string)
    requires LegalRun(k, rs, t) && 0 < n <= |rs| && id in t.tables[n] && id !in t.tables[n - 1]
    ensures Origin(k, rs, t, n - 1, id, t.tables[n][id])
    ensures OnlyPermutes(k, rs, t) ==> Holds(rs[n - 1], t.tables[n][id])
  {
    assert LegalAt(k, rs, t, n - 1);
    assert Added(k, rs[n - 1], t.answers[n - 1], id, t.tables[n][id]);
    if OnlyPermutes(k, rs, t) { NewRowHolds(k, rs[n - 1]); }
  }

  lemma {:induction false} EveryRowWasPreviewed(k: Setting, rs: seq<Request>, t: Trace, n: nat, id: string)
    returns (j: nat)
    requires LegalRun(k, rs, t) && n <= |rs| && id in t.tables[n]
    ensures j < n && Origin(k, rs, t, j, id, t.tables[n][id])
    ensures OnlyPermutes(k, rs, t) ==> Holds(rs[j], t.tables[n][id])
  {
    if id in t.tables[n - 1] {
      j := EveryRowWasPreviewed(k, rs, t, n - 1, id);
      KeptRowKeepsOrigin(k, rs, t, n, id, j);
    } else {
      j := n - 1;
      AddedRowHasOrigin(k, rs, t, n, id);
    }
  }

  /** Equal up to the case of letters. */
  predicate SameIgnoringCase(s: string, t: string) {
    |s| == |t| && forall i :: 0 <= i < |s| ==> Reply.LowerChar(s[i]) == Reply.LowerChar(t[i])
  }

  /** The same user, company and conversation; UUIDs are read in either case. */
  predicate SameActor(a: Context, b: Context) {
    && SameIgnoringCase(a.user, b.user) && a.company == b.company
    && SameIgnoringCase(a.conversation, b.conversation)
  }

  lemma {:induction false} LowerIffSame(s: string, t: string)
    ensures Reply.Lower(s) == Reply.Lower(t) <==> SameIgnoringCase(s, t)
  {
    if Reply.Lower(s) == Reply.Lower(t) {
      forall i | 0 <= i < |s| ensures Reply.LowerChar(s[i]) == Reply.LowerChar(t[i]) {
        assert Reply.Lower(s)[i] == Reply.Lower(t)[i];
      }
    }
  }

  lemma {:induction false} BoundIffSameActor(a: Context, b: Context)
    ensures Bound(a) == Bound(b) <==> SameActor(a, b)
  {
    LowerIffSame(a.user, b.user);
    LowerIffSame(a.conversation, b.conversation);
  }

  /** Answer `i` hands out the payload previewed by request `j`: to the same user, company and
      conversation, for the same kind of change, before expiry. */
  ghost predicate HandsOutPreview(k: Setting, rs: seq<Request>, t: Trace, i: nat, j: nat)
    requires Shaped(rs, t) && j < i < |rs|
  {
    var p, h := rs[j], t.answers[i];
    && h.Handed? && p.Preview? && t.answers[j].Prompted? && t.answers[j].id == h.id
    && rs[i].Confirm? && SameActor(rs[i].context, p.context) && rs[i].kind == p.kind == h.kind
    && rs[i].dbNow < h.expiresAt == p.now + k.ttl == t.answers[j].expiresAt
    && CanonicalPayload(p.heap, p.payload) == Ok(h.payload)
  }

  ghost predicate HandsOutTargets(rs: seq<Request>, t: Trace, i: nat, j: nat)
    requires Shaped(rs, t) && j < i < |rs| && rs[j].Preview?
  {
    t.answers[i].Handed? && CanonicalPayload(rs[j].heap, rs[j].targets) == Ok(t.answers[i].targets)
  }

  lemma {:induction false} ReleaseOfHeldRow(k: Setting, p: Request, id: string, row: Row)
    requires Created(k, p, row) && Holds(p, row)
    ensures Release(k, id, row) ==
            Handed(id, row.kind, CanonicalPayload(p.heap, p.targets).value, CanonicalPayload(p.heap, p.payload).value,
                   row.expiresAt)
  {
    ReadBack(p.heap, p.payload, row.payload);
    ReadBack(p.heap, p.targets, row.targets);
  }

  lemma {:induction false} HandsOutOrigin(k: Setting, rs: seq<Request>, t: Trace, i: nat)
    requires LegalRun(k, rs, t) && i < |rs| && OnlyPermutes(k, rs, t) && rs[i].Confirm?
    ensures t.answers[i] != Failed(IntegrityFailed) && forall e :: t.answers[i] != Failed(PayloadInvalid(e))
    ensures t.answers[i].Handed? ==>
              exists j :: 0 <= j < i && HandsOutPreview(k, rs, t, i, j) && HandsOutTargets(rs, t, i, j)
  {
    var before, a := t.tables[i], t.answers[i];
    assert LegalAt(k, rs, t, i);
    forall id | id in before ensures Release(k, id, before[id]).Handed? {
      var j := EveryRowWasPreviewed(k, rs, t, i, id);
      ReleaseOfHeldRow(k, rs[j], id, before[id]);
    }
    if a.Handed? {
      var j := EveryRowWasPreviewed(k, rs, t, i, a.id);
      ReleaseOfHeldRow(k, rs[j], a.id, before[a.id]);
      BoundIffSameActor(rs[i].context, rs[j].context);
      assert HandsOutPreview(k, rs, t, i, j) && HandsOutTargets(rs, t, i, j);
    }
  }

  /** When storage only reorders keys, no confirmation fails its integrity check, and the payload and
      the targets handed out are the canonical ones previewed. */
  lemma {:induction false} HandsOutWhatWasPreviewed(k: Setting, rs: seq<Request>, t: Trace, i: nat)
    requires IsRun(k, rs, t) && i < |rs| && OnlyPermutes(k, rs, t) && rs[i].Confirm?
    ensures t.answers[i] != Failed(IntegrityFailed) && forall e :: t.answers[i] != Failed(PayloadInvalid(e))
    ensures t.answers[i].Handed? ==>
              exists j :: 0 <= j < i && HandsOutPreview(k, rs, t, i, j) && HandsOutTargets(rs, t, i, j)
  {
    RunIsLegal(k, rs, t);
    HandsOutOrigin(k, rs, t, i);
  }

  // ---------------------------------------------------- a valid reply is answered

  /** A row is consumed only by the reply that is answered with its release, a new row is not, and a reply
      that matches a row is answered with its release. */
  ghost predicate Serves(k: Setting, before: Table, r: Request, after: Table, a: Response) {
    && (forall id :: id in before && id in after && after[id].consumed && !before[id].consumed ==>
          a == Release(k, id, before[id]))
    && (forall id :: id in after && id !in before ==> !after[id].consumed)
    && (r.Confirm? && r.reply.Some? && ValidContext(r.context) && MutationKind(r.kind)
        && Matched(before, r.reply.value, r.context, r.kind, r.dbNow).Some? ==>
          a == Release(k, r.reply.value, before[r.reply.value]))
  }

  lemma {:induction false} StepServes(k: Setting, before: Table, r: Request)
    requires ValidRequest(r)
    ensures Serves(k, before, r, Step(k, before, r).0, Step(k, before, r).1)
  {
  }

  ghost predicate ServesAt(k: Setting, rs: seq<Request>, t: Trace, i: nat)
    requires Shaped(rs, t) && i < |rs|
  {
    Serves(k, t.tables[i], rs[i], t.tables[i + 1], t.answers[i])
  }

  /** What a prompt says of its request and of the tables around it. */
  ghost predicate Opens(rs: seq<Request>, t: Trace, j: nat)
    requires Shaped(rs, t) && j < |rs|
  {
    t.answers[j].Prompted? ==>
      && rs[j].Preview? && ValidContext(rs[j].context) && MutationKind(rs[j].kind)
      && t.answers[j].id !in t.tables[j] && t.answers[j].id in t.tables[j + 1]
  }

  ghost predicate ServedRun(k: Setting, rs: seq<Request>, t: Trace) {
    && LegalRun(k, rs, t)
    && (forall i :: 0 <= i < |rs| ==> ServesAt(k, rs, t, i))
    && (forall i :: 0 <= i < |rs| ==> Opens(rs, t, i))
  }

  lemma {:induction false} PromptOpens(k: Setting, before: Table, r: Request)
    requires ValidRequest(r)
    ensures var (after, a) := Step(k, before, r);
            a.Prompted? ==> && r.Preview? && ValidContext(r.context) && MutationKind(r.kind)
                            && a.id !in before && a.id in after
  {
  }

  lemma {:induction false} RunIsServed(k: Setting, rs: seq<Request>, t: Trace)
    requires IsRun(k, rs, t)
    ensures ServedRun(k, rs, t)
  {
    RunIsLegal(k, rs, t);
    forall i | 0 <= i < |rs| ensures ServesAt(k, rs, t, i) && Opens(rs, t, i) {
      StepServes(k, t.tables[i], rs[i]);
      PromptOpens(k, t.tables[i], rs[i]);
    }
  }

  /** Nothing was handed out under the id of prompt `j` before request `n`. */
  ghost predicate NotYetHanded(t: Trace, j: nat, n: nat)
    requires j < n <= |t.answers| && t.answers[j].Prompted?
  {
    forall m :: j < m < n ==> !(t.answers[m].Handed? && t.answers[m].id == t.answers[j].id)
  }

  /** Until its payload is handed out, the row of a prompt stays there, bound as it was and unconsumed. */
  lemma {:induction false} RowStaysOpen(k: Setting, rs: seq<Request>, t: Trace, j: nat, n: nat)
    requires ServedRun(k, rs, t) && OnlyPermutes(k, rs, t) && j < n <= |rs| && t.answers[j].Prompted?
    requires NotYetHanded(t, j, n)
    ensures var id := t.answers[j].id;
            && id in t.tables[n] && !t.tables[n][id].consumed
            && Origin(k, rs, t, j, id, t.tables[n][id]) && Holds(rs[j], t.tables[n][id])
  {
    var id := t.answers[j].id;
    assert Opens(rs, t, j) && ServesAt(k, rs, t, n - 1);
    if n == j + 1 {
      AddedRowHasOrigin(k, rs, t, n, id);
    } else {
      RowStaysOpen(k, rs, t, j, n - 1);
      KeptRowKeepsOrigin(k, rs, t, n, id, j);
      ReleaseOfHeldRow(k, rs[j], id, t.tables[n - 1][id]);
    }
  }

  lemma {:induction false} UuidInEitherCase(s: string, t: string)
    requires Reply.Uuid(s) && SameIgnoringCase(s, t)
    ensures Reply.Uuid(t)
  {
    assert Reply.LowerChar(t[14]) == Reply.LowerChar(s[14]) == s[14];
    forall i | 0 <= i < 36
      ensures if i in {8, 13, 18, 23} then t[i] == '-' else Reply.HexDigit(t[i])
    {
      assert Reply.LowerChar(s[i]) == Reply.LowerChar(t[i]);
    }
    assert Reply.LowerChar(s[19]) == Reply.LowerChar(t[19]);
  }

  /** Request `i` is a reply with the id of prompt `j`, by the same actor, for the same kind of change,
      before expiry, and the first to be answered. */
  ghost predicate Redeems(k: Setting, rs: seq<Request>, t: Trace, j: nat, i: nat)
    requires Shaped(rs, t) && j < i < |rs|
  {
    && rs[j].Preview? && t.answers[j].Prompted? && rs[i].Confirm? && rs[i].reply == Some(t.answers[j].id)
    && SameActor(rs[i].context, rs[j].context) && rs[i].kind == rs[j].kind && rs[i].dbNow < rs[j].now + k.ttl
    && NotYetHanded(t, j, i)
  }

  lemma {:induction false} RedeemingIsAnswered(k: Setting, rs: seq<Request>, t: Trace, j: nat, i: nat)
    requires ServedRun(k, rs, t) && OnlyPermutes(k, rs, t) && j < i < |rs| && Redeems(k, rs, t, j, i)
    ensures t.answers[i].Handed?
  {
    var id := t.answers[j].id;
    RowStaysOpen(k, rs, t, j, i);
    assert Opens(rs, t, j) && ServesAt(k, rs, t, i);
    BoundIffSameActor(rs[i].context, rs[j].context);
    UuidInEitherCase(rs[j].context.user, rs[i].context.user);
    UuidInEitherCase(rs[j].context.conversation, rs[i].context.conversation);
    ReleaseOfHeldRow(k, rs[j], id, t.tables[i][id]);
  }

  lemma {:induction false} HandedIsRedeemed(k: Setting, rs: seq<Request>, t: Trace, i: nat)
    requires LegalRun(k, rs, t) && OnlyPermutes(k, rs, t) && i < |rs| && t.answers[i].Handed?
    ensures exists j :: 0 <= j < i && Redeems(k, rs, t, j, i)
  {
    assert LegalAt(k, rs, t, i);
    HandsOutOrigin(k, rs, t, i);
    var j :| 0 <= j < i && HandsOutPreview(k, rs, t, i, j);
    forall m | j < m < i ensures !(t.answers[m].Handed? && t.answers[m].id == t.answers[j].id) {
      if t.answers[m].Handed? { HandedOnce(k, rs, t, m, i); }
    }
    assert Redeems(k, rs, t, j, i);
  }

  /** When storage only reorders keys, a request is handed a payload exactly when it is the first valid reply
      to a prompt: with its id, by the same user in the same company and conversation, for the same kind
      of change, before it expires. */
  lemma {:induction false} HandedOutIff(k: Setting, rs: seq<Request>, t: Trace, i: nat)
    requires IsRun(k, rs, t) && OnlyPermutes(k, rs, t) && i < |rs|
    ensures t.answers[i].Handed? <==> exists j :: 0 <= j < i && Redeems(k, rs, t, j, i)
  {
    RunIsServed(k, rs, t);
    if t.answers[i].Handed? { HandedIsRedeemed(k, rs, t, i); }
    if j :| 0 <= j < i && Redeems(k, rs, t, j, i) { RedeemingIsAnswered(k, rs, t, j, i); }
  }

  ghost predicate Injective(digest: string -> string) {
    forall s, t :: digest(s) == digest(t) ==> s == t
  }

  lemma {:induction false} ReleaseMatchesDigest(k: Setting, p: Request, id: string, row: Row)
    requires Created(k, p, row) && Injective(k.digest) && Release(k, id, row).Handed?
    ensures CanonicalPayload(p.heap, p.payload) == Ok(Release(k, id, row).payload)
  {
    var c := CanonicalPayload(p.heap, p.payload).value;
    ReturnsCanonicalForm(p.heap, p.payload);
    ParsedPayloadIsTree(row.payload);
    CanonIsSame(row.payload);
    TextDeterminesValue(Release(k, id, row).payload, c, "", "");
  }

  lemma {:induction false} HandsOutDespiteTampering(k: Setting, rs: seq<Request>, t: Trace, i: nat)
    requires LegalRun(k, rs, t) && i < |rs| && Injective(k.digest) && t.answers[i].Handed?
    ensures exists j :: 0 <= j < i && HandsOutPreview(k, rs, t, i, j)
  {
    var before, id := t.tables[i], t.answers[i].id;
    assert LegalAt(k, rs, t, i);
    var j := EveryRowWasPreviewed(k, rs, t, i, id);
    ReleaseMatchesDigest(k, rs[j], id, before[id]);
    BoundIffSameActor(rs[i].context, rs[j].context);
    assert HandsOutPreview(k, rs, t, i, j);
  }

  /** Even when storage changes the payloads and targets of rows arbitrarily, though not their digests
      and what they are bound to, with a digest without collisions the payload handed out is the one
      previewed. */
  lemma {:induction false} TamperedPayloadIsNeverHandedOut(k: Setting, rs: seq<Request>, t: Trace, i: nat)
    requires IsRun(k, rs, t) && i < |rs| && Injective(k.digest) && t.answers[i].Handed?
    ensures exists j :: 0 <= j < i && HandsOutPreview(k, rs, t, i, j)
  {
    RunIsLegal(k, rs, t);
    HandsOutDespiteTampering(k, rs, t, i);
  }

  /** Targets have no digest: when storage changes them, they are handed out as changed whenever they
      are a payload at all. */
  lemma {:induction false} ChangedTargetsAreHandedOut(k: Setting, p: Request, id: string, row: Row, targets: Data)
    requires Created(k, p, row) && Holds(p, row)
    ensures var a := Release(k, id, row.(targets := targets));
            if TreePayload(targets).Ok? then a.Handed? && a.targets == Canon(targets)
            else a == Failed(PayloadInvalid(TreePayload(targets).error))
  {
    ReadBack(p.heap, p.payload, row.payload);
    ParsedPayloadIsTree(targets);
  }

  /** A matching reply consumes the record whatever becomes of the integrity check: it fails closed. */
  lemma {:induction false} MatchingReplyConsumes(k: Setting, rows: Table, id: string, context: Context, kind: string,
          dbNow: int)
    requires ValidContext(context) && MutationKind(kind)
    ensures var after := Step(k, rows, Confirm(Some(id), context, kind, dbNow));
            if Matched(rows, id, context, kind, dbNow).Some?
            then after.0.Keys == rows.Keys && (forall x :: x in rows && x != id ==> after.0[x] == rows[x]) &&
                 forall c, kd, t :: !Step(k, after.0, Confirm(Some(id), c, kd, t)).1.Handed?
            else after == (rows, Nothing)
  {
  }
}
