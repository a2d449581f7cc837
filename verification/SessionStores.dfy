/** Login sessions in their two forms: a list in the auth file, pruned on creation and filtered on
    revocation, and a table whose rows are marked when revoked and purged later.  Both are compared
    with the history of what was issued and revoked, whatever the clock does. */
module SessionStores {
  import opened Wrappers

  datatype Setting = Setting(ttlMs: int, hash: string -> string, users: set<string>)

  /** `issuedAt` is the clock when the expiry is computed, `now` when the store is written.
      `Register` is any other write of the auth file: it leaves the sessions alone. */
  datatype Event =
    | Create(token: string, user: string, issuedAt: int, now: int)
    | Revoke(token: string, now: int)
    | Register(now: int)

  /** What a look-up gives; `Unreadable` when it throws because the file does not exist. */
  datatype Answer = Nobody | Known(user: string) | Unreadable

  // ---------------------------------------------------------------- the file-backed form

  datatype Session = Session(tokenHash: string, user: string, expiresAt: int)

  /** The sessions of the auth file; None when there is no file. */
  type File = Option<seq<Session>>

  /** What `updateStore` starts from: a missing file is an empty store. */
  function Stored(file: File): seq<Session> {
    if file.Some? then file.value else []
  }

  function Unexpired(ss: seq<Session>, now: int): (r: seq<Session>)
    ensures forall x :: x in r <==> x in ss && x.expiresAt > now
  {
    if ss == [] then [] else
    var n := |ss| - 1;
    Unexpired(ss[..n], now) + if ss[n].expiresAt > now then [ss[n]] else []
  }

  function Without(ss: seq<Session>, tokenHash: string): (r: seq<Session>)
    ensures forall x :: x in r <==> x in ss && x.tokenHash != tokenHash
  {
    if ss == [] then [] else
    var n := |ss| - 1;
    Without(ss[..n], tokenHash) + if ss[n].tokenHash != tokenHash then [ss[n]] else []
  }

  function FileStep(k: Setting, file: File, e: Event): File {
    match e
    case Create(token, user, issuedAt, now) =>
      Some(Unexpired(Stored(file), now) + [Session(k.hash(token), user, issuedAt + k.ttlMs)])
    case Revoke(token, _) => if token == "" then file else Some(Without(Stored(file), k.hash(token)))
    case Register(_) => Some(Stored(file))
  }

  function FirstMatch(ss: seq<Session>, tokenHash: string, now: int): (r: Option<Session>)
    ensures r.Some? ==> r.value in ss && r.value.tokenHash == tokenHash && r.value.expiresAt > now
    ensures r.None? ==> forall x :: x in ss ==> x.tokenHash != tokenHash || x.expiresAt <= now
  {
    if ss == [] then None
    else if ss[0].tokenHash == tokenHash && ss[0].expiresAt > now then Some(ss[0])
    else FirstMatch(ss[1..], tokenHash, now)
  }

  /** `getUserForSession` over the file: the user of the first matching session, if he exists.
      It reads without `updateStore`, so a missing file is an error. */
  function FileUser(k: Setting, file: File, token: string, now: int): Answer {
    if token == "" then Nobody
    else if file.None? then Unreadable
    else
      var s := FirstMatch(file.value, k.hash(token), now);
      if s.Some? && s.value.user in k.users then Known(s.value.user) else Nobody
  }

  class FileAuthStore {
    const setting: Setting
    var file: File

    constructor (setting: Setting)
      ensures this.setting == setting && file == None
    {
      this.setting, file := setting, None;
    }

    /** The session mutators run one at a time in the write queue of the store. */
    method CreateSession(token: string, userId: string, issuedAt: int, now: int)
      modifies this
      ensures file == FileStep(setting, old(file), Create(token, userId, issuedAt, now))
    {
      var sessions := FilterUnexpired(if file.Some? then file.value else [], now);
      sessions := sessions + [Session(setting.hash(token), userId, issuedAt + setting.ttlMs)];
      file := Some(sessions);
    }

    static method FilterUnexpired(sessions: seq<Session>, now: int) returns (kept: seq<Session>)
      ensures kept == Unexpired(sessions, now)
    {
      kept := [];
      for i := 0 to |sessions|
        invariant kept == Unexpired(sessions[..i], now)
      {
        assert sessions[..i + 1][..i] == sessions[..i];
        if sessions[i].expiresAt > now { kept := kept + [sessions[i]]; }
      }
      assert sessions[..|sessions|] == sessions;
    }

    method RevokeSession(token: string, now: int)
      modifies this
      ensures file == FileStep(setting, old(file), Revoke(token, now))
    {
      if token == "" { return; }
      var sessions := FilterOthers(if file.Some? then file.value else [], setting.hash(token));
      file := Some(sessions);
    }

    static method FilterOthers(sessions: seq<Session>, tokenHash: string) returns (kept: seq<Session>)
      ensures kept == Without(sessions, tokenHash)
    {
      kept := [];
      for i := 0 to |sessions|
        invariant kept == Without(sessions[..i], tokenHash)
      {
        assert sessions[..i + 1][..i] == sessions[..i];
        if sessions[i].tokenHash != tokenHash { kept := kept + [sessions[i]]; }
      }
      assert sessions[..|sessions|] == sessions;
    }

    method GetUserForSession(token: string, now: int) returns (answer: Answer)
      ensures answer == FileUser(setting, file, token, now)
    {
      if token == "" { return Nobody; }
      if file.None? { return Unreadable; }
      var sessions, tokenHash, i := file.value, setting.hash(token), 0;
      while i < |sessions|
        invariant 0 <= i <= |sessions|
        invariant FirstMatch(sessions, tokenHash, now) == FirstMatch(sessions[i..], tokenHash, now)
      {
        if sessions[i].tokenHash == tokenHash && sessions[i].expiresAt > now {
          return if sessions[i].user in setting.users then Known(sessions[i].user) else Nobody;
        }
        assert sessions[i..][1..] == sessions[i + 1..];
        i := i + 1;
      }
      return Nobody;
    }
  }

  // ---------------------------------------------------------------------- the SQL form

  datatype Row = Row(tokenHash: string, user: string, expiresAt: int, revoked: bool)

  /** DELETE ... WHERE expires_at <= now() OR revoked_at IS NOT NULL. */
  function Purged(rows: seq<Row>, now: int): (r: seq<Row>)
    ensures forall x :: x in r <==> x in rows && x.expiresAt > now && !x.revoked
  {
    if rows == [] then [] else
    var n := |rows| - 1;
    Purged(rows[..n], now) + if rows[n].expiresAt > now && !rows[n].revoked then [rows[n]] else []
  }

  function Mark(row: Row, tokenHash: string): Row {
    if row.tokenHash == tokenHash then row.(revoked := true) else row
  }

  /** UPDATE ... SET revoked_at WHERE session_token_hash matches and revoked_at IS NULL. */
  function Marked(rows: seq<Row>, tokenHash: string): (r: seq<Row>)
    ensures |r| == |rows| && forall i :: 0 <= i < |rows| ==> r[i] == Mark(rows[i], tokenHash)
  {
    if rows == [] then [] else [Mark(rows[0], tokenHash)] + Marked(rows[1..], tokenHash)
  }

  /** The insert is refused for a user the users table does not have. */
  function SqlStep(k: Setting, rows: seq<Row>, e: Event): seq<Row> {
    match e
    case Create(token, user, issuedAt, now) =>
      var kept := Purged(rows, now);
      if user in k.users then kept + [Row(k.hash(token), user, issuedAt + k.ttlMs, false)] else kept
    case Revoke(token, _) => if token == "" then rows else Marked(rows, k.hash(token))
    case Register(_) => rows
  }

  /** A row the join with users selects. */
  predicate Selected(k: Setting, row: Row, tokenHash: string, now: int) {
    row.tokenHash == tokenHash && !row.revoked && row.expiresAt > now && row.user in k.users
  }

  function FirstRow(k: Setting, rows: seq<Row>, tokenHash: string, now: int): (r: Option<Row>)
    ensures r.Some? ==> r.value in rows && Selected(k, r.value, tokenHash, now)
    ensures r.None? ==> forall x :: x in rows ==> !Selected(k, x, tokenHash, now)
  {
    if rows == [] then None
    else if Selected(k, rows[0], tokenHash, now) then Some(rows[0])
    else FirstRow(k, rows[1..], tokenHash, now)
  }

  /** `findSessionByHash`: sessions joined with users, unrevoked and unexpired. */
  function SqlUser(k: Setting, rows: seq<Row>, token: string, now: int): Answer {
    if token == "" then Nobody else
    var r := FirstRow(k, rows, k.hash(token), now);
    if r.Some? then Known(r.value.user) else Nobody
  }

  class SessionRepository {
    const setting: Setting
    var rows: seq<Row>

    constructor (setting: Setting)
      ensures this.setting == setting && rows == []
    {
      this.setting, rows := setting, [];
    }

    method DeleteExpiredSessions(now: int)
      modifies this
      ensures rows == Purged(old(rows), now)
    {
      var kept, i := [], 0;
      while i < |rows|
        invariant 0 <= i <= |rows| && rows == old(rows)
        invariant kept == Purged(rows[..i], now)
      {
        assert rows[..i + 1][..i] == rows[..i];
        if !(rows[i].expiresAt <= now || rows[i].revoked) { kept := kept + [rows[i]]; }
        i := i + 1;
      }
      assert rows[..|rows|] == rows;
      rows := kept;
    }

    method Insert(tokenHash: string, userId: string, expiresAt: int) returns (ok: bool)
      modifies this
      ensures ok == (userId in setting.users)
      ensures rows == if ok then old(rows) + [Row(tokenHash, userId, expiresAt, false)] else old(rows)
    {
      ok := userId in setting.users;
      if ok { rows := rows + [Row(tokenHash, userId, expiresAt, false)]; }
    }

    method CreateSession(token: string, userId: string, issuedAt: int, now: int) returns (ok: bool)
      modifies this
      ensures rows == SqlStep(setting, old(rows), Create(token, userId, issuedAt, now))
    {
      DeleteExpiredSessions(now);
      ok := Insert(setting.hash(token), userId, issuedAt + setting.ttlMs);
    }

    method RevokeSession(token: string, now: int)
      modifies this
      ensures rows == SqlStep(setting, old(rows), Revoke(token, now))
    {
      if token == "" { return; }
      var tokenHash, i := setting.hash(token), 0;
      while i < |rows|
        invariant 0 <= i <= |rows| == |old(rows)|
        invariant forall j :: 0 <= j < i ==> rows[j] == Mark(old(rows[j]), tokenHash)
        invariant forall j :: i <= j < |rows| ==> rows[j] == old(rows[j])
      {
        if rows[i].tokenHash == tokenHash && !rows[i].revoked { rows := rows[i := rows[i].(revoked := true)]; }
        i := i + 1;
      }
      assert rows == Marked(old(rows), tokenHash);
    }

    method FindUser(token: string, now: int) returns (answer: Answer)
      ensures answer == SqlUser(setting, rows, token, now)
    {
      if token == "" { return Nobody; }
      var tokenHash, i := setting.hash(token), 0;
      while i < |rows|
        invariant 0 <= i <= |rows|
        invariant FirstRow(setting, rows, tokenHash, now) == FirstRow(setting, rows[i..], tokenHash, now)
      {
        var row := rows[i];
        if row.user in setting.users && row.tokenHash == tokenHash && !row.revoked && row.expiresAt > now {
          return Known(row.user);
        }
        assert rows[i..][1..] == rows[i + 1..];
        i := i + 1;
      }
      return Nobody;
    }
  }

  // ------------------------------------------------------------------------ the history

  /** The token was issued by event `i`, to that user with that expiry, and not revoked since. */
  ghost predicate Stands(es: seq<Event>, i: nat) {
    && i < |es| && es[i].Create?
    && forall j :: i < j < |es| && es[j].Revoke? ==> es[j].token != es[i].token
  }

  function Expiry(k: Setting, e: Event): int
    requires e.Create?
  {
    e.issuedAt + k.ttlMs
  }

  /** No session was created later at a time when the one of event `i` was past its expiry. */
  ghost predicate NotPurged(k: Setting, es: seq<Event>, i: nat)
    requires i < |es| && es[i].Create?
  {
    forall j :: i < j < |es| && es[j].Create? ==> es[j].now < Expiry(k, es[i])
  }

  /** The token was issued to `u` by event `i`, has not been revoked, and `t` is before its expiry. */
  ghost predicate ValidBy(k: Setting, es: seq<Event>, i: nat, token: string, u: string, t: int) {
    Stands(es, i) && es[i].token == token && es[i].user == u && u in k.users && t < Expiry(k, es[i])
  }

  ghost predicate Valid(k: Setting, es: seq<Event>, token: string, u: string, t: int) {
    exists i: nat :: ValidBy(k, es, i, token, u, t)
  }

  /** It is valid, and no later creation has purged it. */
  ghost predicate Resolves(k: Setting, es: seq<Event>, token: string, u: string, t: int) {
    exists i: nat :: ValidBy(k, es, i, token, u, t) && NotPurged(k, es, i)
  }

  /** Tokens are fresh, not empty, and have different hashes. */
  ghost predicate FreshTokens(k: Setting, es: seq<Event>) {
    && (forall i :: 0 <= i < |es| && es[i].Create? ==> es[i].token != "")
    && (forall i, j :: 0 <= i < j < |es| && es[i].Create? && es[j].Create? ==> es[i].token != es[j].token)
    && (forall s, t :: k.hash(s) == k.hash(t) ==> s == t)
  }

  function FileRun(k: Setting, es: seq<Event>): File {
    if es == [] then None else FileStep(k, FileRun(k, es[..|es| - 1]), es[|es| - 1])
  }

  function SqlRun(k: Setting, es: seq<Event>): seq<Row> {
    if es == [] then [] else SqlStep(k, SqlRun(k, es[..|es| - 1]), es[|es| - 1])
  }

  function SessionOf(k: Setting, e: Event): Session
    requires e.Create?
  {
    Session(k.hash(e.token), e.user, Expiry(k, e))
  }

  function RowOf(k: Setting, e: Event): Row
    requires e.Create?
  {
    Row(k.hash(e.token), e.user, Expiry(k, e), false)
  }

  /** Standing and not purged: what the stores keep. */
  ghost predicate Kept(k: Setting, es: seq<Event>, i: nat) {
    Stands(es, i) && NotPurged(k, es, i)
  }

  lemma {:induction false} KeptBefore(k: Setting, es: seq<Event>, i: nat)
    requires es != []
    ensures var n := |es| - 1; var e := es[n];
            && (i < n ==> (Kept(k, es, i) <==> Kept(k, es[..n], i) && !(e.Revoke? && e.token == es[i].token)
                                               && !(e.Create? && Expiry(k, es[i]) <= e.now)))
            && (i == n ==> (Kept(k, es, i) <==> e.Create?))
  {
    var n := |es| - 1;
    if i < n {
      assert forall j :: 0 <= j < n ==> es[..n][j] == es[j];
    }
  }

  /** The file holds exactly the sessions kept. */
  ghost predicate HoldsKept(k: Setting, es: seq<Event>, ss: seq<Session>) {
    && (forall s :: s in ss ==> exists i: nat :: Kept(k, es, i) && s == SessionOf(k, es[i]))
    && (forall i: nat :: Kept(k, es, i) ==> SessionOf(k, es[i]) in ss)
  }

  lemma {:induction false} FileStepHoldsKept(k: Setting, es: seq<Event>, before: File, after: File)
    requires FreshTokens(k, es) && es != [] && HoldsKept(k, es[..|es| - 1], Stored(before))
    requires after == FileStep(k, before, es[|es| - 1])
    ensures HoldsKept(k, es, Stored(after))
  {
    var n := |es| - 1;
    forall s | s in Stored(after) ensures exists i: nat :: Kept(k, es, i) && s == SessionOf(k, es[i]) {
      if es[n].Create? && s == SessionOf(k, es[n]) {
        KeptBefore(k, es, n);
      } else {
        assert s in Stored(before);
        var i: nat :| Kept(k, es[..n], i) && s == SessionOf(k, es[..n][i]);
        KeptBefore(k, es, i);
        assert Kept(k, es, i) && s == SessionOf(k, es[i]);
      }
    }
    forall i: nat | Kept(k, es, i) ensures SessionOf(k, es[i]) in Stored(after) {
      KeptBefore(k, es, i);
      if i < n { assert SessionOf(k, es[..n][i]) in Stored(before); }
    }
  }

  lemma {:induction false} FileHoldsKept(k: Setting, es: seq<Event>)
    requires FreshTokens(k, es)
    ensures HoldsKept(k, es, Stored(FileRun(k, es)))
  {
    if es != [] {
      FileHoldsKept(k, es[..|es| - 1]);
      FileStepHoldsKept(k, es, FileRun(k, es[..|es| - 1]), FileRun(k, es));
    }
  }

  predicate Writes(e: Event) { e.Revoke? ==> e.token != "" }

  /** There is a file exactly after the first event that writes one. */
  lemma {:induction false} FileExistsOnceWritten(k: Setting, es: seq<Event>)
    ensures FileRun(k, es).Some? <==> exists i :: 0 <= i < |es| && Writes(es[i])
  {
    if es != [] {
      var n := |es| - 1;
      FileExistsOnceWritten(k, es[..n]);
      if i :| 0 <= i < |es| && Writes(es[i]) { assert i < n ==> Writes(es[..n][i]); }
      if i :| 0 <= i < n && Writes(es[..n][i]) { assert Writes(es[i]); }
    }
  }

  lemma {:induction false} KeptResolves(k: Setting, es: seq<Event>, ss: seq<Session>, i: nat, token: string, u: string,
          t: int)
    requires FreshTokens(k, es) && HoldsKept(k, es, ss)
    requires ValidBy(k, es, i, token, u, t) && NotPurged(k, es, i)
    ensures ss != [] && FileUser(k, Some(ss), token, t) == Known(u)
  {
    assert Kept(k, es, i) && SessionOf(k, es[i]) in ss;
    var m := FirstMatch(ss, k.hash(token), t);
    assert m.Some?;
    var j: nat :| Kept(k, es, j) && m.value == SessionOf(k, es[j]);
    assert es[j].token == token;
    assert i == j;
  }

  /** For every clock: a token resolves, in the file-backed form, to the user it was validly issued to,
      unless a session created later has purged it. */
  lemma {:induction false} FileExact(k: Setting, es: seq<Event>, token: string, u: string, t: int)
    requires FreshTokens(k, es)
    ensures FileUser(k, FileRun(k, es), token, t) == Known(u) <==> Resolves(k, es, token, u, t)
  {
    FileHoldsKept(k, es);
    var file := FileRun(k, es);
    if Resolves(k, es, token, u, t) {
      var i: nat :| ValidBy(k, es, i, token, u, t) && NotPurged(k, es, i);
      KeptResolves(k, es, Stored(file), i, token, u, t);
    }
    if FileUser(k, file, token, t) == Known(u) {
      var m := FirstMatch(file.value, k.hash(token), t).value;
      var j: nat :| Kept(k, es, j) && m == SessionOf(k, es[j]);
      assert ValidBy(k, es, j, token, u, t);
    }
  }

  /** The unrevoked rows are exactly those of the sessions kept, for users there are. */
  ghost predicate RowsOfKept(k: Setting, es: seq<Event>, rows: seq<Row>) {
    forall r :: r in rows && !r.revoked ==>
      exists i: nat :: Kept(k, es, i) && es[i].user in k.users && r == RowOf(k, es[i])
  }

  ghost predicate KeptHaveRows(k: Setting, es: seq<Event>, rows: seq<Row>) {
    forall i: nat :: Kept(k, es, i) && es[i].user in k.users ==> RowOf(k, es[i]) in rows
  }

  lemma {:induction false} MarkedKeepsOthers(rows: seq<Row>, tokenHash: string, r: Row)
    requires r in rows && r.tokenHash != tokenHash
    ensures r in Marked(rows, tokenHash)
  {
    var m :| 0 <= m < |rows| && rows[m] == r;
    assert Marked(rows, tokenHash)[m] == r;
  }

  lemma {:induction false} SqlStepKeepsRows(k: Setting, es: seq<Event>, before: seq<Row>, after: seq<Row>)
    requires FreshTokens(k, es) && es != [] && RowsOfKept(k, es[..|es| - 1], before)
    requires after == SqlStep(k, before, es[|es| - 1])
    ensures RowsOfKept(k, es, after)
  {
    var n := |es| - 1;
    forall r | r in after && !r.revoked
      ensures exists i: nat :: Kept(k, es, i) && es[i].user in k.users && r == RowOf(k, es[i])
    {
      if es[n].Create? && es[n].user in k.users && r == RowOf(k, es[n]) {
        KeptBefore(k, es, n);
      } else {
        assert r in before && (es[n].Revoke? && es[n].token != "" ==> r.tokenHash != k.hash(es[n].token));
        var i: nat :| Kept(k, es[..n], i) && es[..n][i].user in k.users && r == RowOf(k, es[..n][i]);
        KeptBefore(k, es, i);
        assert Kept(k, es, i) && r == RowOf(k, es[i]);
      }
    }
  }

  lemma {:induction false} SqlStepKeepsKept(k: Setting, es: seq<Event>, before: seq<Row>, after: seq<Row>)
    requires FreshTokens(k, es) && es != [] && KeptHaveRows(k, es[..|es| - 1], before)
    requires after == SqlStep(k, before, es[|es| - 1])
    ensures KeptHaveRows(k, es, after)
  {
    var n := |es| - 1;
    forall i: nat | Kept(k, es, i) && es[i].user in k.users ensures RowOf(k, es[i]) in after {
      KeptBefore(k, es, i);
      if i < n {
        assert RowOf(k, es[..n][i]) in before;
        if es[n].Revoke? && es[n].token != "" { MarkedKeepsOthers(before, k.hash(es[n].token), RowOf(k, es[i])); }
      }
    }
  }

  lemma {:induction false} SqlHoldsKept(k: Setting, es: seq<Event>)
    requires FreshTokens(k, es)
    ensures RowsOfKept(k, es, SqlRun(k, es)) && KeptHaveRows(k, es, SqlRun(k, es))
  {
    if es != [] {
      var before := SqlRun(k, es[..|es| - 1]);
      SqlHoldsKept(k, es[..|es| - 1]);
      SqlStepKeepsRows(k, es, before, SqlRun(k, es));
      SqlStepKeepsKept(k, es, before, SqlRun(k, es));
    }
  }

  lemma {:induction false} KeptHasRow(k: Setting, es: seq<Event>, rows: seq<Row>, i: nat, token: string, u: string,
          t: int)
    requires FreshTokens(k, es) && RowsOfKept(k, es, rows) && KeptHaveRows(k, es, rows)
    requires ValidBy(k, es, i, token, u, t) && NotPurged(k, es, i)
    ensures SqlUser(k, rows, token, t) == Known(u)
  {
    assert Kept(k, es, i) && Selected(k, RowOf(k, es[i]), k.hash(token), t);
    var r := FirstRow(k, rows, k.hash(token), t);
    assert r.Some?;
    var j: nat :| Kept(k, es, j) && es[j].user in k.users && r.value == RowOf(k, es[j]);
    assert es[j].token == token;
    assert i == j;
  }

  lemma {:induction false} RowIsOfKept(k: Setting, es: seq<Event>, rows: seq<Row>, token: string, u: string, t: int)
    returns (i: nat)
    requires FreshTokens(k, es) && RowsOfKept(k, es, rows) && SqlUser(k, rows, token, t) == Known(u)
    ensures ValidBy(k, es, i, token, u, t) && NotPurged(k, es, i)
  {
    var r := FirstRow(k, rows, k.hash(token), t).value;
    i :| Kept(k, es, i) && es[i].user in k.users && r == RowOf(k, es[i]);
  }

  /** The same for the table that marks and purges. */
  lemma {:induction false} SqlExact(k: Setting, es: seq<Event>, token: string, u: string, t: int)
    requires FreshTokens(k, es)
    ensures SqlUser(k, SqlRun(k, es), token, t) == Known(u) <==> Resolves(k, es, token, u, t)
  {
    SqlHoldsKept(k, es);
    if Resolves(k, es, token, u, t) {
      var i: nat :| ValidBy(k, es, i, token, u, t) && NotPurged(k, es, i);
      KeptHasRow(k, es, SqlRun(k, es), i, token, u, t);
    }
    if SqlUser(k, SqlRun(k, es), token, t) == Known(u) {
      var i := RowIsOfKept(k, es, SqlRun(k, es), token, u, t);
    }
  }

  // -------------------------------------------------------------------- main results

  /** On every run, at every time and for every clock the two stores give the same answer, although one
      deletes on revocation and the other marks and purges later, exactly when there is a file to read
      or no token to look up. */
  lemma {:induction false} StoresAgree(k: Setting, es: seq<Event>, token: string, t: int)
    requires FreshTokens(k, es)
    ensures FileUser(k, FileRun(k, es), token, t) == SqlUser(k, SqlRun(k, es), token, t)
            <==> token == "" || exists i :: 0 <= i < |es| && Writes(es[i])
  {
    var f, s := FileUser(k, FileRun(k, es), token, t), SqlUser(k, SqlRun(k, es), token, t);
    FileExistsOnceWritten(k, es);
    if f.Known? {
      FileExact(k, es, token, f.user, t);
      SqlExact(k, es, token, f.user, t);
    }
    if s.Known? {
      FileExact(k, es, token, s.user, t);
      SqlExact(k, es, token, s.user, t);
    }
  }

  /** A session created later saw the token expired, but the clock of the look-up is before its expiry. */
  ghost predicate ClockWentBack(k: Setting, es: seq<Event>, token: string, t: int) {
    exists i: nat, j: nat :: i < j < |es| && Stands(es, i) && es[i].token == token && es[i].user in k.users
                             && es[j].Create? && t < Expiry(k, es[i]) <= es[j].now
  }

  lemma {:induction false} PurgedIffClockWentBack(k: Setting, es: seq<Event>, token: string, t: int)
    requires FreshTokens(k, es)
    ensures ClockWentBack(k, es, token, t)
            <==> exists u :: Valid(k, es, token, u, t) && !Resolves(k, es, token, u, t)
  {
    if ClockWentBack(k, es, token, t) {
      var i: nat, j: nat :| i < j < |es| && Stands(es, i) && es[i].token == token && es[i].user in k.users
                            && es[j].Create? && t < Expiry(k, es[i]) <= es[j].now;
      assert ValidBy(k, es, i, token, es[i].user, t) && !NotPurged(k, es, i);
      assert Valid(k, es, token, es[i].user, t);
    }
    if u :| Valid(k, es, token, u, t) && !Resolves(k, es, token, u, t) {
      var i: nat :| ValidBy(k, es, i, token, u, t);
      assert !NotPurged(k, es, i);
    }
  }

  /** Both stores answer what the history says, exactly when the clock did not go back over an expiry
      between a purge and the look-up. */
  lemma {:induction false} AnswersHistoryIff(k: Setting, es: seq<Event>, token: string, t: int)
    requires FreshTokens(k, es)
    ensures (forall u :: FileUser(k, FileRun(k, es), token, t) == Known(u) <==> Valid(k, es, token, u, t))
            <==> !ClockWentBack(k, es, token, t)
    ensures (forall u :: SqlUser(k, SqlRun(k, es), token, t) == Known(u) <==> Valid(k, es, token, u, t))
            <==> !ClockWentBack(k, es, token, t)
  {
    PurgedIffClockWentBack(k, es, token, t);
    forall u
      ensures FileUser(k, FileRun(k, es), token, t) == Known(u) <==> Resolves(k, es, token, u, t)
      ensures SqlUser(k, SqlRun(k, es), token, t) == Known(u) <==> Resolves(k, es, token, u, t)
    {
      FileExact(k, es, token, u, t);
      SqlExact(k, es, token, u, t);
    }
    assert forall u :: Resolves(k, es, token, u, t) ==> Valid(k, es, token, u, t);
  }

  /** With a clock that never goes back they always do. */
  lemma {:induction false} SteadyClockAnswersHistory(k: Setting, es: seq<Event>, token: string, u: string, t: int)
    requires FreshTokens(k, es) && forall i :: 0 <= i < |es| ==> es[i].now <= t
    ensures FileUser(k, FileRun(k, es), token, t) == Known(u) <==> Valid(k, es, token, u, t)
    ensures SqlUser(k, SqlRun(k, es), token, t) == Known(u) <==> Valid(k, es, token, u, t)
  {
    AnswersHistoryIff(k, es, token, t);
    assert !ClockWentBack(k, es, token, t);
  }

  /** A token that was revoked after it was issued resolves to nobody, whatever the clock does. */
  lemma {:induction false} RevokedNeverResolves(k: Setting, es: seq<Event>, i: nat, j: nat, u: string, t: int)
    requires FreshTokens(k, es) && i < j < |es| && es[i].Create? && es[j].Revoke? && es[j].token == es[i].token
    ensures FileUser(k, FileRun(k, es), es[i].token, t) != Known(u)
    ensures SqlUser(k, SqlRun(k, es), es[i].token, t) != Known(u)
  {
    FileExact(k, es, es[i].token, u, t);
    SqlExact(k, es, es[i].token, u, t);
  }

  /** A clock that goes back: a session expires at 10, one created at 20 purges it, and at 5 its token
      is valid by the history but resolves to nobody. */
  lemma {:induction false} ClockMustNotGoBack(k: Setting, es: seq<Event>)
    requires k.users == {"u"} && k.ttlMs == 10 && forall s, t :: k.hash(s) == k.hash(t) ==> s == t
    requires es == [Create("a", "u", 0, 0), Create("b", "u", 20, 20)]
    ensures Valid(k, es, "a", "u", 5)
    ensures FileUser(k, FileRun(k, es), "a", 5) != Known("u") && SqlUser(k, SqlRun(k, es), "a", 5) != Known("u")
  {
    assert ValidBy(k, es, 0, "a", "u", 5);
    assert es[1].Create? && Expiry(k, es[0]) <= es[1].now && !NotPurged(k, es, 0);
    FileExact(k, es, "a", "u", 5);
    SqlExact(k, es, "a", "u", 5);
  }
}
