/** Migration of shared links to access-control grants, with write failures at any point.  The
    `isPublic` field is removed from a link only by a run that recorded no failure for it. */
module SharedLinkMigration {
  import opened Wrappers

  /** `isPublic` as stored: missing, false, or anything else (true, null, ...). */
  datatype Visibility = Absent | NotPublic | MarkedPublic

  /** The owner as stored: missing or empty, a well-formed object id, or text that is none. */
  datatype Owner = Nobody | Known(id: string) | Malformed

  datatype Link = Link(id: nat, user: Owner, isPublic: Visibility, tenant: Option<string>, expiredAt: Option<int>)

  datatype Grantee = User(id: string) | Everyone

  datatype AclKey = AclKey(link: nat, grantee: Grantee)

  datatype Role = OwnerRole | ViewerRole

  datatype Entry = Entry(role: Role, grantedBy: Option<string>, expiredAt: Option<int>, tenant: Option<string>)

  type Acl = map<AclKey, Entry>

  /** One upsert of a bulk write. */
  datatype Op = Op(key: AclKey, grantedBy: Option<string>, expiredAt: Option<int>, tenant: Option<string>)

  function RoleFor(g: Grantee): Role { if g.Everyone? then ViewerRole else OwnerRole }

  /** `$set` replaces role and, when present, grantor and expiry; `$setOnInsert` sets the tenant of a new
      entry only. */
  function Upsert(acl: Acl, op: Op): Acl {
    var role := RoleFor(op.key.grantee);
    acl[op.key :=
      if op.key !in acl then Entry(role, op.grantedBy, op.expiredAt, op.tenant) else
      var e := acl[op.key];
      Entry(role, if op.grantedBy.Some? then op.grantedBy else e.grantedBy,
            if op.expiredAt.Some? then op.expiredAt else e.expiredAt, e.tenant)]
  }

  function OwnerOps(l: Link): seq<Op> {
    if l.user.Known? then [Op(AclKey(l.id, User(l.user.id)), Some(l.user.id), l.expiredAt, l.tenant)] else []
  }

  function PublicOps(l: Link): seq<Op> {
    if l.isPublic.MarkedPublic?
    then [Op(AclKey(l.id, Everyone), if l.user.Known? then Some(l.user.id) else None, l.expiredAt, l.tenant)]
    else []
  }

  function LinkOps(l: Link): seq<Op> { OwnerOps(l) + PublicOps(l) }

  /** The bulk operations of a batch; None when an owner is not an object id, which throws. */
  function BatchOps(links: seq<Link>): Option<seq<Op>> {
    if links == [] then Some([]) else
    var l, before := links[|links| - 1], BatchOps(links[..|links| - 1]);
    if before.None? || l.user.Malformed? then None else Some(before.value + LinkOps(l))
  }

  // ------------------------------------------------------------------ bulk writes

  /** An unordered bulk write is acknowledged, or throws an error that reports the indices of writes
      while those of `unapplied` did not happen, or is rejected as a whole after applying some. */
  datatype BulkOutcome =
    | Acknowledged
    | WriteErrors(reported: seq<nat>, unapplied: set<nat>)
    | Rejected(applied: set<nat>)

  /** Every write that did not happen is reported. */
  predicate Honest(o: BulkOutcome) {
    o.WriteErrors? ==> forall k :: k in o.unapplied ==> k in o.reported
  }

  predicate Skips(o: BulkOutcome, k: nat) {
    match o
    case Acknowledged => false
    case WriteErrors(_, unapplied) => k in unapplied
    case Rejected(applied) => k !in applied
  }

  function ApplyOps(acl: Acl, ops: seq<Op>, o: BulkOutcome): Acl {
    if ops == [] then acl else
    var n := |ops| - 1;
    var before := ApplyOps(acl, ops[..n], o);
    if Skips(o, n) then before else Upsert(before, ops[n])
  }

  /** The links a failure is attributed to. */
  function FailedLinks(links: seq<Link>, ops: seq<Op>, o: BulkOutcome): set<nat> {
    match o
    case Acknowledged => {}
    case WriteErrors(reported, _) => set k | 0 <= k < |ops| && k in reported :: ops[k].key.link
    case Rejected(_) => set i | 0 <= i < |links| :: links[i].id
  }

  function ErrorCount(links: seq<Link>, o: BulkOutcome): nat {
    match o case Acknowledged => 0 case WriteErrors(reported, _) => |reported| case Rejected(_) => |links|
  }

  datatype Progress = Progress(acl: Acl, failed: set<nat>, errors: nat, migrated: nat, threw: bool)

  function BatchStep(p: Progress, links: seq<Link>, o: BulkOutcome): Progress {
    match BatchOps(links)
    case None => p.(threw := true)
    case Some(ops) =>
      if ops == [] then p.(migrated := p.migrated + |links|)
      else Progress(ApplyOps(p.acl, ops, o), p.failed + FailedLinks(links, ops, o),
                    p.errors + ErrorCount(links, o), p.migrated + |links|, false)
  }

  // --------------------------------------------------------------------- batches

  /** Full batches while the cursor runs, then what remains; a size below 1 gives batches of one. */
  function Batches(links: seq<Link>, batch: seq<Link>, size: int): seq<seq<Link>>
    decreases |links|
  {
    if links == [] then (if batch == [] then [] else [batch]) else
    var b := batch + [links[0]];
    if |b| >= size then [b] + Batches(links[1..], [], size) else Batches(links[1..], b, size)
  }

  function Flatten(bs: seq<seq<Link>>): seq<Link> {
    if bs == [] then [] else bs[0] + Flatten(bs[1..])
  }

  /** Each link is in exactly one batch, in cursor order; no batch is empty or too large. */
  lemma {:induction false} EachLinkIsBatchedOnce(links: seq<Link>, batch: seq<Link>, size: int)
    requires |batch| < size || batch == []
    ensures Flatten(Batches(links, batch, size)) == batch + links
    ensures forall b :: b in Batches(links, batch, size) ==> b != [] && (|b| <= size || |b| == 1)
    decreases |links|
  {
    if links == [] {
      assert Flatten([batch]) == batch + Flatten([]);
    } else {
      var b := batch + [links[0]];
      assert batch + links == b + links[1..];
      if |b| >= size {
        var rest := Batches(links[1..], [], size);
        EachLinkIsBatchedOnce(links[1..], [], size);
        assert ([b] + rest)[0] == b && ([b] + rest)[1..] == rest;
        assert Flatten([b] + rest) == b + Flatten(rest);
      } else {
        EachLinkIsBatchedOnce(links[1..], b, size);
      }
    }
  }

  /** What a run meets: one outcome per batch, possibly a stop before some batch, and whether the final
      update fails, and how far it gets before. */
  datatype Environment =
    Environment(outcome: nat -> BulkOutcome, stopBefore: Option<nat>, unsetFails: bool, unsetReaches: nat -> bool)

  ghost predicate HonestReports(env: Environment) {
    forall k :: Honest(env.outcome(k))
  }

  /** Batches `k`, `k + 1`, ... of a run. */
  function RunBatches(p: Progress, bs: seq<seq<Link>>, k: nat, env: Environment): Progress
    decreases |bs|
  {
    if bs == [] || p.threw then p
    else if env.stopBefore == Some(k) then p.(threw := true)
    else RunBatches(BatchStep(p, bs[0], env.outcome(k)), bs[1..], k + 1, env)
  }

  function UnsetOne(l: Link, failed: set<nat>, env: Environment): Link {
    if l.id !in failed && (env.unsetFails ==> env.unsetReaches(l.id)) then l.(isPublic := Absent) else l
  }

  function Unset(links: seq<Link>, failed: set<nat>, env: Environment): (r: seq<Link>)
    ensures |r| == |links|
  {
    seq(|links|, i requires 0 <= i < |links| => UnsetOne(links[i], failed, env))
  }

  datatype Store = Store(links: seq<Link>, acl: Acl)

  datatype Report = RolesMissing | Aborted(count: nat) | NothingToDo | DryRun | Threw
                  | Finished(migrated: nat, errors: nat, failed: set<nat>)

  function CountNotPublic(links: seq<Link>): nat {
    if links == [] then 0 else
    var n := |links| - 1;
    CountNotPublic(links[..n]) + if links[n].isPublic.NotPublic? then 1 else 0
  }

  datatype Options = Options(dryRun: bool, batchSize: int, force: bool, rolesSeeded: bool)

  function LiveRun(s: Store, batchSize: int, env: Environment): (Store, Report) {
    var p := RunBatches(Progress(s.acl, {}, 0, 0, false), Batches(s.links, [], batchSize), 0, env);
    if p.threw then (Store(s.links, p.acl), Threw)
    else (Store(Unset(s.links, p.failed, env), p.acl),
          if env.unsetFails then Threw else Finished(p.migrated, p.errors, p.failed))
  }

  function Run(s: Store, o: Options, env: Environment): (Store, Report) {
    if !o.rolesSeeded then (s, RolesMissing)
    else if !o.dryRun && CountNotPublic(s.links) > 0 && !o.force then (s, Aborted(CountNotPublic(s.links)))
    else if s.links == [] then (s, NothingToDo)
    else if o.dryRun then (s, DryRun)
    else LiveRun(s, o.batchSize, env)
  }

  // --------------------------------------------------------------------- the script

  class Migration {
    var links: seq<Link>
    var acl: Acl
    var failedLinkIds: set<nat>
    var errors: nat
    var migrated: nat

    constructor (links: seq<Link>, acl: Acl)
      ensures this.links == links && this.acl == acl
    {
      this.links, this.acl, failedLinkIds, errors, migrated := links, acl, {}, 0, 0;
    }

    ghost function State(threw: bool): Progress
      reads this
    {
      Progress(acl, failedLinkIds, errors, migrated, threw)
    }

    /** The loop over a batch: operations, and for each the link it belongs to. */
    method CollectOps(batch: seq<Link>) returns (bulkOps: seq<Op>, opIndexToLinkId: seq<nat>, threw: bool)
      ensures threw <==> BatchOps(batch).None?
      ensures !threw ==> BatchOps(batch) == Some(bulkOps) && |opIndexToLinkId| == |bulkOps|
      ensures !threw ==> forall k :: 0 <= k < |bulkOps| ==> opIndexToLinkId[k] == bulkOps[k].key.link
    {
      bulkOps, opIndexToLinkId, threw := [], [], false;
      var i := 0;
      while i < |batch|
        invariant 0 <= i <= |batch| && BatchOps(batch[..i]) == Some(bulkOps)
        invariant |opIndexToLinkId| == |bulkOps|
        invariant forall k :: 0 <= k < |bulkOps| ==> opIndexToLinkId[k] == bulkOps[k].key.link
      {
        var link := batch[i];
        assert batch[..i + 1][..i] == batch[..i];
        ghost var before := bulkOps;
        if link.user.Malformed? {
          MalformedThrows(batch, i);
          return bulkOps, opIndexToLinkId, true;
        }
        if link.user.Known? {
          opIndexToLinkId := opIndexToLinkId + [link.id];
          var key := AclKey(link.id, User(link.user.id));
          bulkOps := bulkOps + [Op(key, Some(link.user.id), link.expiredAt, link.tenant)];
        }
        if link.isPublic.MarkedPublic? {
          opIndexToLinkId := opIndexToLinkId + [link.id];
          var grantor := if link.user.Known? then Some(link.user.id) else None;
          bulkOps := bulkOps + [Op(AclKey(link.id, Everyone), grantor, link.expiredAt, link.tenant)];
        }
        assert bulkOps == before + LinkOps(link);
        i := i + 1;
      }
      assert batch[..i] == batch;
    }

    method ProcessBatch(batch: seq<Link>, outcome: BulkOutcome) returns (threw: bool)
      modifies this`acl, this`failedLinkIds, this`errors, this`migrated
      ensures State(threw) == BatchStep(old(State(false)), batch, outcome)
    {
      var bulkOps, opIndexToLinkId;
      bulkOps, opIndexToLinkId, threw := CollectOps(batch);
      if threw { return; }
      migrated := migrated + |batch|;
      if |bulkOps| > 0 { BulkWrite(batch, bulkOps, outcome, opIndexToLinkId); }
    }

    method BulkWrite(batch: seq<Link>, bulkOps: seq<Op>, outcome: BulkOutcome, opIndexToLinkId: seq<nat>)
      requires |opIndexToLinkId| == |bulkOps|
      requires forall k :: 0 <= k < |bulkOps| ==> opIndexToLinkId[k] == bulkOps[k].key.link
      modifies this`acl, this`failedLinkIds, this`errors
      ensures acl == ApplyOps(old(acl), bulkOps, outcome)
      ensures failedLinkIds == old(failedLinkIds) + FailedLinks(batch, bulkOps, outcome)
      ensures errors == old(errors) + ErrorCount(batch, outcome)
    {
      acl := ApplyOps(acl, bulkOps, outcome);
      errors := errors + ErrorCount(batch, outcome);
      RecordFailures(batch, bulkOps, outcome, opIndexToLinkId);
    }

    /** The handler of a failed write. */
    method RecordFailures(batch: seq<Link>, bulkOps: seq<Op>, outcome: BulkOutcome, opIndexToLinkId: seq<nat>)
      requires |opIndexToLinkId| == |bulkOps|
      requires forall k :: 0 <= k < |bulkOps| ==> opIndexToLinkId[k] == bulkOps[k].key.link
      modifies this`failedLinkIds
      ensures failedLinkIds == old(failedLinkIds) + FailedLinks(batch, bulkOps, outcome)
    {
      match outcome {
        case Acknowledged =>
        case WriteErrors(reported, unapplied) =>
          AttributeErrors(batch, bulkOps, reported, unapplied, opIndexToLinkId);
        case Rejected(applied) => AttributeAll(batch, bulkOps, applied);
      }
    }

    /** Each reported index is attributed to the link its operation belongs to. */
    method AttributeErrors(batch: seq<Link>, bulkOps: seq<Op>, reported: seq<nat>, ghost unapplied: set<nat>,
                           opIndexToLinkId: seq<nat>)
      requires |opIndexToLinkId| == |bulkOps|
      requires forall k :: 0 <= k < |bulkOps| ==> opIndexToLinkId[k] == bulkOps[k].key.link
      modifies this`failedLinkIds
      ensures failedLinkIds == old(failedLinkIds) + FailedLinks(batch, bulkOps, WriteErrors(reported, unapplied))
    {
      var w := 0;
      while w < |reported|
        invariant 0 <= w <= |reported|
        invariant failedLinkIds ==
                  old(failedLinkIds) + FailedLinks(batch, bulkOps, WriteErrors(reported[..w], unapplied))
      {
        assert forall k :: k in reported[..w + 1] <==> k in reported[..w] || k == reported[w];
        if reported[w] < |opIndexToLinkId| { failedLinkIds := failedLinkIds + {opIndexToLinkId[reported[w]]}; }
        w := w + 1;
      }
      assert reported[..w] == reported;
    }

    /** A write rejected as a whole fails every link of the batch. */
    method AttributeAll(batch: seq<Link>, bulkOps: seq<Op>, applied: set<nat>)
      modifies this`failedLinkIds
      ensures failedLinkIds == old(failedLinkIds) + FailedLinks(batch, bulkOps, Rejected(applied))
    {
      var w := 0;
      while w < |batch|
        invariant 0 <= w <= |batch|
        invariant failedLinkIds == old(failedLinkIds) + set i | 0 <= i < w :: batch[i].id
      {
        failedLinkIds := failedLinkIds + {batch[w].id};
        w := w + 1;
      }
    }

    /** The cursor loop and the remaining documents. */
    method ProcessAll(batchSize: int, env: Environment) returns (threw: bool)
      modifies this`acl, this`failedLinkIds, this`errors, this`migrated
      ensures State(threw) == RunBatches(old(State(false)), Batches(links, [], batchSize), 0, env)
    {
      var batch: seq<Link> := [];
      var batchIndex, i := 0, 0;
      while i < |links|
        invariant 0 <= i <= |links|
        invariant RunBatches(old(State(false)), Batches(links, [], batchSize), 0, env)
               == RunBatches(State(false), Batches(links[i..], batch, batchSize), batchIndex, env)
      {
        batch := batch + [links[i]];
        assert links[i..][1..] == links[i + 1..];
        i := i + 1;
        if |batch| >= batchSize {
          if env.stopBefore == Some(batchIndex) { return true; }
          threw := ProcessBatch(batch, env.outcome(batchIndex));
          if threw { return; }
          batchIndex := batchIndex + 1;
          batch := [];
        }
      }
      if |batch| > 0 {
        if env.stopBefore == Some(batchIndex) { return true; }
        threw := ProcessBatch(batch, env.outcome(batchIndex));
      } else {
        threw := false;
      }
    }

    method MigrateSharedLinkPermissions(o: Options, env: Environment) returns (r: Report)
      modifies this
      ensures (Store(links, acl), r) == Run(old(Store(links, acl)), o, env)
    {
      if !o.rolesSeeded { return RolesMissing; }
      var isPublicFalseCount := CountNotPublic(links);
      if !o.dryRun && isPublicFalseCount > 0 && !o.force { return Aborted(isPublicFalseCount); }
      if links == [] { return NothingToDo; }
      if o.dryRun { return DryRun; }
      failedLinkIds, errors, migrated := {}, 0, 0;
      var threw := ProcessAll(o.batchSize, env);
      if threw { return Threw; }
      links := Unset(links, failedLinkIds, env);
      if env.unsetFails { return Threw; }
      return Finished(migrated, errors, failedLinkIds);
    }
  }

  lemma {:induction false} MalformedThrows(batch: seq<Link>, i: nat)
    requires i < |batch| && batch[i].user.Malformed?
    ensures BatchOps(batch).None?
    decreases |batch|
  {
    var n := |batch| - 1;
    if i < n { MalformedThrows(batch[..n], i); }
  }

  // ----------------------------------------------------- what a granted operation means

  /** The entry `op` asks for is there, with its role, grantor and expiry. */
  predicate Settled(acl: Acl, op: Op) {
    && op.key in acl && acl[op.key].role == RoleFor(op.key.grantee)
    && (op.grantedBy.Some? ==> acl[op.key].grantedBy == op.grantedBy)
    && (op.expiredAt.Some? ==> acl[op.key].expiredAt == op.expiredAt)
  }

  /** Every grant the link needs is there: its owner owns it, the public may view it when it is marked
      public, both granted by the owner if there is one and with the expiry of the link if it has one. */
  ghost predicate Granted(acl: Acl, l: Link) {
    && (l.user.Known? ==>
          var key := AclKey(l.id, User(l.user.id));
          && key in acl && acl[key].role.OwnerRole? && acl[key].grantedBy == Some(l.user.id)
          && (l.expiredAt.Some? ==> acl[key].expiredAt == l.expiredAt))
    && (l.isPublic.MarkedPublic? ==>
          var key := AclKey(l.id, Everyone);
          && key in acl && acl[key].role.ViewerRole?
          && (l.user.Known? ==> acl[key].grantedBy == Some(l.user.id))
          && (l.expiredAt.Some? ==> acl[key].expiredAt == l.expiredAt))
  }

  ghost predicate OpsSettled(acl: Acl, l: Link) {
    forall op :: op in LinkOps(l) ==> Settled(acl, op)
  }

  /** The operations made for a link ask for exactly that. */
  lemma {:induction false} GrantedIffSettled(acl: Acl, l: Link)
    ensures Granted(acl, l) <==> OpsSettled(acl, l)
  {
    assert forall op :: op in LinkOps(l) <==> op in OwnerOps(l) || op in PublicOps(l);
    if l.user.Known? { assert OwnerOps(l)[0] in LinkOps(l); }
    if l.isPublic.MarkedPublic? { assert PublicOps(l)[0] in LinkOps(l); }
  }

  /** `m` is `l`, possibly after its `isPublic` field was removed. */
  predicate IsOrWas(m: Link, l: Link) { m == l || m == l.(isPublic := Absent) }

  /** A link with the id of `l` in `links` is `l`. */
  ghost predicate Agree(l: Link, links: seq<Link>) {
    forall m :: m in links && m.id == l.id ==> IsOrWas(m, l)
  }

  lemma {:induction false} SameKeySameOp(l: Link, m: Link, op: Op, other: Op)
    requires op in LinkOps(l) && other in LinkOps(m) && op.key == other.key && (m.id == l.id ==> IsOrWas(m, l))
    ensures op == other
  {
  }

  lemma {:induction false} OpsComeFromLinks(links: seq<Link>, ops: seq<Op>, op: Op)
    requires BatchOps(links) == Some(ops)
    ensures op in ops <==> exists l :: l in links && op in LinkOps(l)
    ensures forall l :: l in links ==> !l.user.Malformed?
  {
    if links != [] {
      var n := |links| - 1;
      assert links == links[..n] + [links[n]];
      OpsComeFromLinks(links[..n], BatchOps(links[..n]).value, op);
    }
  }

  lemma {:induction false} ApplyKeepsSettled(acl: Acl, ops: seq<Op>, o: BulkOutcome, op: Op)
    requires forall x :: x in ops && x.key == op.key ==> x == op
    ensures Settled(acl, op) ==> Settled(ApplyOps(acl, ops, o), op)
    ensures forall k :: 0 <= k < |ops| && ops[k] == op && !Skips(o, k) ==> Settled(ApplyOps(acl, ops, o), op)
    ensures op.key in ApplyOps(acl, ops, o) ==> op.key in acl || op in ops
  {
    if ops != [] {
      var n := |ops| - 1;
      assert ops[n] in ops && forall x :: x in ops[..n] ==> x in ops;
      ApplyKeepsSettled(acl, ops[..n], o, op);
    }
  }

  lemma {:induction false} SameKeyInBatch(links: seq<Link>, ops: seq<Op>, l: Link, op: Op)
    requires BatchOps(links) == Some(ops) && op in LinkOps(l) && Agree(l, links)
    ensures forall x :: x in ops && x.key == op.key ==> x == op
  {
    forall x | x in ops && x.key == op.key ensures x == op {
      OpsComeFromLinks(links, ops, x);
      var m :| m in links && x in LinkOps(m);
      SameKeySameOp(l, m, op, x);
    }
  }

  lemma {:induction false} BatchKeepsSettled(p: Progress, links: seq<Link>, o: BulkOutcome, l: Link, op: Op)
    requires op in LinkOps(l) && Agree(l, links) && Settled(p.acl, op)
    ensures Settled(BatchStep(p, links, o).acl, op)
  {
    if BatchOps(links).Some? {
      SameKeyInBatch(links, BatchOps(links).value, l, op);
      ApplyKeepsSettled(p.acl, BatchOps(links).value, o, op);
    }
  }

  /** Every link with a write that did not happen is recorded as failed. */
  ghost predicate Attributed(links: seq<Link>, o: BulkOutcome) {
    BatchOps(links).Some? ==>
      var ops := BatchOps(links).value;
      forall k :: 0 <= k < |ops| && Skips(o, k) ==> ops[k].key.link in FailedLinks(links, ops, o)
  }

  lemma {:induction false} OpsHaveLinks(links: seq<Link>, ops: seq<Op>, k: nat)
    requires BatchOps(links) == Some(ops) && k < |ops|
    ensures exists i :: 0 <= i < |links| && links[i].id == ops[k].key.link && ops[k] in LinkOps(links[i])
  {
    OpsComeFromLinks(links, ops, ops[k]);
    var l :| l in links && ops[k] in LinkOps(l);
    var i :| 0 <= i < |links| && links[i] == l;
  }

  /** When every write that did not happen is reported, it is recorded for the link it belongs to. */
  lemma {:induction false} FailureIsAttributed(links: seq<Link>, o: BulkOutcome)
    requires Honest(o)
    ensures Attributed(links, o)
  {
    if BatchOps(links).Some? {
      var ops := BatchOps(links).value;
      forall k | 0 <= k < |ops| && Skips(o, k) ensures ops[k].key.link in FailedLinks(links, ops, o) {
        OpsHaveLinks(links, ops, k);
      }
    }
  }

  /** A batch that throws no error and records no failure for a link has made its grants. */
  lemma {:induction false} BatchGrants(p: Progress, links: seq<Link>, o: BulkOutcome, l: Link)
    requires Attributed(links, o)
    requires l in links && Agree(l, links) && !BatchStep(p, links, o).threw && l.id !in BatchStep(p, links, o).failed
    ensures Granted(BatchStep(p, links, o).acl, l) && !l.user.Malformed?
  {
    var ops := BatchOps(links).value;
    forall op | op in LinkOps(l) ensures Settled(BatchStep(p, links, o).acl, op) {
      OpsComeFromLinks(links, ops, op);
      SameKeyInBatch(links, ops, l, op);
      ApplyKeepsSettled(p.acl, ops, o, op);
      var k :| 0 <= k < |ops| && ops[k] == op;
      assert ops[k].key.link in FailedLinks(links, ops, o) || !Skips(o, k);
    }
    GrantedIffSettled(BatchStep(p, links, o).acl, l);
    OpsComeFromLinks(links, ops, Op(AclKey(l.id, Everyone), None, None, None));
  }

  /** Links of a batch that are not recorded as failed have all their grants, whatever was there before. */
  ghost predicate BatchIsSafe(links: seq<Link>, o: BulkOutcome) {
    forall acl: Acl, l :: l in links && BatchOps(links).Some? ==>
      var q := BatchStep(Progress(acl, {}, 0, 0, false), links, o);
      l.id !in q.failed ==> Granted(q.acl, l)
  }

  lemma {:induction false} SkippedIsMissing(ops: seq<Op>, o: BulkOutcome, k: nat)
    requires k < |ops| && Skips(o, k) && forall i :: 0 <= i < |ops| && i != k ==> ops[i].key != ops[k].key
    ensures ops[k].key !in ApplyOps(map[], ops, o)
  {
    var n := |ops| - 1;
    if k < n {
      SkippedIsMissing(ops[..n], o, k);
    } else {
      OthersAreMissing(ops[..n], o, ops[k].key);
    }
  }

  lemma {:induction false} OthersAreMissing(ops: seq<Op>, o: BulkOutcome, key: AclKey)
    requires forall i :: 0 <= i < |ops| ==> ops[i].key != key
    ensures key !in ApplyOps(map[], ops, o)
  {
    if ops != [] { OthersAreMissing(ops[..|ops| - 1], o, key); }
  }

  ghost predicate DistinctIds(links: seq<Link>) {
    forall i, j :: 0 <= i < j < |links| ==> links[i].id != links[j].id
  }

  lemma {:induction false} DistinctLinksAgree(links: seq<Link>, i: nat)
    requires DistinctIds(links) && i < |links|
    ensures Agree(links[i], links)
  {
    forall m | m in links && m.id == links[i].id ensures m == links[i] {
      var j :| 0 <= j < |links| && links[j] == m;
    }
  }

  lemma {:induction false} KeysAreDistinct(links: seq<Link>, ops: seq<Op>)
    requires DistinctIds(links) && BatchOps(links) == Some(ops)
    ensures forall i, j :: 0 <= i < j < |ops| ==> ops[i].key != ops[j].key
  {
    if links != [] {
      var n := |links| - 1;
      var l, before := links[n], BatchOps(links[..n]).value;
      KeysAreDistinct(links[..n], before);
      assert ops == before + LinkOps(l);
      forall i | 0 <= i < |before| ensures before[i].key.link != l.id {
        OpsHaveLinks(links[..n], before, i);
      }
    }
  }

  lemma {:induction false} UnattributedIsUnsafe(links: seq<Link>, o: BulkOutcome, ops: seq<Op>, k: nat)
    requires DistinctIds(links) && BatchOps(links) == Some(ops)
    requires k < |ops| && Skips(o, k) && ops[k].key.link !in FailedLinks(links, ops, o)
    ensures !BatchIsSafe(links, o)
  {
    var start := Progress(map[], {}, 0, 0, false);
    OpsHaveLinks(links, ops, k);
    var i :| 0 <= i < |links| && links[i].id == ops[k].key.link && ops[k] in LinkOps(links[i]);
    KeysAreDistinct(links, ops);
    SkippedIsMissing(ops, o, k);
    assert !Settled(BatchStep(start, links, o).acl, ops[k]);
    GrantedIffSettled(BatchStep(start, links, o).acl, links[i]);
    assert links[i] in links && !Granted(BatchStep(start, links, o).acl, links[i]);
  }

  /** Whatever was granted before, a batch without an exception has made the grants of every link not
      recorded as failed, exactly when every write that did not happen belongs to a recorded link. */
  lemma {:induction false} BatchIsSafeIffAttributed(links: seq<Link>, o: BulkOutcome)
    requires DistinctIds(links)
    ensures BatchIsSafe(links, o) <==> Attributed(links, o)
  {
    if BatchOps(links).Some? && !Attributed(links, o) {
      var ops := BatchOps(links).value;
      var k :| 0 <= k < |ops| && Skips(o, k) && ops[k].key.link !in FailedLinks(links, ops, o);
      UnattributedIsUnsafe(links, o, ops, k);
    }
    if BatchOps(links).Some? && Attributed(links, o) {
      forall acl: Acl, l | l in links && l.id !in BatchStep(Progress(acl, {}, 0, 0, false), links, o).failed
        ensures Granted(BatchStep(Progress(acl, {}, 0, 0, false), links, o).acl, l)
      {
        var i :| 0 <= i < |links| && links[i] == l;
        DistinctLinksAgree(links, i);
        BatchGrants(Progress(acl, {}, 0, 0, false), links, o, l);
      }
    }
  }

  lemma {:induction false} NothingApplied(op: Op, o: BulkOutcome)
    requires o == WriteErrors([], {0})
    ensures ApplyOps(map[], [op], o) == map[] && FailedLinks([], [op], o) == {}
  {
    assert [op][..0] == [];
  }

  lemma {:induction false} UnreportedBatch(p: Progress, l: Link, o: BulkOutcome)
    requires l.user.Nobody? && l.isPublic.MarkedPublic? && o == WriteErrors([], {0}) && p.acl == map[] && !p.threw
    ensures BatchStep(p, [l], o) == p.(migrated := p.migrated + 1)
  {
    assert BatchOps([l][..0]) == Some([]) && [] + LinkOps(l) == PublicOps(l);
    NothingApplied(PublicOps(l)[0], o);
  }

  /** A write error that reports no write: the field of a public link is removed without any grant. */
  lemma {:induction false} UnreportedFailureLosesGrant(s: Store, l: Link, env: Environment)
    requires s == Store([l], map[]) && l.user.Nobody? && l.isPublic.MarkedPublic?
    requires env.outcome(0) == WriteErrors([], {0}) && env.stopBefore.None? && !env.unsetFails
    ensures LiveRun(s, 100, env) == (Store([l.(isPublic := Absent)], map[]), Finished(1, 0, {}))
  {
    var start := Progress(map[], {}, 0, 0, false);
    assert [l][1..] == [] && [] + [l] == [l] && [[l]][1..] == [];
    assert Batches([l], [], 100) == [[l]];
    UnreportedBatch(start, l, env.outcome(0));
    assert RunBatches(start, [[l]], 0, env) == start.(migrated := 1);
    assert Unset([l], {}, env) == [l.(isPublic := Absent)];
  }

  // ------------------------------------------------------------------- a whole run

  lemma {:induction false} FailedGrows(p: Progress, bs: seq<seq<Link>>, k: nat, env: Environment)
    ensures p.failed <= RunBatches(p, bs, k, env).failed
    ensures p.threw ==> RunBatches(p, bs, k, env).threw
    decreases |bs|
  {
    if bs != [] { FailedGrows(BatchStep(p, bs[0], env.outcome(k)), bs[1..], k + 1, env); }
  }

  lemma {:induction false} RunKeepsSettled(p: Progress, bs: seq<seq<Link>>, k: nat, env: Environment, l: Link, op: Op)
    requires op in LinkOps(l) && Agree(l, Flatten(bs)) && Settled(p.acl, op)
    ensures Settled(RunBatches(p, bs, k, env).acl, op)
    decreases |bs|
  {
    if bs != [] {
      BatchKeepsSettled(p, bs[0], env.outcome(k), l, op);
      RunKeepsSettled(BatchStep(p, bs[0], env.outcome(k)), bs[1..], k + 1, env, l, op);
    }
  }

  lemma {:induction false} RunKeepsGranted(p: Progress, bs: seq<seq<Link>>, k: nat, env: Environment, l: Link)
    requires Agree(l, Flatten(bs)) && Granted(p.acl, l)
    ensures Granted(RunBatches(p, bs, k, env).acl, l)
  {
    GrantedIffSettled(p.acl, l);
    forall op | op in LinkOps(l) ensures Settled(RunBatches(p, bs, k, env).acl, op) {
      RunKeepsSettled(p, bs, k, env, l, op);
    }
    GrantedIffSettled(RunBatches(p, bs, k, env).acl, l);
  }

  lemma {:induction false} RunGrants(p: Progress, bs: seq<seq<Link>>, k: nat, env: Environment, l: Link)
    requires HonestReports(env)
    requires l in Flatten(bs) && Agree(l, Flatten(bs)) && !RunBatches(p, bs, k, env).threw
    requires l.id !in RunBatches(p, bs, k, env).failed
    ensures Granted(RunBatches(p, bs, k, env).acl, l) && !l.user.Malformed?
    decreases |bs|
  {
    var q := BatchStep(p, bs[0], env.outcome(k));
    FailedGrows(q, bs[1..], k + 1, env);
    if l in bs[0] {
      assert Honest(env.outcome(k));
      FailureIsAttributed(bs[0], env.outcome(k));
      BatchGrants(p, bs[0], env.outcome(k), l);
      RunKeepsGranted(q, bs[1..], k + 1, env, l);
    } else {
      RunGrants(q, bs[1..], k + 1, env, l);
    }
  }

  lemma {:induction false} BatchAddsPublicOnlyIfMarked(p: Progress, links: seq<Link>, o: BulkOutcome, id: nat)
    requires forall m :: m in links && m.id == id ==> !m.isPublic.MarkedPublic?
    ensures AclKey(id, Everyone) in BatchStep(p, links, o).acl ==> AclKey(id, Everyone) in p.acl
  {
    if BatchOps(links).Some? {
      var ops := BatchOps(links).value;
      forall x | x in ops ensures x.key != AclKey(id, Everyone) {
        OpsComeFromLinks(links, ops, x);
      }
      ApplyKeepsSettled(p.acl, ops, o, Op(AclKey(id, Everyone), None, None, None));
    }
  }

  lemma {:induction false} RunAddsPublicOnlyIfMarked(p: Progress, bs: seq<seq<Link>>, k: nat, env: Environment, id: nat)
    requires forall m :: m in Flatten(bs) && m.id == id ==> !m.isPublic.MarkedPublic?
    ensures AclKey(id, Everyone) in RunBatches(p, bs, k, env).acl ==> AclKey(id, Everyone) in p.acl
    decreases |bs|
  {
    if bs != [] {
      BatchAddsPublicOnlyIfMarked(p, bs[0], env.outcome(k), id);
      RunAddsPublicOnlyIfMarked(BatchStep(p, bs[0], env.outcome(k)), bs[1..], k + 1, env, id);
    }
  }

  lemma {:induction false} ApplyKeepsEntries(acl: Acl, ops: seq<Op>, o: BulkOutcome)
    ensures acl.Keys <= ApplyOps(acl, ops, o).Keys
  {
    if ops != [] { ApplyKeepsEntries(acl, ops[..|ops| - 1], o); }
  }

  lemma {:induction false} EntriesStay(p: Progress, bs: seq<seq<Link>>, k: nat, env: Environment)
    ensures p.acl.Keys <= RunBatches(p, bs, k, env).acl.Keys
    decreases |bs|
  {
    if bs != [] {
      if BatchOps(bs[0]).Some? { ApplyKeepsEntries(p.acl, BatchOps(bs[0]).value, env.outcome(k)); }
      EntriesStay(BatchStep(p, bs[0], env.outcome(k)), bs[1..], k + 1, env);
    }
  }

  /** Entries of the link keep the tenant they had in `first`; new ones have the link's. */
  ghost predicate TenantsRight(first: Acl, acl: Acl, l: Link) {
    forall key :: key in acl && key.link == l.id ==>
      acl[key].tenant == if key in first then first[key].tenant else l.tenant
  }

  lemma {:induction false} ApplyKeepsTenants(first: Acl, acl: Acl, ops: seq<Op>, o: BulkOutcome, l: Link)
    requires first.Keys <= acl.Keys && TenantsRight(first, acl, l)
    requires forall op :: op in ops && op.key.link == l.id ==> op.tenant == l.tenant
    ensures first.Keys <= ApplyOps(acl, ops, o).Keys && TenantsRight(first, ApplyOps(acl, ops, o), l)
  {
    if ops != [] {
      var n := |ops| - 1;
      assert ops[n] in ops;
      ApplyKeepsTenants(first, acl, ops[..n], o, l);
    }
  }

  lemma {:induction false} RunKeepsTenants(first: Acl, p: Progress, bs: seq<seq<Link>>, k: nat, env: Environment,
          l: Link)
    requires Agree(l, Flatten(bs)) && first.Keys <= p.acl.Keys && TenantsRight(first, p.acl, l)
    ensures first.Keys <= RunBatches(p, bs, k, env).acl.Keys && TenantsRight(first, RunBatches(p, bs, k, env).acl, l)
    decreases |bs|
  {
    if bs != [] {
      if BatchOps(bs[0]).Some? {
        var ops := BatchOps(bs[0]).value;
        forall op | op in ops && op.key.link == l.id ensures op.tenant == l.tenant {
          OpsComeFromLinks(bs[0], ops, op);
          var m :| m in bs[0] && op in LinkOps(m);
          assert m in Flatten(bs);
        }
        ApplyKeepsTenants(first, p.acl, ops, env.outcome(k), l);
      }
      RunKeepsTenants(first, BatchStep(p, bs[0], env.outcome(k)), bs[1..], k + 1, env, l);
    }
  }

  /** The public owns the link only if it did in `first`, and new entries are for the owner, or for the
      public of a link marked public. */
  ghost predicate GranteesRight(first: Acl, acl: Acl, l: Link) {
    forall key :: key in acl && key.link == l.id ==>
      && (key.grantee.Everyone? && acl[key].role.OwnerRole? ==> key in first && first[key].role.OwnerRole?)
      && (key in first || (key.grantee.Everyone? && l.isPublic.MarkedPublic?) ||
          (l.user.Known? && key.grantee == User(l.user.id)))
  }

  lemma {:induction false} ApplyKeepsGrantees(first: Acl, acl: Acl, ops: seq<Op>, o: BulkOutcome, l: Link)
    requires GranteesRight(first, acl, l)
    requires forall op :: op in ops && op.key.link == l.id ==> op in LinkOps(l)
    ensures GranteesRight(first, ApplyOps(acl, ops, o), l)
  {
    if ops != [] {
      var n := |ops| - 1;
      assert ops[n] in ops;
      ApplyKeepsGrantees(first, acl, ops[..n], o, l);
    }
  }

  lemma {:induction false} RunKeepsGrantees(first: Acl, p: Progress, bs: seq<seq<Link>>, k: nat, env: Environment,
          l: Link)
    requires Agree(l, Flatten(bs)) && GranteesRight(first, p.acl, l)
    ensures GranteesRight(first, RunBatches(p, bs, k, env).acl, l)
    decreases |bs|
  {
    if bs != [] {
      if BatchOps(bs[0]).Some? {
        var ops := BatchOps(bs[0]).value;
        forall op | op in ops && op.key.link == l.id ensures op in LinkOps(l) {
          OpsComeFromLinks(bs[0], ops, op);
          var m :| m in bs[0] && op in LinkOps(m);
          assert m in Flatten(bs);
        }
        ApplyKeepsGrantees(first, p.acl, ops, env.outcome(k), l);
      }
      RunKeepsGrantees(first, BatchStep(p, bs[0], env.outcome(k)), bs[1..], k + 1, env, l);
    }
  }

  lemma {:induction false} ApplyTouchesOps(acl: Acl, ops: seq<Op>, o: BulkOutcome, key: AclKey)
    requires forall op :: op in ops ==> op.key != key
    ensures Get(ApplyOps(acl, ops, o), key) == Get(acl, key)
  {
    if ops != [] {
      assert ops[|ops| - 1] in ops;
      ApplyTouchesOps(acl, ops[..|ops| - 1], o, key);
    }
  }

  /** Entries of anything that is not a link of the collection are left alone. */
  lemma {:induction false} RunTouchesOnlyItsLinks(
    p: Progress, bs: seq<seq<Link>>, k: nat, env: Environment, key: AclKey)
    requires forall l :: l in Flatten(bs) ==> l.id != key.link
    ensures Get(RunBatches(p, bs, k, env).acl, key) == Get(p.acl, key)
    decreases |bs|
  {
    if bs != [] {
      if BatchOps(bs[0]).Some? {
        var ops := BatchOps(bs[0]).value;
        forall op | op in ops ensures op.key != key {
          OpsComeFromLinks(bs[0], ops, op);
          var m :| m in bs[0] && op in LinkOps(m);
          assert m in Flatten(bs);
        }
        ApplyTouchesOps(p.acl, ops, env.outcome(k), key);
      }
      RunTouchesOnlyItsLinks(BatchStep(p, bs[0], env.outcome(k)), bs[1..], k + 1, env, key);
    }
  }

  // ------------------------------------------------------------------- series of runs

  /** What holds of a store that started as `first`, however many runs failed since. */
  ghost predicate SafeSince(first: Store, s: Store) {
    && |s.links| == |first.links| && first.acl.Keys <= s.acl.Keys
    && forall i :: 0 <= i < |first.links| ==> SafeLink(first, s.acl, first.links[i], s.links[i])
  }

  /** The field is removed only when every grant has succeeded, a link marked non-public gains no public
      grant, neither while it is marked nor after the field is gone, nobody but the owner and the public of
      a link marked public gains one, the public never comes to own it, and no entry changes its tenant. */
  ghost predicate SafeLink(first: Store, acl: Acl, was: Link, now: Link) {
    && IsOrWas(now, was)
    && (now != was ==> Granted(acl, was) && !was.user.Malformed?)
    && (!was.isPublic.MarkedPublic? && AclKey(was.id, Everyone) !in first.acl ==> AclKey(was.id, Everyone) !in acl)
    && TenantsRight(first.acl, acl, was) && GranteesRight(first.acl, acl, was)
  }

  lemma {:induction false} AgreeWithCurrent(first: Store, s: Store, i: nat)
    requires DistinctIds(first.links) && SafeSince(first, s) && i < |first.links|
    ensures Agree(first.links[i], s.links) && Agree(s.links[i], s.links)
    ensures forall m :: m in s.links && m.id == first.links[i].id ==> m == s.links[i]
  {
    forall m | m in s.links && m.id == first.links[i].id ensures m == s.links[i] {
      var j :| 0 <= j < |s.links| && s.links[j] == m;
      assert SafeLink(first, s.acl, first.links[j], s.links[j]);
    }
    assert SafeLink(first, s.acl, first.links[i], s.links[i]);
  }

  lemma {:induction false} LiveRunKeepsLinkSafe(first: Store, s: Store, size: int, env: Environment, i: nat)
    requires DistinctIds(first.links) && SafeSince(first, s) && i < |first.links| && HonestReports(env)
    ensures SafeLink(first, LiveRun(s, size, env).0.acl, first.links[i], LiveRun(s, size, env).0.links[i])
  {
    var was, now, bs := first.links[i], s.links[i], Batches(s.links, [], size);
    var start := Progress(s.acl, {}, 0, 0, false);
    var p := RunBatches(start, bs, 0, env);
    var after := LiveRun(s, size, env).0;
    EachLinkIsBatchedOnce(s.links, [], size);
    assert Flatten(bs) == s.links;
    AgreeWithCurrent(first, s, i);
    assert SafeLink(first, s.acl, was, now);
    if now != was {
      RunKeepsGranted(start, bs, 0, env, was);
    } else if after.links[i] != now {
      RunGrants(start, bs, 0, env, now);
    }
    if !was.isPublic.MarkedPublic? { RunAddsPublicOnlyIfMarked(start, bs, 0, env, was.id); }
    RunKeepsTenants(first.acl, start, bs, 0, env, was);
    RunKeepsGrantees(first.acl, start, bs, 0, env, was);
  }

  /** One run of the script, whatever its options and whatever fails, keeps the store safe, as long as
      write errors report every write that did not happen. */
  lemma {:induction false} RunKeepsSafe(first: Store, s: Store, o: Options, env: Environment)
    requires DistinctIds(first.links) && SafeSince(first, s) && HonestReports(env)
    ensures SafeSince(first, Run(s, o, env).0)
  {
    EntriesStay(Progress(s.acl, {}, 0, 0, false), Batches(s.links, [], o.batchSize), 0, env);
    forall i | 0 <= i < |first.links|
      ensures var after := LiveRun(s, o.batchSize, env).0; SafeLink(first, after.acl, first.links[i], after.links[i])
    {
      LiveRunKeepsLinkSafe(first, s, o.batchSize, env, i);
    }
  }

  datatype Attempt = Attempt(options: Options, env: Environment)

  function After(s: Store, attempts: seq<Attempt>): Store {
    if attempts == [] then s else
    var n := |attempts| - 1;
    Run(After(s, attempts[..n]), attempts[n].options, attempts[n].env).0
  }

  /** Over any series of runs with arbitrary failures: a link loses its `isPublic` field only after
      every grant it needs has succeeded, and a link marked non-public never gains a public grant. */
  lemma {:induction false} SafeOverAllRuns(first: Store, attempts: seq<Attempt>)
    requires DistinctIds(first.links) && forall a :: a in attempts ==> HonestReports(a.env)
    ensures SafeSince(first, After(first, attempts))
  {
    if attempts != [] {
      var n := |attempts| - 1;
      SafeOverAllRuns(first, attempts[..n]);
      RunKeepsSafe(first, After(first, attempts[..n]), attempts[n].options, attempts[n].env);
    }
  }

  // --------------------------------------------------------------------- convergence

  ghost predicate NothingFails(env: Environment) {
    (forall k :: env.outcome(k).Acknowledged?) && env.stopBefore.None? && !env.unsetFails
  }

  lemma {:induction false} GoodOwnersGiveOps(links: seq<Link>)
    requires forall l :: l in links ==> !l.user.Malformed?
    ensures BatchOps(links).Some?
  {
    if links != [] {
      assert links[|links| - 1] in links;
      GoodOwnersGiveOps(links[..|links| - 1]);
    }
  }

  lemma {:induction false} QuietBatches(p: Progress, bs: seq<seq<Link>>, k: nat, env: Environment)
    requires NothingFails(env) && !p.threw && forall l :: l in Flatten(bs) ==> !l.user.Malformed?
    ensures var q := RunBatches(p, bs, k, env);
            !q.threw && q.failed == p.failed && q.errors == p.errors && q.migrated == p.migrated + |Flatten(bs)|
    decreases |bs|
  {
    if bs != [] {
      GoodOwnersGiveOps(bs[0]);
      assert env.outcome(k).Acknowledged?;
      QuietBatches(BatchStep(p, bs[0], env.outcome(k)), bs[1..], k + 1, env);
    }
  }

  lemma {:induction false} QuietBatchesGrant(links: seq<Link>, p: Progress, bs: seq<seq<Link>>, env: Environment)
    requires DistinctIds(links) && NothingFails(env) && (forall l :: l in links ==> !l.user.Malformed?)
    requires Flatten(bs) == links && p.failed == {} && !p.threw
    ensures forall i :: 0 <= i < |links| ==> Granted(RunBatches(p, bs, 0, env).acl, links[i])
  {
    QuietBatches(p, bs, 0, env);
    forall i | 0 <= i < |links| ensures Granted(RunBatches(p, bs, 0, env).acl, links[i]) {
      DistinctLinksAgree(links, i);
      RunGrants(p, bs, 0, env, links[i]);
    }
  }

  lemma {:induction false} QuietProgress(s: Store, size: int, env: Environment) returns (p: Progress)
    requires DistinctIds(s.links) && NothingFails(env) && forall l :: l in s.links ==> !l.user.Malformed?
    ensures p == RunBatches(Progress(s.acl, {}, 0, 0, false), Batches(s.links, [], size), 0, env)
    ensures !p.threw && p.failed == {} && p.errors == 0 && p.migrated == |s.links|
    ensures forall i :: 0 <= i < |s.links| ==> Granted(p.acl, s.links[i])
  {
    var bs := Batches(s.links, [], size);
    var start := Progress(s.acl, {}, 0, 0, false);
    EachLinkIsBatchedOnce(s.links, [], size);
    assert Flatten(bs) == s.links;
    QuietBatches(start, bs, 0, env);
    QuietBatchesGrant(s.links, start, bs, env);
    p := RunBatches(start, bs, 0, env);
  }

  /** A live run in which nothing fails completes the migration: every link has its grants and no
      `isPublic` field is left. */
  lemma {:induction false} QuietRunMigratesAll(s: Store, size: int, env: Environment)
    requires DistinctIds(s.links) && NothingFails(env) && forall l :: l in s.links ==> !l.user.Malformed?
    ensures LiveRun(s, size, env).1 == Finished(|s.links|, 0, {})
    ensures var after := LiveRun(s, size, env).0;
            |after.links| == |s.links| &&
            forall i :: 0 <= i < |s.links| ==>
              after.links[i] == s.links[i].(isPublic := Absent) && Granted(after.acl, s.links[i])
  {
    var p := QuietProgress(s, size, env);
  }

  lemma {:induction false} SettledOpsChangeNothing(acl: Acl, ops: seq<Op>, o: BulkOutcome)
    requires forall op :: op in ops ==> Settled(acl, op)
    ensures ApplyOps(acl, ops, o) == acl
  {
    if ops != [] {
      var n := |ops| - 1;
      SettledOpsChangeNothing(acl, ops[..n], o);
      assert ops[n] in ops;
      assert Upsert(acl, ops[n]) == acl;
    }
  }

  lemma {:induction false} SettledBatchesChangeNothing(p: Progress, bs: seq<seq<Link>>, k: nat, env: Environment)
    requires forall l :: l in Flatten(bs) ==> Granted(p.acl, l)
    ensures RunBatches(p, bs, k, env).acl == p.acl
    decreases |bs|
  {
    if bs != [] {
      if BatchOps(bs[0]).Some? {
        var ops := BatchOps(bs[0]).value;
        forall op | op in ops ensures Settled(p.acl, op) {
          OpsComeFromLinks(bs[0], ops, op);
          var l :| l in bs[0] && op in LinkOps(l);
          assert l in Flatten(bs) && Granted(p.acl, l);
          GrantedIffSettled(p.acl, l);
        }
        SettledOpsChangeNothing(p.acl, ops, env.outcome(k));
      }
      SettledBatchesChangeNothing(BatchStep(p, bs[0], env.outcome(k)), bs[1..], k + 1, env);
    }
  }

  lemma {:induction false} MigratedStoreIsStable(t: Store, o: Options, later: Environment)
    requires forall l :: l in t.links ==> Granted(t.acl, l) && l.isPublic == Absent
    ensures Run(t, o, later).0 == t
  {
    var bs := Batches(t.links, [], o.batchSize);
    var start := Progress(t.acl, {}, 0, 0, false);
    EachLinkIsBatchedOnce(t.links, [], o.batchSize);
    assert Flatten(bs) == t.links;
    SettledBatchesChangeNothing(start, bs, 0, later);
    NothingToUnset(t.links, RunBatches(start, bs, 0, later).failed, later);
  }

  lemma {:induction false} NothingToUnset(links: seq<Link>, failed: set<nat>, env: Environment)
    requires forall l :: l in links ==> l.isPublic == Absent
    ensures Unset(links, failed, env) == links
  {
    forall i | 0 <= i < |links| ensures Unset(links, failed, env)[i] == links[i] { assert links[i] in links; }
  }

  /** After such a run every further run changes nothing, whatever fails in it. */
  lemma {:induction false} FurtherRunsChangeNothing(s: Store, size: int, env: Environment, o: Options,
          later: Environment)
    requires DistinctIds(s.links) && NothingFails(env) && forall l :: l in s.links ==> !l.user.Malformed?
    ensures var after := LiveRun(s, size, env).0; Run(after, o, later).0 == after
  {
    var after := LiveRun(s, size, env).0;
    QuietRunMigratesAll(s, size, env);
    forall i | 0 <= i < |after.links| ensures Granted(after.acl, after.links[i]) && after.links[i].isPublic == Absent {
      assert Granted(after.acl, s.links[i]);
      RemovalNeedsNoMore(s.links[i], after.acl);
    }
    MigratedStoreIsStable(after, o, later);
  }

  lemma {:induction false} RemovalNeedsNoMore(l: Link, acl: Acl)
    requires Granted(acl, l)
    ensures Granted(acl, l.(isPublic := Absent))
  {
  }

  /** An owner that is no object id stops a live run before any `isPublic` field is removed. */
  lemma {:induction false} MalformedOwnerStopsRemoval(s: Store, size: int, env: Environment, l: Link)
    requires l in s.links && l.user.Malformed?
    ensures LiveRun(s, size, env).1 == Threw && LiveRun(s, size, env).0.links == s.links
  {
    var bs := Batches(s.links, [], size);
    EachLinkIsBatchedOnce(s.links, [], size);
    assert Flatten(bs) == s.links;
    MalformedThrowsInRun(Progress(s.acl, {}, 0, 0, false), bs, 0, env, l);
  }

  lemma {:induction false} MalformedThrowsInRun(p: Progress, bs: seq<seq<Link>>, k: nat, env: Environment, l: Link)
    requires l in Flatten(bs) && l.user.Malformed?
    ensures RunBatches(p, bs, k, env).threw
    decreases |bs|
  {
    var q := BatchStep(p, bs[0], env.outcome(k));
    if l in bs[0] {
      var i :| 0 <= i < |bs[0]| && bs[0][i] == l;
      MalformedThrows(bs[0], i);
      FailedGrows(q, bs[1..], k + 1, env);
    } else {
      MalformedThrowsInRun(q, bs[1..], k + 1, env, l);
    }
  }
}
