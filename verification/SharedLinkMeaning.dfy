/** When a run of the shared-link migration writes at all, which of its writes happen, and which fields it
    removes. */
module SharedLinkMeaning {
  import opened Wrappers
  import opened SharedLinkMigration

  /** The links marked non-public. */
  function MarkedNonPublic(links: seq<Link>): set<nat> {
    set i | 0 <= i < |links| && links[i].isPublic == NotPublic
  }

  lemma {:induction false} CountIsCardinality(links: seq<Link>)
    ensures CountNotPublic(links) == |MarkedNonPublic(links)|
  {
    if links != [] {
      var n := |links| - 1;
      CountIsCardinality(links[..n]);
      assert MarkedNonPublic(links) == MarkedNonPublic(links[..n]) + if links[n].isPublic == NotPublic then {n} else {};
    }
  }

  /** A live run that is not held back by links marked non-public. */
  predicate GoesAhead(s: Store, o: Options) {
    o.rolesSeeded && !o.dryRun && (o.force || forall i :: 0 <= i < |s.links| ==> s.links[i].isPublic != NotPublic)
  }

  lemma {:induction false} NoneMarked(links: seq<Link>)
    ensures CountNotPublic(links) == 0 <==> forall i :: 0 <= i < |links| ==> links[i].isPublic != NotPublic
  {
    CountIsCardinality(links);
    if |MarkedNonPublic(links)| == 0 {
      forall i | 0 <= i < |links| ensures links[i].isPublic != NotPublic { assert i !in MarkedNonPublic(links); }
    } else {
      var i :| i in MarkedNonPublic(links);
    }
  }

  /** Missing roles are an error; a live run is aborted while links are marked non-public, unless forced, and says how
      many; a dry run and one over no links write nothing either.  Every other run is live. */
  lemma {:induction false} ReportIs(s: Store, o: Options, env: Environment)
    ensures var (after, report) := Run(s, o, env);
            && (report == RolesMissing <==> !o.rolesSeeded)
            && (report.Aborted? <==> o.rolesSeeded && !o.dryRun && !GoesAhead(s, o))
            && (report.Aborted? ==> report.count == |MarkedNonPublic(s.links)|)
            && (report == NothingToDo <==> s.links == [] && o.rolesSeeded && (o.dryRun || GoesAhead(s, o)))
            && (report == DryRun <==> s.links != [] && o.rolesSeeded && o.dryRun)
            && (after, report) == if GoesAhead(s, o) && s.links != [] then LiveRun(s, o.batchSize, env) else (s, report)
  {
    CountIsCardinality(s.links);
    NoneMarked(s.links);
  }

  /** The write happens: the bulk write was acknowledged, or did not fail for it. */
  predicate Happens(o: BulkOutcome, k: nat) {
    o.Acknowledged? || (o.WriteErrors? && k !in o.unapplied) || (o.Rejected? && k in o.applied)
  }

  /** Of the operations of a batch exactly those whose write happens have an effect. */
  lemma {:induction false} WritesThatHappen(acl: Acl, ops: seq<Op>, o: BulkOutcome, k: nat)
    requires k < |ops| && forall i :: 0 <= i < |ops| && i != k ==> ops[i].key != ops[k].key
    ensures Get(ApplyOps(acl, ops, o), ops[k].key) ==
            if Happens(o, k) then Some(Upsert(acl, ops[k])[ops[k].key]) else Get(acl, ops[k].key)
  {
    var n := |ops| - 1;
    if k < n {
      WritesThatHappen(acl, ops[..n], o, k);
    } else {
      ApplyTouchesOps(acl, ops[..n], o, ops[k].key);
    }
  }

  /** What is granted: the role of the grantee, the grantor and expiry given, else those that were there; the tenant
      is set on insertion only. */
  lemma {:induction false} UpsertGives(acl: Acl, op: Op)
    ensures var e := Upsert(acl, op)[op.key];
            && (e.role == OwnerRole <==> op.key.grantee != Everyone)
            && (op.grantedBy.Some? ==> e.grantedBy == op.grantedBy)
            && (op.expiredAt.Some? ==> e.expiredAt == op.expiredAt)
            && (op.key in acl ==> e.tenant == acl[op.key].tenant)
            && (op.key in acl && op.grantedBy.None? ==> e.grantedBy == acl[op.key].grantedBy)
            && (op.key in acl && op.expiredAt.None? ==> e.expiredAt == acl[op.key].expiredAt)
            && (op.key !in acl ==> e.tenant == op.tenant && e.grantedBy == op.grantedBy && e.expiredAt == op.expiredAt)
  {
  }

  /** A live run that does not throw before its last step removes the field of every link it has recorded no failure
      for; when that last update fails, of those it reached. */
  lemma {:induction false} FieldsAreRemoved(s: Store, size: int, env: Environment, i: nat)
    requires i < |s.links| && !RunBatches(Progress(s.acl, {}, 0, 0, false), Batches(s.links, [], size), 0, env).threw
    ensures var (after, report) := LiveRun(s, size, env);
            var failed := RunBatches(Progress(s.acl, {}, 0, 0, false), Batches(s.links, [], size), 0, env).failed;
            && |after.links| == |s.links|
            && (s.links[i].id in failed ==> after.links[i] == s.links[i])
            && (s.links[i].id !in failed && !env.unsetFails ==> after.links[i] == s.links[i].(isPublic := Absent))
            && (s.links[i].id !in failed && env.unsetFails && env.unsetReaches(s.links[i].id) ==>
                  after.links[i] == s.links[i].(isPublic := Absent))
            && (env.unsetFails && !env.unsetReaches(s.links[i].id) ==> after.links[i] == s.links[i])
            && (report.Finished? <==> !env.unsetFails) && (report.Finished? ==> report.failed == failed)
  {
  }

  /** A stop, or an owner that is no object id, ends the run before any field is removed. */
  lemma {:induction false} ThrowingKeepsFields(s: Store, size: int, env: Environment)
    requires RunBatches(Progress(s.acl, {}, 0, 0, false), Batches(s.links, [], size), 0, env).threw
    ensures LiveRun(s, size, env).1 == Threw && LiveRun(s, size, env).0.links == s.links
  {
  }
}
