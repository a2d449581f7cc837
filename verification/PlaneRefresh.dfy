/** Single-flight refresh of Plane OAuth credentials, as the steps between awaits of any number of
    concurrent `resolve` calls under an arbitrary scheduler.  A promise is named by the call that
    created it; remote replies, clocks and storage failures are inputs of the steps. */
module PlaneRefresh {
  import opened Wrappers

  datatype Expiry = NoExpiry | InvalidDate | At(ms: int)

  datatype Integration = Integration(oauth: bool, accessToken: Option<string>, refreshToken: Option<string>,
                                     expiry: Expiry, others: map<string, string>)

  datatype Reply =
    | Granted(accessToken: Option<string>, refreshToken: Option<string>, expiresIn: Option<int>)
    | ReplyFailed

  datatype Error = ContextInvalid | NotConnected | ReauthRequired | StoreFailed

  datatype Outcome = Resolved(integration: Integration) | Refused(error: Error)

  /** One call of `resolve`: the application user it is made for, and which one it is. */
  datatype Call = Call(user: string, number: nat)

  /** Where a call is suspended.  `via` is the refresh whose outcome it returned. */
  datatype Phase = Loading | Awaiting(owner: Call) | Done(outcome: Outcome, via: Option<Call>)

  /** What a refresh saves. */
  datatype Fields = Fields(accessToken: Option<string>, refreshToken: Option<string>, expiry: Expiry)

  datatype Stage =
    | Requesting(integration: Integration)
    | ReadingExisting(fields: Fields)
    | Writing(existing: Option<Integration>, fields: Fields)
    | Reloading
    | Settled(outcome: Outcome)

  datatype State = State(store: map<string, Integration>, locks: map<string, Call>, calls: map<Call, Phase>,
                         refreshes: map<Call, Stage>)

  const INITIAL := State(map[], map[], map[], map[])

  datatype Setting = Setting(safetyWindowMs: int, oauthConfigured: bool)

  predicate Truthy(s: Option<string>) { s.Some? && s.value != "" }

  predicate NeedsRefresh(k: Setting, i: Integration, now: int) {
    i.oauth && !i.expiry.NoExpiry? && (i.expiry.InvalidDate? || i.expiry.ms <= now + k.safetyWindowMs)
  }

  /** The fields saved for a reply; None when the expiry is no date, which fails the refresh. */
  function FieldsOf(r: Reply, i: Integration, now: int): Option<Fields>
    requires r.Granted?
  {
    var refreshToken := if r.refreshToken.Some? then r.refreshToken else i.refreshToken;
    if r.expiresIn.None? || r.expiresIn.value == 0 then Some(Fields(r.accessToken, refreshToken, NoExpiry))
    else
      var at := now + r.expiresIn.value * 1000;
      if -8_640_000_000_000_000 <= at <= 8_640_000_000_000_000 then Some(Fields(r.accessToken, refreshToken, At(at)))
      else None
  }

  /** `saveIntegration`: given fields replace, missing ones keep what was stored. */
  function Merged(existing: Option<Integration>, f: Fields): Integration {
    Integration(true,
      if Truthy(f.accessToken) then f.accessToken else if existing.Some? then existing.value.accessToken else None,
      if Truthy(f.refreshToken) then f.refreshToken else if existing.Some? then existing.value.refreshToken else None,
      if !f.expiry.NoExpiry? then f.expiry else if existing.Some? then existing.value.expiry else NoExpiry,
      if existing.Some? then existing.value.others else map[])
  }

  predicate Saveable(existing: Option<Integration>, f: Fields) {
    existing.Some? || Truthy(f.accessToken) || Truthy(f.refreshToken)
  }

  // ------------------------------------------------------------------------- steps

  datatype Event =
    | Begin(call: Call)                                  // resolve is called
    | Loaded(call: Call, ok: bool, now: int)             // getIntegration answers
    | TokenReply(call: Call, reply: Reply, now: int)     // the token endpoint answers the refresh
    | ExistingRead(call: Call, ok: bool)                 // saveIntegration reads the stored record
    | Written(call: Call, ok: bool)                      // saveIntegration writes the merged record
    | Reloaded(call: Call, ok: bool)                     // the refresh reads the record back
    | Resume(call: Call)                                 // a call awaiting a settled refresh continues
    | External(call: Call, record: Option<Integration>)  // anything else changes the record of call.user

  /** What a step at call `c` can see: the record and lock of its user, its own phase and refresh, and
      the refresh it awaits. */
  datatype View = View(record: Option<Integration>, owner: Option<Call>, phase: Option<Phase>, stage: Option<Stage>,
                       awaited: Option<Stage>)

  function See(s: State, c: Call): View {
    View(Get(s.store, c.user), Get(s.locks, c.user), Get(s.calls, c), Get(s.refreshes, c),
         if c in s.calls && s.calls[c].Awaiting? then Get(s.refreshes, s.calls[c].owner) else None)
  }

  function Write(s: State, c: Call, v: View): State {
    State(Put(s.store, c.user, v.record), Put(s.locks, c.user, v.owner), Put(s.calls, c, v.phase),
          Put(s.refreshes, c, v.stage))
  }

  function OnLoaded(k: Setting, c: Call, v: View, ok: bool, now: int): View {
    if !ok then v.(phase := Some(Done(Refused(StoreFailed), None)))
    else if v.record.None? || !Truthy(v.record.value.accessToken)
    then v.(phase := Some(Done(Refused(NotConnected), None)))
    else if !NeedsRefresh(k, v.record.value, now) then v.(phase := Some(Done(Resolved(v.record.value), None)))
    else if !Truthy(v.record.value.refreshToken) || !k.oauthConfigured
    then v.(phase := Some(Done(Refused(ReauthRequired), None)))
    else if v.owner.Some? then v.(phase := Some(Awaiting(v.owner.value)))
    else v.(phase := Some(Awaiting(c)), stage := Some(Requesting(v.record.value)), owner := Some(c))
  }

  /** The next stage of a refresh whose last request was answered. */
  function OnAnswer(v: View, e: Event): Option<Stage>
    requires v.stage.Some?
  {
    var failed := Some(Settled(Refused(ReauthRequired)));
    match v.stage.value
    case Requesting(i) =>
      if !e.TokenReply? then v.stage
      else if e.reply.ReplyFailed? || FieldsOf(e.reply, i, e.now).None? then failed
      else Some(ReadingExisting(FieldsOf(e.reply, i, e.now).value))
    case ReadingExisting(f) =>
      if !e.ExistingRead? then v.stage
      else if !e.ok || !Saveable(v.record, f) then failed
      else Some(Writing(v.record, f))
    case Writing(_, _) =>
      if !e.Written? then v.stage else if !e.ok then failed else Some(Reloading)
    case Reloading =>
      if !e.Reloaded? then v.stage
      else if e.ok && v.record.Some? && Truthy(v.record.value.accessToken) then Some(Settled(Resolved(v.record.value)))
      else failed
    case Settled(_) => v.stage
  }

  /** What the event does to what its call can see; an event that does not fit what the call is waiting
      for does nothing. */
  function Act(k: Setting, c: Call, v: View, e: Event): View {
    match e
    case Begin(_) =>
      if v.phase.Some? then v
      else v.(phase := Some(if c.user == "" then Done(Refused(ContextInvalid), None) else Loading))
    case Loaded(_, ok, now) => if v.phase == Some(Loading) then OnLoaded(k, c, v, ok, now) else v
    case Resume(_) =>
      if v.phase.Some? && v.phase.value.Awaiting? && v.awaited.Some? && v.awaited.value.Settled? then
        var owner := v.phase.value.owner;
        v.(phase := Some(Done(v.awaited.value.outcome, Some(owner))),
           owner := if c == owner && v.owner == Some(owner) then None else v.owner)
      else v
    case External(_, record) => v.(record := record)
    case Written(_, ok) =>
      if v.stage.Some? && v.stage.value.Writing? then
        v.(stage := OnAnswer(v, e),
           record := if ok then Some(Merged(v.stage.value.existing, v.stage.value.fields)) else v.record)
      else v
    case _ => if v.stage.Some? then v.(stage := OnAnswer(v, e)) else v
  }

  function Step(k: Setting, s: State, e: Event): State {
    Write(s, e.call, Act(k, e.call, See(s, e.call), e))
  }

  lemma {:induction false} UnseenIsUntouched(s: State, c: Call)
    ensures Put(s.store, c.user, See(s, c).record) == s.store && Put(s.locks, c.user, See(s, c).owner) == s.locks
    ensures Put(s.calls, c, See(s, c).phase) == s.calls && Put(s.refreshes, c, See(s, c).stage) == s.refreshes
  {
    PutSame(s.store, c.user);
    PutSame(s.locks, c.user);
    PutSame(s.calls, c);
    PutSame(s.refreshes, c);
  }

  function Run(k: Setting, es: seq<Event>): State {
    if es == [] then INITIAL else Step(k, Run(k, es[..|es| - 1]), es[|es| - 1])
  }

  // --------------------------------------------------------------------- the service

  class PlaneCredentialService {
    const setting: Setting
    var store: map<string, Integration>
    var refreshLocks: map<string, Call>
    var calls: map<Call, Phase>
    var refreshes: map<Call, Stage>

    ghost function Current(): State
      reads this
    {
      State(store, refreshLocks, calls, refreshes)
    }

    constructor (setting: Setting)
      ensures this.setting == setting && Current() == INITIAL
    {
      this.setting := setting;
      store, refreshLocks, calls, refreshes := map[], map[], map[], map[];
    }

    method Resolve(c: Call)
      modifies this`calls
      ensures Current() == Step(setting, old(Current()), Begin(c))
    {
      UnseenIsUntouched(Current(), c);
      if c in calls { return; }
      calls := calls[c := if c.user == "" then Done(Refused(ContextInvalid), None) else Loading];
    }

    /** The rest of `resolve` up to its next await, and `refresh` up to the first await of the new
        promise. */
    method OnLoaded(c: Call, ok: bool, now: int)
      modifies this`calls, this`refreshLocks, this`refreshes
      ensures Current() == Step(setting, old(Current()), Loaded(c, ok, now))
    {
      UnseenIsUntouched(Current(), c);
      if !(c in calls && calls[c] == Loading) { return; }
      if !ok { calls := calls[c := Done(Refused(StoreFailed), None)]; return; }
      if !(c.user in store && Truthy(store[c.user].accessToken)) {
        calls := calls[c := Done(Refused(NotConnected), None)];
        return;
      }
      var integration := store[c.user];
      if !NeedsRefresh(setting, integration, now) {
        calls := calls[c := Done(Resolved(integration), None)];
        return;
      }
      if !Truthy(integration.refreshToken) || !setting.oauthConfigured {
        calls := calls[c := Done(Refused(ReauthRequired), None)];
        return;
      }
      if c.user in refreshLocks {
        calls := calls[c := Awaiting(refreshLocks[c.user])];
        return;
      }
      refreshes := refreshes[c := Requesting(integration)];
      refreshLocks := refreshLocks[c.user := c];
      calls := calls[c := Awaiting(c)];
    }

    method OnTokenReply(c: Call, reply: Reply, now: int)
      modifies this`refreshes
      ensures Current() == Step(setting, old(Current()), TokenReply(c, reply, now))
    {
      UnseenIsUntouched(Current(), c);
      if !(c in refreshes && refreshes[c].Requesting?) { return; }
      var fields := if reply.ReplyFailed? then None else FieldsOf(reply, refreshes[c].integration, now);
      var stage := if fields.None? then Settled(Refused(ReauthRequired)) else ReadingExisting(fields.value);
      refreshes := refreshes[c := stage];
    }

    method OnExistingRead(c: Call, ok: bool)
      modifies this`refreshes
      ensures Current() == Step(setting, old(Current()), ExistingRead(c, ok))
    {
      UnseenIsUntouched(Current(), c);
      if !(c in refreshes && refreshes[c].ReadingExisting?) { return; }
      var existing := Get(store, c.user);
      if !ok || !Saveable(existing, refreshes[c].fields) {
        refreshes := refreshes[c := Settled(Refused(ReauthRequired))];
      } else {
        refreshes := refreshes[c := Writing(existing, refreshes[c].fields)];
      }
    }

    method OnWritten(c: Call, ok: bool)
      modifies this`refreshes, this`store
      ensures Current() == Step(setting, old(Current()), Written(c, ok))
    {
      UnseenIsUntouched(Current(), c);
      if !(c in refreshes && refreshes[c].Writing?) { return; }
      if !ok { refreshes := refreshes[c := Settled(Refused(ReauthRequired))]; return; }
      store := store[c.user := Merged(refreshes[c].existing, refreshes[c].fields)];
      refreshes := refreshes[c := Reloading];
    }

    method OnReloaded(c: Call, ok: bool)
      modifies this`refreshes
      ensures Current() == Step(setting, old(Current()), Reloaded(c, ok))
    {
      UnseenIsUntouched(Current(), c);
      if !(c in refreshes && refreshes[c].Reloading?) { return; }
      if ok && c.user in store && Truthy(store[c.user].accessToken) {
        refreshes := refreshes[c := Settled(Resolved(store[c.user]))];
      } else {
        refreshes := refreshes[c := Settled(Refused(ReauthRequired))];
      }
    }

    /** The continuation after `await refresh`; the owner's `finally` removes its lock. */
    method OnResume(c: Call)
      modifies this`calls, this`refreshLocks
      ensures Current() == Step(setting, old(Current()), Resume(c))
    {
      UnseenIsUntouched(Current(), c);
      if !(c in calls && calls[c].Awaiting?) { return; }
      var owner := calls[c].owner;
      if !(owner in refreshes && refreshes[owner].Settled?) { return; }
      if c == owner && c.user in refreshLocks && refreshLocks[c.user] == owner {
        refreshLocks := refreshLocks - {c.user};
      }
      calls := calls[c := Done(refreshes[owner].outcome, Some(owner))];
    }
  }

  // -------------------------------------------------------------------- the invariant

  ghost predicate LockedByOwner(s: State, u: string) {
    u in s.locks ==> var o := s.locks[u]; o.user == u && o in s.refreshes && Get(s.calls, o) == Some(Awaiting(o))
  }

  ghost predicate RefreshHeld(s: State, o: Call) {
    o in s.refreshes ==>
      && o in s.calls && (s.calls[o] == Awaiting(o) || (s.calls[o].Done? && s.calls[o].via == Some(o)))
      && (s.calls[o] == Awaiting(o) ==> Get(s.locks, o.user) == Some(o))
  }

  ghost predicate CallFollows(s: State, c: Call) {
    c in s.calls ==>
      match s.calls[c]
      case Loading => c !in s.refreshes
      case Awaiting(o) => o.user == c.user && o in s.refreshes
      case Done(r, via) =>
        if via.Some? then via.value.user == c.user && Get(s.refreshes, via.value) == Some(Settled(r))
        else c !in s.refreshes
  }

  ghost predicate Inv(s: State) {
    && (forall u :: LockedByOwner(s, u))
    && (forall o :: RefreshHeld(s, o))
    && (forall c :: CallFollows(s, c))
  }

  /** Advancing a refresh that is not settled. */
  lemma {:induction false} StageKeepsInv(s: State, c: Call, stage: Stage)
    requires Inv(s) && c in s.refreshes && !s.refreshes[c].Settled?
    ensures Inv(s.(refreshes := s.refreshes[c := stage]))
  {
    var t := s.(refreshes := s.refreshes[c := stage]);
    assert CallFollows(s, c) && RefreshHeld(s, c);
    forall u ensures LockedByOwner(t, u) { assert LockedByOwner(s, u); }
    forall o ensures RefreshHeld(t, o) { assert RefreshHeld(s, o); }
    forall d ensures CallFollows(t, d) { assert CallFollows(s, d); }
  }

  lemma {:induction false} StoreKeepsInv(s: State, store: map<string, Integration>)
    requires Inv(s)
    ensures Inv(s.(store := store))
  {
    var t := s.(store := store);
    forall u ensures LockedByOwner(t, u) { assert LockedByOwner(s, u); }
    forall o ensures RefreshHeld(t, o) { assert RefreshHeld(s, o); }
    forall d ensures CallFollows(t, d) { assert CallFollows(s, d); }
  }

  /** A call that awaits no refresh and starts none. */
  lemma {:induction false} PlainCallKeepsInv(s: State, c: Call, phase: Phase)
    requires Inv(s) && (c in s.calls ==> s.calls[c] == Loading)
    requires phase == Loading || (phase.Done? && phase.via.None?)
    ensures Inv(s.(calls := s.calls[c := phase]))
  {
    var t := s.(calls := s.calls[c := phase]);
    assert RefreshHeld(s, c) && CallFollows(s, c);
    forall u ensures LockedByOwner(t, u) { assert LockedByOwner(s, u); }
    forall o ensures RefreshHeld(t, o) { assert RefreshHeld(s, o); }
    forall d ensures CallFollows(t, d) { assert CallFollows(s, d); }
  }

  lemma {:induction false} JoinKeepsInv(s: State, c: Call)
    requires Inv(s) && c in s.calls && s.calls[c] == Loading && c.user in s.locks
    ensures Inv(s.(calls := s.calls[c := Awaiting(s.locks[c.user])]))
  {
    var t := s.(calls := s.calls[c := Awaiting(s.locks[c.user])]);
    assert RefreshHeld(s, c) && CallFollows(s, c) && LockedByOwner(s, c.user);
    forall u ensures LockedByOwner(t, u) { assert LockedByOwner(s, u); }
    forall o ensures RefreshHeld(t, o) { assert RefreshHeld(s, o); }
    forall d ensures CallFollows(t, d) { assert CallFollows(s, d); }
  }

  lemma {:induction false} StartKeepsInv(s: State, c: Call, i: Integration)
    requires Inv(s) && c in s.calls && s.calls[c] == Loading && c.user !in s.locks
    ensures Inv(s.(calls := s.calls[c := Awaiting(c)], refreshes := s.refreshes[c := Requesting(i)],
                   locks := s.locks[c.user := c]))
  {
    var t := s.(calls := s.calls[c := Awaiting(c)], refreshes := s.refreshes[c := Requesting(i)],
                locks := s.locks[c.user := c]);
    assert RefreshHeld(s, c) && CallFollows(s, c);
    forall u ensures LockedByOwner(t, u) { assert LockedByOwner(s, u); }
    forall o ensures RefreshHeld(t, o) { assert RefreshHeld(s, o); }
    forall d ensures CallFollows(t, d) { assert CallFollows(s, d); }
  }

  function Resumed(s: State, c: Call, owner: Call, o: Outcome): State {
    s.(calls := s.calls[c := Done(o, Some(owner))],
       locks := if c == owner && Get(s.locks, c.user) == Some(owner) then s.locks - {c.user} else s.locks)
  }

  lemma {:induction false} ResumeKeepsInv(s: State, c: Call, o: Call)
    requires Inv(s) && c in s.calls && s.calls[c] == Awaiting(o) && o in s.refreshes && s.refreshes[o].Settled?
    ensures Inv(Resumed(s, c, o, s.refreshes[o].outcome))
  {
    var t := Resumed(s, c, o, s.refreshes[o].outcome);
    assert RefreshHeld(s, c) && CallFollows(s, c) && RefreshHeld(s, o);
    forall u ensures LockedByOwner(t, u) { assert LockedByOwner(s, u); }
    forall p ensures RefreshHeld(t, p) { assert RefreshHeld(s, p); }
    forall d ensures CallFollows(t, d) { assert CallFollows(s, d); }
  }

  lemma {:induction false} LoadedKeepsInv(k: Setting, s: State, c: Call, ok: bool, now: int)
    requires Inv(s) && c in s.calls && s.calls[c] == Loading
    ensures Inv(Write(s, c, OnLoaded(k, c, See(s, c), ok, now)))
  {
    var v := OnLoaded(k, c, See(s, c), ok, now);
    UnseenIsUntouched(s, c);
    if v.phase.value.Done? {
      PlainCallKeepsInv(s, c, v.phase.value);
    } else if c.user in s.locks {
      JoinKeepsInv(s, c);
    } else {
      StartKeepsInv(s, c, s.store[c.user]);
    }
  }

  lemma {:induction false} AnswerKeepsInv(k: Setting, s: State, e: Event)
    requires Inv(s) && (e.TokenReply? || e.ExistingRead? || e.Written? || e.Reloaded?)
    ensures Inv(Step(k, s, e))
  {
    var c := e.call;
    var v := Act(k, c, See(s, c), e);
    UnseenIsUntouched(s, c);
    if c in s.refreshes && !s.refreshes[c].Settled? {
      StageKeepsInv(s, c, v.stage.value);
      StoreKeepsInv(s.(refreshes := s.refreshes[c := v.stage.value]), Put(s.store, c.user, v.record));
    }
  }

  lemma {:induction false} StepKeepsInv(k: Setting, s: State, e: Event)
    requires Inv(s)
    ensures Inv(Step(k, s, e))
  {
    var c := e.call;
    var v := Act(k, c, See(s, c), e);
    UnseenIsUntouched(s, c);
    match e {
      case Begin(_) => if c !in s.calls { PlainCallKeepsInv(s, c, v.phase.value); }
      case Loaded(_, ok, now) => if c in s.calls && s.calls[c] == Loading { LoadedKeepsInv(k, s, c, ok, now); }
      case Resume(_) =>
        if c in s.calls && s.calls[c].Awaiting? {
          var o := s.calls[c].owner;
          if o in s.refreshes && s.refreshes[o].Settled? { ResumeKeepsInv(s, c, o); }
        }
      case External(_, record) => StoreKeepsInv(s, Put(s.store, c.user, record));
      case _ => AnswerKeepsInv(k, s, e);
    }
  }

  /** The invariant of every interleaving. */
  lemma {:induction false} EveryScheduleKeepsInv(k: Setting, es: seq<Event>)
    ensures Inv(Run(k, es))
  {
    if es != [] {
      EveryScheduleKeepsInv(k, es[..|es| - 1]);
      StepKeepsInv(k, Run(k, es[..|es| - 1]), es[|es| - 1]);
    }
  }

  // -------------------------------------------------------------------- main results

  predicate Outstanding(s: State, o: Call) { o in s.refreshes && !s.refreshes[o].Settled? }

  /** Under every interleaving at most one refresh per user is outstanding, and its lock is held. */
  lemma {:induction false} AtMostOneRefreshPerUser(k: Setting, es: seq<Event>, o: Call, p: Call)
    requires Outstanding(Run(k, es), o) && Outstanding(Run(k, es), p) && o.user == p.user
    ensures o == p && Get(Run(k, es).locks, o.user) == Some(o)
  {
    var s := Run(k, es);
    EveryScheduleKeepsInv(k, es);
    assert RefreshHeld(s, o) && RefreshHeld(s, p) && CallFollows(s, o) && CallFollows(s, p);
  }

  /** Every call that took part in a refresh made for its user gets the outcome its owner gets. */
  lemma {:induction false} JoinersGetTheOwnersOutcome(k: Setting, es: seq<Event>, c: Call, o: Call)
    requires c in Run(k, es).calls && Run(k, es).calls[c].Done? && Run(k, es).calls[c].via == Some(o)
    ensures var s := Run(k, es);
            && o.user == c.user && o in s.calls && o in s.refreshes && s.refreshes[o] == Settled(s.calls[c].outcome)
            && (s.calls[o].Done? ==> s.calls[o].outcome == s.calls[c].outcome)
  {
    var s := Run(k, es);
    EveryScheduleKeepsInv(k, es);
    assert CallFollows(s, c) && CallFollows(s, o) && RefreshHeld(s, o);
  }

  /** Once the owner has its outcome, success or failure, its lock is gone; when no call is waiting no
      lock is left. */
  lemma {:induction false} LockIsGoneAfterwards(k: Setting, es: seq<Event>)
    ensures var s := Run(k, es); forall o :: o in s.calls && s.calls[o].Done? ==> Get(s.locks, o.user) != Some(o)
    ensures var s := Run(k, es); (forall c :: c in s.calls ==> s.calls[c].Done?) ==> s.locks == map[]
  {
    var s := Run(k, es);
    EveryScheduleKeepsInv(k, es);
    forall o | o in s.calls && s.calls[o].Done? ensures Get(s.locks, o.user) != Some(o) {
      assert LockedByOwner(s, o.user);
    }
    if forall c :: c in s.calls ==> s.calls[c].Done? {
      forall u ensures u !in s.locks { assert LockedByOwner(s, u); }
    }
  }

  /** Two states agree on everything that belongs to user `u`. */
  ghost predicate Agree(s: State, t: State, u: string) {
    && Get(s.store, u) == Get(t.store, u) && Get(s.locks, u) == Get(t.locks, u)
    && forall c: Call :: c.user == u ==> AgreeOn(s, t, c)
  }

  predicate AgreeOn(s: State, t: State, c: Call) {
    Get(s.calls, c) == Get(t.calls, c) && Get(s.refreshes, c) == Get(t.refreshes, c)
  }

  lemma {:induction false} OthersAreUntouched(k: Setting, s: State, e: Event, u: string)
    requires e.call.user != u
    ensures Agree(Step(k, s, e), s, u)
  {
  }

  lemma {:induction false} OtherCallsAreUntouched(k: Setting, s: State, e: Event, d: Call)
    requires d != e.call
    ensures AgreeOn(Step(k, s, e), s, d)
  {
  }

  lemma {:induction false} WrittenIsSeen(s: State, c: Call, v: View)
    ensures var t := Write(s, c, v);
            && Get(t.store, c.user) == v.record && Get(t.locks, c.user) == v.owner
            && Get(t.calls, c) == v.phase && Get(t.refreshes, c) == v.stage
  {
  }

  lemma {:induction false} SameView(s: State, t: State, c: Call)
    requires Agree(s, t, c.user) && CallFollows(s, c)
    ensures See(s, c) == See(t, c)
  {
    assert AgreeOn(s, t, c);
    if c in s.calls && s.calls[c].Awaiting? { assert AgreeOn(s, t, s.calls[c].owner); }
  }

  lemma {:induction false} SameStepSameEffect(k: Setting, s: State, t: State, e: Event, u: string)
    requires Inv(s) && e.call.user == u && Agree(s, t, u)
    ensures Agree(Step(k, s, e), Step(k, t, e), u)
  {
    var c, s', t' := e.call, Step(k, s, e), Step(k, t, e);
    assert CallFollows(s, c);
    SameView(s, t, c);
    WrittenIsSeen(s, c, Act(k, c, See(s, c), e));
    WrittenIsSeen(t, c, Act(k, c, See(t, c), e));
    forall d: Call | d.user == u ensures AgreeOn(s', t', d) {
      if d != c {
        OtherCallsAreUntouched(k, s, e, d);
        OtherCallsAreUntouched(k, t, e, d);
        assert AgreeOn(s, t, d);
      }
    }
  }

  function Of(es: seq<Event>, u: string): seq<Event> {
    if es == [] then [] else
    Of(es[..|es| - 1], u) + if es[|es| - 1].call.user == u then [es[|es| - 1]] else []
  }

  /** Users do not affect one another: in every interleaving everything a user has, calls, refreshes,
      lock and stored credential, is what the user's own steps alone would have produced. */
  lemma {:induction false} UsersAreIsolated(k: Setting, es: seq<Event>, u: string)
    ensures Agree(Run(k, es), Run(k, Of(es, u)), u)
  {
    if es != [] {
      var n := |es| - 1;
      var s, t := Run(k, es[..n]), Run(k, Of(es[..n], u));
      UsersAreIsolated(k, es[..n], u);
      EveryScheduleKeepsInv(k, es[..n]);
      if es[n].call.user == u {
        SameStepSameEffect(k, s, t, es[n], u);
        LastOf(k, Of(es[..n], u), es[n]);
        assert Of(es, u) == Of(es[..n], u) + [es[n]];
      } else {
        assert Of(es, u) == Of(es[..n], u);
        OthersAreUntouched(k, s, es[n], u);
        AgreeTransitive(Step(k, s, es[n]), s, t, u);
      }
    }
  }

  lemma {:induction false} LastOf(k: Setting, es: seq<Event>, e: Event)
    ensures Run(k, es + [e]) == Step(k, Run(k, es), e)
  {
    assert (es + [e])[..|es|] == es;
  }

  lemma {:induction false} AgreeTransitive(r: State, s: State, t: State, u: string)
    requires Agree(r, s, u) && Agree(s, t, u)
    ensures Agree(r, t, u)
  {
    forall c: Call | c.user == u ensures AgreeOn(r, t, c) { assert AgreeOn(r, s, c) && AgreeOn(s, t, c); }
  }

  /** A credential handed out without a refresh is the stored one and is no OAuth credential that
      expires within the safety window. */
  lemma {:induction false} NothingStaleWithoutRefresh(k: Setting, c: Call, v: View, ok: bool, now: int, i: Integration)
    requires OnLoaded(k, c, v, ok, now).phase == Some(Done(Resolved(i), None)) && v.phase == Some(Loading)
    ensures v.record == Some(i) && Truthy(i.accessToken)
    ensures i.oauth && i.expiry.At? ==> now + k.safetyWindowMs < i.expiry.ms
  {
  }
}
