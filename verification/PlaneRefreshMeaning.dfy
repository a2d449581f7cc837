/** What a `resolve` and the refresh it may start come to, told by the stored credential and the replies. */
module PlaneRefreshMeaning {
  import opened Wrappers
  import opened PlaneRefresh

  predicate HasText(s: Option<string>) { s.Some? && |s.value| > 0 }

  predicate Connected(record: Option<Integration>) { record.Some? && HasText(record.value.accessToken) }

  /** An OAuth credential whose expiry is no date, or is over within the safety window. */
  predicate Expiring(k: Setting, i: Integration, now: int) {
    i.oauth && (i.expiry == InvalidDate || (i.expiry.At? && now + k.safetyWindowMs >= i.expiry.ms))
  }

  predicate Refreshable(k: Setting, i: Integration) { HasText(i.refreshToken) && k.oauthConfigured }

  /** The stored credential has to be refreshed, and can be. */
  predicate Due(k: Setting, record: Option<Integration>, now: int) {
    Connected(record) && Expiring(k, record.value, now) && Refreshable(k, record.value)
  }

  // ------------------------------------------------------------- how a call is answered

  /** A new call is refused without a user, and otherwise loads the user's credential; a known one is not
      begun again. */
  lemma {:induction false} BeginLoads(k: Setting, s: State, c: Call)
    ensures var t := Step(k, s, Begin(c));
            && t.store == s.store && t.locks == s.locks && t.refreshes == s.refreshes
            && Get(t.calls, c) == (if c in s.calls then Get(s.calls, c)
                                   else if |c.user| == 0 then Some(Done(Refused(ContextInvalid), None))
                                   else Some(Loading))
  {
    UnseenIsUntouched(s, c);
  }

  /** A call whose user's record was read starts a refresh, with the user's lock, exactly when the credential
      is due and the lock free; it joins the refresh that holds the lock exactly when one does. */
  lemma {:induction false} LoadedRefreshesIff(k: Setting, s: State, c: Call, ok: bool, now: int)
    requires Inv(s) && Get(s.calls, c) == Some(Loading)
    ensures var t, record := Step(k, s, Loaded(c, ok, now)), Get(s.store, c.user);
            && t.store == s.store
            && (ok && Due(k, record, now) && c.user !in s.locks <==>
                  && record.Some? && Get(t.refreshes, c) == Some(Requesting(record.value))
                  && Get(t.locks, c.user) == Some(c) && Get(t.calls, c) == Some(Awaiting(c)))
            && (ok && Due(k, record, now) && c.user in s.locks <==>
                  Get(t.calls, c).Some? && t.calls[c].Awaiting? && Get(s.locks, c.user) == Some(t.calls[c].owner))
  {
    assert CallFollows(s, c) && LockedByOwner(s, c.user);
    UnseenIsUntouched(s, c);
    WrittenIsSeen(s, c, OnLoaded(k, c, See(s, c), ok, now));
  }

  /** The answer of a call that has one. */
  function AnswerOf(phase: Option<Phase>): Option<Outcome> {
    if phase.Some? && phase.value.Done? then Some(phase.value.outcome) else None
  }

  /** Otherwise the call is answered at once. */
  lemma {:induction false} LoadedAnswersIff(k: Setting, c: Call, v: View, ok: bool, now: int)
    requires v.phase == Some(Loading)
    ensures var answer := AnswerOf(OnLoaded(k, c, v, ok, now).phase);
            && (answer.Some? <==> !(ok && Due(k, v.record, now)))
            && (answer == Some(Refused(StoreFailed)) <==> !ok)
            && (answer == Some(Refused(NotConnected)) <==> ok && !Connected(v.record))
            && (answer == Some(Refused(ReauthRequired)) <==>
                  ok && Connected(v.record) && Expiring(k, v.record.value, now) && !Refreshable(k, v.record.value))
            && (ok && Connected(v.record) && !Expiring(k, v.record.value, now) <==>
                  v.record.Some? && answer == Some(Resolved(v.record.value)))
  {
  }

  /** And nothing else changes. */
  lemma {:induction false} AnsweringChangesNothingElse(k: Setting, s: State, c: Call, ok: bool, now: int)
    requires Get(s.calls, c) == Some(Loading) && !(ok && Due(k, Get(s.store, c.user), now))
    ensures var t := Step(k, s, Loaded(c, ok, now));
            t == s.(calls := t.calls) && Get(t.calls, c) == OnLoaded(k, c, See(s, c), ok, now).phase
  {
    LoadedAnswersIff(k, c, See(s, c), ok, now);
    UnseenIsUntouched(s, c);
  }

  /** A call that waits for a settled refresh is answered with its outcome when it continues, and the one that
      started it gives the lock back. */
  lemma {:induction false} ResumeDelivers(k: Setting, s: State, c: Call, o: Call, r: Outcome)
    requires Inv(s) && Get(s.calls, c) == Some(Awaiting(o)) && Get(s.refreshes, o) == Some(Settled(r))
    ensures var t := Step(k, s, Resume(c));
            && Get(t.calls, c) == Some(Done(r, Some(o))) && t.store == s.store && t.refreshes == s.refreshes
            && (if c == o then c.user in s.locks && c.user !in t.locks else t.locks == s.locks)
  {
    assert RefreshHeld(s, c) && CallFollows(s, c);
    UnseenIsUntouched(s, c);
    WrittenIsSeen(s, c, Act(k, c, See(s, c), Resume(c)));
  }

  // ------------------------------------------------------------- the steps of a refresh

  /** The reply gives no lifetime, or one that ends within the days a JavaScript Date can hold. */
  predicate DateFits(reply: Reply, now: int) {
    reply.Granted? &&
    (reply.expiresIn.None? || reply.expiresIn == Some(0)
     || -8_640_000_000_000_000 <= now + 1000 * reply.expiresIn.value <= 8_640_000_000_000_000)
  }

  function Chosen(given: Option<string>, otherwise: Option<string>): Option<string> {
    if HasText(given) then given else otherwise
  }

  /** The credential a granted reply makes of a stored one: tokens and expiry of the reply where it has them,
      everything else as stored. */
  ghost predicate Renews(i: Integration, reply: Reply, now: int, j: Integration)
    requires reply.Granted?
  {
    && j.oauth && j.others == i.others
    && j.accessToken == Chosen(reply.accessToken, i.accessToken)
    && j.refreshToken == Chosen(reply.refreshToken, i.refreshToken)
    && j.expiry ==
       if reply.expiresIn.Some? && reply.expiresIn.value != 0 then At(now + 1000 * reply.expiresIn.value) else i.expiry
  }

  predicate FailedAt(s: State, c: Call) { Get(s.refreshes, c) == Some(Settled(Refused(ReauthRequired))) }

  /** The reply of the token endpoint fails the refresh exactly when it is an error or gives no date. */
  lemma {:induction false} ReplyFailsIff(k: Setting, s: State, c: Call, i: Integration, reply: Reply, now: int)
    requires Get(s.refreshes, c) == Some(Requesting(i))
    ensures var t := Step(k, s, TokenReply(c, reply, now));
            && (FailedAt(t, c) <==> !DateFits(reply, now))
            && (DateFits(reply, now) ==>
                  Get(t.refreshes, c) == Some(ReadingExisting(FieldsOf(reply, i, now).value)))
            && t.store == s.store && t.locks == s.locks && t.calls == s.calls
  {
    UnseenIsUntouched(s, c);
    WrittenIsSeen(s, c, Act(k, c, See(s, c), TokenReply(c, reply, now)));
  }

  /** Storing the renewed credential fails exactly when the stored record cannot be read, or there is none and
      no token to store. */
  lemma {:induction false} ReadFailsIff(k: Setting, s: State, c: Call, f: Fields, ok: bool)
    requires Get(s.refreshes, c) == Some(ReadingExisting(f))
    ensures var t := Step(k, s, ExistingRead(c, ok));
            && (FailedAt(t, c) <==>
                  !ok || (c.user !in s.store && !HasText(f.accessToken) && !HasText(f.refreshToken)))
            && (!FailedAt(t, c) ==> Get(t.refreshes, c) == Some(Writing(Get(s.store, c.user), f)))
            && t.store == s.store && t.locks == s.locks && t.calls == s.calls
  {
    UnseenIsUntouched(s, c);
    WrittenIsSeen(s, c, Act(k, c, See(s, c), ExistingRead(c, ok)));
  }

  lemma {:induction false} WriteFailsIff(k: Setting, s: State, c: Call, existing: Option<Integration>, f: Fields,
          ok: bool)
    requires Get(s.refreshes, c) == Some(Writing(existing, f))
    ensures var t := Step(k, s, Written(c, ok));
            && (FailedAt(t, c) <==> !ok)
            && (ok ==> Get(t.refreshes, c) == Some(Reloading) && Get(t.store, c.user) == Some(Merged(existing, f)))
            && (!ok ==> t.store == s.store) && t.locks == s.locks && t.calls == s.calls
  {
    UnseenIsUntouched(s, c);
    WrittenIsSeen(s, c, Act(k, c, See(s, c), Written(c, ok)));
  }

  /** The refresh succeeds with what is stored in the end, exactly when that can be read and has a token. */
  lemma {:induction false} ReloadSucceedsIff(k: Setting, s: State, c: Call, ok: bool)
    requires Get(s.refreshes, c) == Some(Reloading)
    ensures var t, record := Step(k, s, Reloaded(c, ok)), Get(s.store, c.user);
            && (if ok && Connected(record) then Get(t.refreshes, c) == Some(Settled(Resolved(record.value)))
                else FailedAt(t, c))
            && t.store == s.store && t.locks == s.locks && t.calls == s.calls
  {
    UnseenIsUntouched(s, c);
    WrittenIsSeen(s, c, Act(k, c, See(s, c), Reloaded(c, ok)));
  }

  lemma {:induction false} MergedRenews(i: Integration, reply: Reply, now: int)
    requires DateFits(reply, now)
    ensures FieldsOf(reply, i, now).Some? && Renews(i, reply, now, Merged(Some(i), FieldsOf(reply, i, now).value))
  {
  }

  // ---------------------------------------------------------------- a refresh as a whole

  /** The four steps of a refresh that nothing disturbs. */
  function Refreshed(k: Setting, s: State, c: Call, reply: Reply, now: int): State {
    Step(k, Step(k, Step(k, Step(k, s, TokenReply(c, reply, now)), ExistingRead(c, true)), Written(c, true)),
         Reloaded(c, true))
  }

  /** An undisturbed refresh that is granted stores the renewed credential and settles with it. */
  lemma {:induction false} UndisturbedRefreshRenews(k: Setting, s: State, c: Call, i: Integration, reply: Reply,
          now: int)
    requires Get(s.refreshes, c) == Some(Requesting(i)) && Get(s.store, c.user) == Some(i)
    requires HasText(i.accessToken) && DateFits(reply, now)
    ensures var t := Refreshed(k, s, c, reply, now);
            && Get(t.store, c.user).Some? && Renews(i, reply, now, Get(t.store, c.user).value)
            && Get(t.refreshes, c) == Some(Settled(Resolved(Get(t.store, c.user).value)))
            && t.locks == s.locks && t.calls == s.calls
  {
    MergedRenews(i, reply, now);
    var f := FieldsOf(reply, i, now).value;
    var s1 := Step(k, s, TokenReply(c, reply, now));
    var s2 := Step(k, s1, ExistingRead(c, true));
    var s3 := Step(k, s2, Written(c, true));
    ReplyFailsIff(k, s, c, i, reply, now);
    ReadFailsIff(k, s1, c, f, true);
    WriteFailsIff(k, s2, c, Some(i), f, true);
    ReloadSucceedsIff(k, s3, c, true);
  }

  /** A call that finds its user's credential due, no refresh of it being under way, is answered with the
      renewed credential, which is then stored, and the lock is free again. */
  lemma {:induction false} DueCredentialIsRenewed(k: Setting, s: State, c: Call, loaded: int, reply: Reply, now: int)
    requires Inv(s) && Get(s.calls, c) == Some(Loading) && c.user !in s.locks
    requires Due(k, Get(s.store, c.user), loaded) && DateFits(reply, now)
    ensures var t := Step(k, Refreshed(k, Step(k, s, Loaded(c, true, loaded)), c, reply, now), Resume(c));
            && Get(t.store, c.user).Some? && Renews(s.store[c.user], reply, now, t.store[c.user])
            && Get(t.calls, c) == Some(Done(Resolved(t.store[c.user]), Some(c))) && c.user !in t.locks
  {
    var s0 := Step(k, s, Loaded(c, true, loaded));
    var i := s.store[c.user];
    LoadedRefreshesIff(k, s, c, true, loaded);
    UndisturbedRefreshRenews(k, s0, c, i, reply, now);
    RefreshedKeepsInv(k, s, c, loaded, reply, now);
    var s4 := Refreshed(k, s0, c, reply, now);
    ResumeDelivers(k, s4, c, c, Resolved(s4.store[c.user]));
  }

  lemma {:induction false} RefreshedKeepsInv(k: Setting, s: State, c: Call, loaded: int, reply: Reply, now: int)
    requires Inv(s)
    ensures Inv(Refreshed(k, Step(k, s, Loaded(c, true, loaded)), c, reply, now))
  {
    var s0 := Step(k, s, Loaded(c, true, loaded));
    var s1 := Step(k, s0, TokenReply(c, reply, now));
    var s2 := Step(k, s1, ExistingRead(c, true));
    var s3 := Step(k, s2, Written(c, true));
    StepKeepsInv(k, s, Loaded(c, true, loaded));
    StepKeepsInv(k, s0, TokenReply(c, reply, now));
    StepKeepsInv(k, s1, ExistingRead(c, true));
    StepKeepsInv(k, s2, Written(c, true));
    StepKeepsInv(k, s3, Reloaded(c, true));
  }
}
