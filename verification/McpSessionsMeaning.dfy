/** What the calls of an MCP client come to, told by the users they are made for and the answers of the server. */
module McpSessionsMeaning {
  import opened Wrappers
  import opened McpSessions

  /** The user a call names, none being the empty name. */
  function UserName(c: Call): string { match c.user case None => "" case Some(u) => u }

  /** Only the HRM server tells users apart. */
  lemma {:induction false} ScopeIsUser(server: string, c: Call, d: Call)
    ensures Scope(server, c) == Scope(server, d) <==> server != "hrm" || UserName(c) == UserName(d)
    ensures server == "hrm" ==> Scope(server, c) == UserName(c)
    ensures server != "hrm" ==> Scope(server, c) == "default"
  {
  }

  function SessionOf(server: string, s: State, c: Call): Option<string> { Get(s.sessions, Scope(server, c)) }

  predicate Busy(server: string, s: State, c: Call) { Scope(server, c) in s.initializations }

  /** The answer has this session id, which is not empty. */
  predicate Gives(r: Reply, id: string) { r.Headers? && r.session == Some(id) && |id| > 0 }

  predicate GivesNone(r: Reply) { r.Headers? && (r.session.None? || |r.session.value| == 0) }

  /** The HRM server is sent a session id only in requests for the user whom it gave it to. */
  lemma {:induction false} SessionsStayWithTheirUser(es: seq<Event>, c: Call, id: string)
    requires c in Run("hrm", es).calls && SentBy(Run("hrm", es).calls[c]) == Some(id)
    ensures exists i :: 0 <= i < |es| && HandsTo(es[i], UserName(c), id)
  {
    var scope := Scope("hrm", c);
    SessionIdsStayInScope("hrm", es, c);
    var i :| 0 <= i < |es| && Delivers("hrm", es[i], scope, id);
    ScopeIsUser("hrm", c, es[i].call);
    assert HandsTo(es[i], UserName(c), id);
  }

  predicate HandsTo(e: Event, user: string, id: string) {
    UserName(e.call) == user && (e.InitReply? || e.CallReply?) && e.reply == Headers(Some(id))
  }

  // ------------------------------------------------------------------ how a call proceeds

  /** A new call goes on at once exactly when its scope has a session, joins the initialisation of its scope
      exactly when one runs and there is no session, and else starts one, which gets the entry. */
  lemma {:induction false} BeginIff(server: string, s: State, c: Call)
    requires Inv(server, s) && c !in s.calls
    ensures var t, known := Step(server, s, Begin(c)), SessionOf(server, s, c).Some?;
            && t.sessions == s.sessions && c in t.calls
            && (t.calls[c] == Ready <==> known)
            && (t.calls[c].Awaiting? <==> !known)
            && (!known && Busy(server, s, c) ==>
                  t == s.(calls := t.calls) && t.calls[c] == Awaiting(s.initializations[Scope(server, c)]))
            && (!known && !Busy(server, s, c) ==>
                  && t.calls[c] == Awaiting(c) && Get(t.inits, c) == Some(InitSent(None))
                  && Get(t.initializations, Scope(server, c)) == Some(c))
  {
    assert AwaitsOwnScope(server, s, c);
    UnseenIsUntouched(server, s, c);
    WrittenIsSeen(server, s, c, OnBegin(c, See(server, s, c)));
  }

  /** A call that waits for an initialisation goes on when that is over: with its error, or by sending its own
      request under the session then known. */
  lemma {:induction false} ResumeIff(server: string, s: State, c: Call)
    requires c in s.calls && (s.calls[c] == Ready || s.calls[c].Awaiting?)
    ensures var t := Step(server, s, Resume(c));
            var end := if s.calls[c].Awaiting? then Get(s.inits, s.calls[c].owner) else None;
            && t == s.(calls := t.calls) && c in t.calls
            && (s.calls[c] == Ready ==> t.calls[c] == Calling(SessionOf(server, s, c), None))
            && (s.calls[c].Awaiting? ==>
                  var o := s.calls[c].owner;
                  && (end == Some(Settled(None)) ==> t.calls[c] == Calling(SessionOf(server, s, c), Some(o)))
                  && (forall e :: end == Some(Settled(Some(e))) ==> t.calls[c] == Rejected(e, o))
                  && ((end.Some? ==> !end.value.Settled?) ==> t == s))
  {
    UnseenIsUntouched(server, s, c);
    WrittenIsSeen(server, s, c, OnResume(See(server, s, c)));
  }

  /** Headers keep the session id they give, if any; an unreachable server fails the call. */
  lemma {:induction false} CallReplyKeepsSession(server: string, s: State, c: Call, r: Reply)
    requires c in s.calls && s.calls[c].Calling?
    ensures var t, was := Step(server, s, CallReply(c, r)), s.calls[c];
            && t.inits == s.inits && t.initializations == s.initializations
            && (r.NoReply? ==> t.sessions == s.sessions && Get(t.calls, c) == Some(Done(Failed(r.error), was.via)))
            && (r.Headers? ==> Get(t.calls, c) == Some(ReadingBody(was.sent, was.via)))
            && (forall id :: Gives(r, id) ==> SessionOf(server, t, c) == Some(id))
            && (GivesNone(r) ==> t.sessions == s.sessions)
  {
    UnseenIsUntouched(server, s, c);
    WrittenIsSeen(server, s, c, OnCallReply(See(server, s, c), r));
  }

  lemma {:induction false} CallTextEnds(server: string, s: State, c: Call, outcome: Outcome)
    requires c in s.calls && s.calls[c].ReadingBody?
    ensures Step(server, s, CallText(c, outcome)) == s.(calls := s.calls[c := Done(outcome, s.calls[c].via)])
  {
    UnseenIsUntouched(server, s, c);
  }

  // ------------------------------------------------------------- the steps of an initialisation

  /** `initialize` or `notifications/initialized` is in flight. */
  predicate Sent(s: State, o: Call) { o in s.inits && (s.inits[o].InitSent? || s.inits[o].NotifySent?) }

  predicate Reading(s: State, o: Call) { o in s.inits && (s.inits[o].InitBody? || s.inits[o].NotifyBody?) }

  /** The initialisation is over, with this error if any, and the entry of its scope is gone. */
  predicate Over(server: string, s: State, o: Call, error: Option<string>) {
    Get(s.inits, o) == Some(Settled(error)) && !Busy(server, s, o)
  }

  /** An answer with headers is read on and keeps the session id given; no answer ends the initialisation. */
  lemma {:induction false} InitReplyKeepsSession(server: string, s: State, o: Call, r: Reply)
    requires Sent(s, o)
    ensures var t := Step(server, s, InitReply(o, r));
            && t.calls == s.calls
            && (r.NoReply? ==> Over(server, t, o, Some(r.error)) && t.sessions == s.sessions)
            && (r.Headers? ==> Reading(t, o) && (s.inits[o].InitSent? <==> t.inits[o].InitBody?)
                               && t.initializations == s.initializations)
            && (forall id :: Gives(r, id) ==> SessionOf(server, t, o) == Some(id))
            && (GivesNone(r) ==> t.sessions == s.sessions)
  {
    UnseenIsUntouched(server, s, o);
    WrittenIsSeen(server, s, o, OnInitReply(See(server, s, o), r));
  }

  /** A body with an error ends the initialisation with it; after the first body without one the notification is
      sent under the session then known, after the second the initialisation has succeeded. */
  lemma {:induction false} InitTextProceeds(server: string, s: State, o: Call, error: Option<string>)
    requires Reading(s, o)
    ensures var t := Step(server, s, InitText(o, error));
            && t.calls == s.calls && t.sessions == s.sessions
            && (error.Some? ==> Over(server, t, o, error))
            && (error.None? && s.inits[o].InitBody? ==> Get(t.inits, o) == Some(NotifySent(SessionOf(server, s, o)))
                                                        && t.initializations == s.initializations)
            && (error.None? && s.inits[o].NotifyBody? ==> Over(server, t, o, None))
  {
    UnseenIsUntouched(server, s, o);
    WrittenIsSeen(server, s, o, OnInitText(See(server, s, o), error));
  }

  // -------------------------------------------------------------------- a call as a whole

  /** The first call of a scope up to its tool request, nothing disturbing it: the initialisation is answered
      with the headers `r1` and `r2`. */
  function Initialised(server: string, s: State, c: Call, r1: Reply, r2: Reply): State {
    Step(server, Step(server, Step(server, Step(server, Step(server, s,
      Begin(c)), InitReply(c, r1)), InitText(c, None)), InitReply(c, r2)), InitText(c, None))
  }

  /** The session id that two answers leave. */
  function LastGiven(r1: Reply, r2: Reply): Option<string>
    requires r1.Headers? && r2.Headers?
  {
    if !GivesNone(r2) then r2.session else if !GivesNone(r1) then r1.session else None
  }

  /** It then sends its request under the last session id it was given, and is answered with the result. */
  lemma {:induction false} FirstCallIsAnswered(server: string, s: State, c: Call, r1: Reply, r2: Reply,
          outcome: Outcome)
    requires Inv(server, s) && c !in s.calls && SessionOf(server, s, c).None? && !Busy(server, s, c)
    requires r1.Headers? && r2.Headers?
    ensures var sent := Step(server, Initialised(server, s, c, r1, r2), Resume(c));
            && Get(sent.calls, c) == Some(Calling(LastGiven(r1, r2), Some(c)))
            && SessionOf(server, sent, c) == LastGiven(r1, r2) && !Busy(server, sent, c)
            && var done := Step(server, Step(server, sent, CallReply(c, Headers(None))), CallText(c, outcome));
               Get(done.calls, c) == Some(Done(outcome, Some(c)))
  {
    var s0 := Step(server, s, Begin(c));
    var s1 := Step(server, s0, InitReply(c, r1));
    var s2 := Step(server, s1, InitText(c, None));
    var s3 := Step(server, s2, InitReply(c, r2));
    var s4 := Step(server, s3, InitText(c, None));
    BeginIff(server, s, c);
    InitReplyKeepsSession(server, s0, c, r1);
    InitTextProceeds(server, s1, c, None);
    InitReplyKeepsSession(server, s2, c, r2);
    InitTextProceeds(server, s3, c, None);
    assert !GivesNone(r1) ==> Gives(r1, r1.session.value);
    assert !GivesNone(r2) ==> Gives(r2, r2.session.value);
    ResumeIff(server, s4, c);
    var sent := Step(server, s4, Resume(c));
    CallReplyKeepsSession(server, sent, c, Headers(None));
    CallTextEnds(server, Step(server, sent, CallReply(c, Headers(None))), c, outcome);
  }

  // ------------------------------------------------------------ success, answer by answer

  /** Headers of an answer to a request of the initialisation of `o`, or a body without an error. */
  predicate GoodHeaders(e: Event, o: Call) { e.InitReply? && e.call == o && e.reply.Headers? }

  predicate GoodBody(e: Event, o: Call) { e.InitText? && e.call == o && e.error == None }

  lemma {:induction false} LatestAnswer(es: seq<Event>, o: Call) returns (i: nat)
    requires Answered(es, o) > 0
    ensures i < |es| && Answered(es[..i], o) == Answered(es, o) - 1
    ensures if Answered(es, o) % 2 == 1 then GoodHeaders(es[i], o) else GoodBody(es[i], o)
  {
    var n := |es| - 1;
    if Answered(es[..n], o) < Answered(es, o) {
      i := n;
    } else {
      i := LatestAnswer(es[..n], o);
      assert es[..n][..i] == es[..i];
    }
  }

  /** An initialisation that has succeeded was answered with headers, a body, headers and a body without error, in
      that order. */
  lemma {:induction false} SuccessNeedsFourAnswers(server: string, es: seq<Event>, o: Call)
    returns (i: nat, j: nat, k: nat, l: nat)
    requires Get(Run(server, es).inits, o) == Some(Settled(None))
    ensures i < j < k < l < |es|
    ensures GoodHeaders(es[i], o) && GoodBody(es[j], o) && GoodHeaders(es[k], o) && GoodBody(es[l], o)
  {
    SuccessNeedsBothRequests(server, es, o);
    l := LatestAnswer(es, o);
    k := LatestAnswer(es[..l], o);
    assert es[..l][..k] == es[..k];
    j := LatestAnswer(es[..k], o);
    assert es[..k][..j] == es[..j];
    i := LatestAnswer(es[..j], o);
  }

  // ------------------------------------------------- tools without an initialised session

  /** The call sends its own request, or has sent it, without having waited for an initialisation. */
  predicate WentOn(phase: Phase) {
    phase == Ready || ((phase.Calling? || phase.ReadingBody? || phase.Done?) && phase.via.None?)
  }

  /** Event `i` begins the call, and its scope has a session then. */
  predicate BeganKnown(server: string, es: seq<Event>, c: Call, i: nat)
    requires i < |es|
  {
    var s := Run(server, es[..i]);
    es[i] == Begin(c) && c !in s.calls && SessionOf(server, s, c).Some?
  }

  lemma {:induction false} ActKeepsWay(c: Call, v: View, e: Event)
    requires e.call == c && (v.phase.None? ==> v.stage.None?)
    ensures var w := Act(c, v, e).phase;
            if v.phase.Some? then w.Some? && (WentOn(w.value) <==> WentOn(v.phase.value))
            else w.Some? ==> e.Begin? && (WentOn(w.value) <==> v.session.Some?)
  {
  }

  lemma {:induction false} StepKeepsWay(server: string, s: State, e: Event, c: Call)
    requires Inv(server, s) && c in Step(server, s, e).calls
    ensures var t := Step(server, s, e);
            if c in s.calls then WentOn(t.calls[c]) <==> WentOn(s.calls[c])
            else e == Begin(c) && (WentOn(t.calls[c]) <==> SessionOf(server, s, c).Some?)
  {
    StepView(server, s, c, e);
    assert AwaitsOwnScope(server, s, c);
    if e.call == c { ActKeepsWay(c, See(server, s, c), e); }
  }

  ghost predicate SomeBeganKnown(server: string, es: seq<Event>, c: Call) {
    exists i :: 0 <= i < |es| && BeganKnown(server, es, c, i)
  }

  lemma {:induction false} LastBegan(server: string, es: seq<Event>, e: Event, c: Call)
    ensures var s := Run(server, es);
            SomeBeganKnown(server, es + [e], c) <==>
            SomeBeganKnown(server, es, c) || (e == Begin(c) && c !in s.calls && SessionOf(server, s, c).Some?)
  {
    var all := es + [e];
    forall i | 0 <= i < |es| ensures BeganKnown(server, all, c, i) <==> BeganKnown(server, es, c, i) {
      assert all[..i] == es[..i];
    }
    assert all[..|es|] == es;
    assert BeganKnown(server, all, c, |es|) ==> SomeBeganKnown(server, all, c);
    if i :| 0 <= i < |all| && BeganKnown(server, all, c, i) { assert i < |es| || i == |es|; }
    if i :| 0 <= i < |es| && BeganKnown(server, es, c, i) { assert BeganKnown(server, all, c, i); }
  }

  /** A call goes on without waiting exactly when its scope had a session as it began. */
  lemma {:induction false} GoesOnIff(server: string, es: seq<Event>, c: Call)
    requires c in Run(server, es).calls
    ensures WentOn(Run(server, es).calls[c]) <==> SomeBeganKnown(server, es, c)
  {
    var init, e := es[..|es| - 1], es[|es| - 1];
    assert es == init + [e];
    EveryScheduleKeepsInv(server, init);
    StepKeepsWay(server, Run(server, init), e, c);
    LastBegan(server, init, e, c);
    if c in Run(server, init).calls {
      GoesOnIff(server, init, c);
    } else {
      NotBegunBefore(server, init, c);
    }
  }

  lemma {:induction false} CallsStay(server: string, es: seq<Event>, n: nat, c: Call)
    requires n <= |es| && c in Run(server, es[..n]).calls
    ensures c in Run(server, es).calls
    decreases |es|
  {
    if n < |es| {
      var init := es[..|es| - 1];
      assert init[..n] == es[..n];
      CallsStay(server, init, n, c);
      StepView(server, Run(server, init), c, es[|es| - 1]);
      if es[|es| - 1].call == c {
        EveryScheduleKeepsInv(server, init);
        ActKeepsWay(c, See(server, Run(server, init), c), es[|es| - 1]);
      }
    } else {
      assert es[..n] == es;
    }
  }

  lemma {:induction false} NotBegunBefore(server: string, es: seq<Event>, c: Call)
    requires c !in Run(server, es).calls
    ensures forall i :: 0 <= i < |es| ==> !BeganKnown(server, es, c, i)
  {
    forall i | 0 <= i < |es| ensures !BeganKnown(server, es, c, i) {
      if BeganKnown(server, es, c, i) {
        assert es[..i + 1][..i] == es[..i];
        EveryScheduleKeepsInv(server, es[..i]);
        BeginIff(server, Run(server, es[..i]), c);
        CallsStay(server, es, i + 1, c);
      }
    }
  }

  predicate Initialises(s: State, o: Call) { Get(s.inits, o) == Some(Settled(None)) }

  /** Any other call has sent its request after an initialisation of its scope that succeeded. */
  lemma {:induction false} OthersWaited(server: string, es: seq<Event>, c: Call)
    requires c in Run(server, es).calls && !WentOn(Run(server, es).calls[c])
    ensures var phase := Run(server, es).calls[c];
            phase.Calling? || phase.ReadingBody? || phase.Done? ==>
              phase.via.Some? && Initialises(Run(server, es), phase.via.value)
              && Scope(server, phase.via.value) == Scope(server, c)
  {
    EveryScheduleKeepsInv(server, es);
    assert AwaitsOwnScope(server, Run(server, es), c);
  }

  /** Going on is not safe: the session id that the answer to `initialize` gives is kept, and lets every later
      call of the scope through even when that initialisation fails. */
  lemma {:induction false} FailedInitialisationLetsCallsThrough(server: string, s: State, c: Call, d: Call, id: string,
          error: string)
    requires Inv(server, s) && c !in s.calls && d !in s.calls && c != d && Scope(server, c) == Scope(server, d)
    requires SessionOf(server, s, c).None? && !Busy(server, s, c) && id != ""
    ensures var failed := AfterFailure(server, s, c, id, error);
            var t := Step(server, Step(server, failed, Begin(d)), Resume(d));
            Over(server, failed, c, Some(error)) && t.inits == failed.inits
            && Get(t.calls, d) == Some(Calling(Some(id), None))
  {
    var s0 := Step(server, s, Begin(c));
    var s1 := Step(server, s0, InitReply(c, Headers(Some(id))));
    var failed := AfterFailure(server, s, c, id, error);
    BeginIff(server, s, c);
    InitReplyKeepsSession(server, s0, c, Headers(Some(id)));
    assert Gives(Headers(Some(id)), id);
    InitTextProceeds(server, s1, c, Some(error));
    StepKeepsInv(server, s, Begin(c));
    StepKeepsInv(server, s0, InitReply(c, Headers(Some(id))));
    StepKeepsInv(server, s1, InitText(c, Some(error)));
    OtherCallsAreUntouched(server, s, Begin(c), d);
    assert d !in failed.calls;
    LetThrough(server, failed, d, id);
  }

  /** A call begins, its `initialize` is answered with a session id and fails by its body. */
  function AfterFailure(server: string, s: State, c: Call, id: string, error: string): State {
    Step(server, Step(server, Step(server, s, Begin(c)), InitReply(c, Headers(Some(id)))), InitText(c, Some(error)))
  }

  lemma {:induction false} LetThrough(server: string, s: State, d: Call, id: string)
    requires Inv(server, s) && d !in s.calls && SessionOf(server, s, d) == Some(id)
    ensures var t := Step(server, Step(server, s, Begin(d)), Resume(d));
            Get(t.calls, d) == Some(Calling(Some(id), None)) && t.inits == s.inits
  {
    BeginIff(server, s, d);
    UnseenIsUntouched(server, s, d);
    ResumeIff(server, Step(server, s, Begin(d)), d);
  }
}
