/** Single-flight initialisation of MCP sessions, as the steps between awaits of concurrent tool calls
    under an arbitrary scheduler.  A promise is named by the call that created it; replies of the
    server are inputs of the steps. */
module McpSessions {
  import opened Wrappers

  /** One `listTools` or `callTool`: the application user named in its headers, and which call it is. */
  datatype Call = Call(user: Option<string>, number: nat)

  /** The tool result, or the error of the tool request. */
  datatype Outcome = Returned(result: string) | Failed(error: string)

  /** A request in flight carries the session id that was known when it was sent; `via` is the
      initialisation the call awaited before it, if any. */
  datatype Phase =
    | Ready                                    // initialize returned at once, a session was known
    | Awaiting(owner: Call)                    // awaits the initialisation of `owner`
    | Rejected(error: string, owner: Call)     // that initialisation failed
    | Calling(sent: Option<string>, via: Option<Call>)   // tools/list or tools/call is in flight
    | ReadingBody(sent: Option<string>, via: Option<Call>)
    | Done(outcome: Outcome, via: Option<Call>)

  datatype Stage =
    | InitSent(sent: Option<string>)
    | InitBody(sent: Option<string>)
    | NotifySent(sent: Option<string>)
    | NotifyBody(sent: Option<string>)
    | Settled(error: Option<string>)

  datatype State = State(sessions: map<string, string>, initializations: map<string, Call>, calls: map<Call, Phase>,
                         inits: map<Call, Stage>)

  const INITIAL := State(map[], map[], map[], map[])

  /** The answer to a request: an error, or headers with or without a session id. */
  datatype Reply = NoReply(error: string) | Headers(session: Option<string>)

  datatype Event =
    | Begin(call: Call)
    | InitReply(call: Call, reply: Reply)              // headers of the answer to initialize or initialized
    | InitText(call: Call, error: Option<string>)      // its body, parsed
    | Resume(call: Call)                               // a call awaiting initialisation continues
    | CallReply(call: Call, reply: Reply)
    | CallText(call: Call, outcome: Outcome)

  /** `sessionScope`: only the `hrm` server keeps a session per application user. */
  function Scope(server: string, c: Call): string {
    if server != "hrm" then "default" else if c.user.Some? then c.user.value else ""
  }

  // ------------------------------------------------------------------------- steps

  /** What a step at call `c` can see: session and running initialisation of its scope, its own phase
      and initialisation, and the initialisation it awaits. */
  datatype View = View(session: Option<string>, owner: Option<Call>, phase: Option<Phase>, stage: Option<Stage>,
                       awaited: Option<Stage>)

  function See(server: string, s: State, c: Call): View {
    View(Get(s.sessions, Scope(server, c)), Get(s.initializations, Scope(server, c)), Get(s.calls, c), Get(s.inits, c),
         if c in s.calls && s.calls[c].Awaiting? then Get(s.inits, s.calls[c].owner) else None)
  }

  function Write(server: string, s: State, c: Call, v: View): State {
    State(Put(s.sessions, Scope(server, c), v.session), Put(s.initializations, Scope(server, c), v.owner),
          Put(s.calls, c, v.phase), Put(s.inits, c, v.stage))
  }

  /** The initialisation ends: its `finally` removes the entry. */
  function Settle(v: View, error: Option<string>): View {
    v.(stage := Some(Settled(error)), owner := None)
  }

  function Received(v: View, r: Reply): Option<string>
    requires r.Headers?
  {
    if r.session.Some? && r.session.value != "" then r.session else v.session
  }

  function OnInitReply(v: View, r: Reply): View {
    if v.stage.None? || !(v.stage.value.InitSent? || v.stage.value.NotifySent?) then v
    else if r.NoReply? then Settle(v, Some(r.error))
    else v.(session := Received(v, r),
            stage := Some(if v.stage.value.InitSent? then InitBody(v.stage.value.sent)
                          else NotifyBody(v.stage.value.sent)))
  }

  function OnInitText(v: View, error: Option<string>): View {
    if v.stage.None? || !(v.stage.value.InitBody? || v.stage.value.NotifyBody?) then v
    else if error.Some? then Settle(v, error)
    else if v.stage.value.InitBody? then v.(stage := Some(NotifySent(v.session)))
    else Settle(v, None)
  }

  function OnResume(v: View): View {
    if v.phase == Some(Ready) then v.(phase := Some(Calling(v.session, None)))
    else if v.phase.Some? && v.phase.value.Awaiting? && v.awaited.Some? && v.awaited.value.Settled? then
      var owner := v.phase.value.owner;
      v.(phase := Some(if v.awaited.value.error.Some? then Rejected(v.awaited.value.error.value, owner)
                       else Calling(v.session, Some(owner))))
    else v
  }

  function OnCallReply(v: View, r: Reply): View {
    if v.phase.None? || !v.phase.value.Calling? then v
    else if r.NoReply? then v.(phase := Some(Done(Failed(r.error), v.phase.value.via)))
    else v.(session := Received(v, r), phase := Some(ReadingBody(v.phase.value.sent, v.phase.value.via)))
  }

  /** `initialize` up to its first await. */
  function OnBegin(c: Call, v: View): View {
    if v.phase.Some? || v.stage.Some? then v
    else if v.session.Some? then v.(phase := Some(Ready))
    else if v.owner.Some? then v.(phase := Some(Awaiting(v.owner.value)))
    else v.(phase := Some(Awaiting(c)), stage := Some(InitSent(v.session)), owner := Some(c))
  }

  /** An event that does not fit what its call is waiting for changes nothing. */
  function Act(c: Call, v: View, e: Event): View {
    match e
    case Begin(_) => OnBegin(c, v)
    case InitReply(_, reply) => OnInitReply(v, reply)
    case InitText(_, error) => OnInitText(v, error)
    case Resume(_) => OnResume(v)
    case CallReply(_, reply) => OnCallReply(v, reply)
    case CallText(_, outcome) =>
      if v.phase.Some? && v.phase.value.ReadingBody? then v.(phase := Some(Done(outcome, v.phase.value.via))) else v
  }

  function Step(server: string, s: State, e: Event): State {
    Write(server, s, e.call, Act(e.call, See(server, s, e.call), e))
  }

  function Run(server: string, es: seq<Event>): State {
    if es == [] then INITIAL else Step(server, Run(server, es[..|es| - 1]), es[|es| - 1])
  }

  lemma {:induction false} UnseenIsUntouched(server: string, s: State, c: Call)
    ensures var v := See(server, s, c);
            && Put(s.sessions, Scope(server, c), v.session) == s.sessions
            && Put(s.initializations, Scope(server, c), v.owner) == s.initializations
            && Put(s.calls, c, v.phase) == s.calls && Put(s.inits, c, v.stage) == s.inits
  {
    PutSame(s.sessions, Scope(server, c));
    PutSame(s.initializations, Scope(server, c));
    PutSame(s.calls, c);
    PutSame(s.inits, c);
  }

  // ----------------------------------------------------------------------- the client

  class McpClient {
    const name: string
    var sessions: map<string, string>
    var initializations: map<string, Call>
    var calls: map<Call, Phase>
    var inits: map<Call, Stage>

    ghost function Current(): State
      reads this
    {
      State(sessions, initializations, calls, inits)
    }

    constructor (name: string)
      ensures this.name == name && Current() == INITIAL
    {
      this.name := name;
      sessions, initializations, calls, inits := map[], map[], map[], map[];
    }

    /** `initialize`, and the start of its new promise. */
    method Initialize(c: Call)
      modifies this`calls, this`inits, this`initializations
      ensures Current() == Step(name, old(Current()), Begin(c))
    {
      UnseenIsUntouched(name, Current(), c);
      var scope := Scope(name, c);
      if c in calls || c in inits { return; }
      if scope in sessions { calls := calls[c := Ready]; return; }
      if scope in initializations { calls := calls[c := Awaiting(initializations[scope])]; return; }
      inits := inits[c := InitSent(None)];
      initializations := initializations[scope := c];
      calls := calls[c := Awaiting(c)];
    }

    method OnInitReply(c: Call, reply: Reply)
      modifies this`sessions, this`inits, this`initializations
      ensures Current() == Step(name, old(Current()), InitReply(c, reply))
    {
      UnseenIsUntouched(name, Current(), c);
      var scope := Scope(name, c);
      if !(c in inits && (inits[c].InitSent? || inits[c].NotifySent?)) { return; }
      match reply {
        case NoReply(error) =>
          inits := inits[c := Settled(Some(error))];
          initializations := initializations - {scope};
        case Headers(session) =>
          inits := inits[c := if inits[c].InitSent? then InitBody(inits[c].sent) else NotifyBody(inits[c].sent)];
          if session.Some? && session.value != "" { sessions := sessions[scope := session.value]; }
      }
    }

    method OnInitText(c: Call, error: Option<string>)
      modifies this`inits, this`initializations
      ensures Current() == Step(name, old(Current()), InitText(c, error))
    {
      UnseenIsUntouched(name, Current(), c);
      var scope := Scope(name, c);
      if !(c in inits && (inits[c].InitBody? || inits[c].NotifyBody?)) { return; }
      if error.None? && inits[c].InitBody? {
        inits := inits[c := NotifySent(Get(sessions, scope))];
      } else {
        inits := inits[c := Settled(error)];
        initializations := initializations - {scope};
      }
    }

    /** After `await this.initialize(...)`: the tool request is sent, or the error is passed on. */
    method OnResume(c: Call)
      modifies this`calls
      ensures Current() == Step(name, old(Current()), Resume(c))
    {
      UnseenIsUntouched(name, Current(), c);
      if c !in calls { return; }
      var sessionId := Get(sessions, Scope(name, c));
      match calls[c] {
        case Ready => calls := calls[c := Calling(sessionId, None)];
        case Awaiting(owner) =>
          if owner in inits && inits[owner].Settled? {
            var error := inits[owner].error;
            calls := calls[c := if error.Some? then Rejected(error.value, owner) else Calling(sessionId, Some(owner))];
          }
        case _ =>
      }
    }

    method OnCallReply(c: Call, reply: Reply)
      modifies this`calls, this`sessions
      ensures Current() == Step(name, old(Current()), CallReply(c, reply))
    {
      UnseenIsUntouched(name, Current(), c);
      if !(c in calls && calls[c].Calling?) { return; }
      match reply {
        case NoReply(error) => calls := calls[c := Done(Failed(error), calls[c].via)];
        case Headers(session) =>
          calls := calls[c := ReadingBody(calls[c].sent, calls[c].via)];
          if session.Some? && session.value != "" { sessions := sessions[Scope(name, c) := session.value]; }
      }
    }

    method OnCallText(c: Call, outcome: Outcome)
      modifies this`calls
      ensures Current() == Step(name, old(Current()), CallText(c, outcome))
    {
      UnseenIsUntouched(name, Current(), c);
      if c in calls && calls[c].ReadingBody? { calls := calls[c := Done(outcome, calls[c].via)]; }
    }
  }

  // -------------------------------------------------------------------- the invariant

  predicate Outstanding(s: State, o: Call) { o in s.inits && !s.inits[o].Settled? }

  /** The entry of a scope is its outstanding initialisation. */
  ghost predicate EntryIsOutstanding(server: string, s: State, scope: string) {
    scope in s.initializations ==>
      var o := s.initializations[scope]; Scope(server, o) == scope && Outstanding(s, o)
  }

  ghost predicate OutstandingIsEntered(server: string, s: State, o: Call) {
    Outstanding(s, o) ==> Get(s.initializations, Scope(server, o)) == Some(o)
  }

  ghost predicate AwaitsOwnScope(server: string, s: State, c: Call) {
    && (c in s.calls ==> Follows(server, s, c, s.calls[c]))
    && (c in s.inits ==> c in s.calls)
  }

  /** A call that waits for, or came out of, an initialisation of its own scope agrees with its end. */
  ghost predicate Follows(server: string, s: State, c: Call, phase: Phase) {
    match phase
    case Ready => true
    case Awaiting(o) => Scope(server, o) == Scope(server, c) && o in s.inits
    case Rejected(e, o) => Scope(server, o) == Scope(server, c) && Get(s.inits, o) == Some(Settled(Some(e)))
    case _ => phase.via.Some? ==>
        Scope(server, phase.via.value) == Scope(server, c) && Get(s.inits, phase.via.value) == Some(Settled(None))
  }

  ghost predicate Inv(server: string, s: State) {
    && (forall scope :: EntryIsOutstanding(server, s, scope))
    && (forall o :: OutstandingIsEntered(server, s, o))
    && (forall c :: AwaitsOwnScope(server, s, c))
  }

  /** A call that neither starts nor advances an initialisation. */
  lemma {:induction false} CallKeepsInv(server: string, s: State, c: Call, phase: Phase, sessions: map<string, string>)
    requires Inv(server, s)
    requires Follows(server, s, c, phase)
    ensures Inv(server, s.(calls := s.calls[c := phase], sessions := sessions))
  {
    var t := s.(calls := s.calls[c := phase], sessions := sessions);
    forall x ensures EntryIsOutstanding(server, t, x) { assert EntryIsOutstanding(server, s, x); }
    forall o ensures OutstandingIsEntered(server, t, o) { assert OutstandingIsEntered(server, s, o); }
    forall d ensures AwaitsOwnScope(server, t, d) { assert AwaitsOwnScope(server, s, d); }
  }

  lemma {:induction false} StartKeepsInv(server: string, s: State, c: Call, stage: Stage)
    requires Inv(server, s) && c !in s.calls && c !in s.inits && Scope(server, c) !in s.initializations
    requires !stage.Settled?
    ensures Inv(server, s.(calls := s.calls[c := Awaiting(c)], inits := s.inits[c := stage],
                           initializations := s.initializations[Scope(server, c) := c]))
  {
    var t := s.(calls := s.calls[c := Awaiting(c)], inits := s.inits[c := stage],
                initializations := s.initializations[Scope(server, c) := c]);
    forall x ensures EntryIsOutstanding(server, t, x) { assert EntryIsOutstanding(server, s, x); }
    forall o ensures OutstandingIsEntered(server, t, o) { assert OutstandingIsEntered(server, s, o); }
    forall d ensures AwaitsOwnScope(server, t, d) { assert AwaitsOwnScope(server, s, d); }
  }

  lemma {:induction false} AdvanceKeepsInv(server: string, s: State, c: Call, stage: Stage,
          sessions: map<string, string>)
    requires Inv(server, s) && Outstanding(s, c) && !stage.Settled?
    ensures Inv(server, s.(inits := s.inits[c := stage], sessions := sessions))
  {
    var t := s.(inits := s.inits[c := stage], sessions := sessions);
    forall x ensures EntryIsOutstanding(server, t, x) { assert EntryIsOutstanding(server, s, x); }
    forall o ensures OutstandingIsEntered(server, t, o) { assert OutstandingIsEntered(server, s, o); }
    forall d ensures AwaitsOwnScope(server, t, d) { assert AwaitsOwnScope(server, s, d); }
  }

  lemma {:induction false} SettleKeepsInv(server: string, s: State, c: Call, error: Option<string>)
    requires Inv(server, s) && Outstanding(s, c)
    ensures Inv(server, s.(inits := s.inits[c := Settled(error)],
                           initializations := s.initializations - {Scope(server, c)}))
  {
    var t := s.(inits := s.inits[c := Settled(error)], initializations := s.initializations - {Scope(server, c)});
    assert OutstandingIsEntered(server, s, c);
    forall x ensures EntryIsOutstanding(server, t, x) { assert EntryIsOutstanding(server, s, x); }
    forall o ensures OutstandingIsEntered(server, t, o) { assert OutstandingIsEntered(server, s, o); }
    forall d ensures AwaitsOwnScope(server, t, d) { assert AwaitsOwnScope(server, s, d); }
  }

  lemma {:induction false} BeginKeepsInv(server: string, s: State, e: Event)
    requires Inv(server, s) && e.Begin?
    ensures Inv(server, Step(server, s, e))
  {
    var c, scope := e.call, Scope(server, e.call);
    var was := See(server, s, c);
    var v := OnBegin(c, was);
    UnseenIsUntouched(server, s, c);
    if v.stage != was.stage {
      StartKeepsInv(server, s, c, v.stage.value);
    } else if v != was {
      assert EntryIsOutstanding(server, s, scope);
      CallKeepsInv(server, s, c, v.phase.value, s.sessions);
    }
  }

  lemma {:induction false} InitKeepsInv(server: string, s: State, e: Event)
    requires Inv(server, s) && (e.InitReply? || e.InitText?)
    ensures Inv(server, Step(server, s, e))
  {
    var c := e.call;
    var was := See(server, s, c);
    var v := Act(c, was, e);
    UnseenIsUntouched(server, s, c);
    if v.stage != was.stage {
      if v.stage.value.Settled? {
        SettleKeepsInv(server, s, c, v.stage.value.error);
      } else {
        AdvanceKeepsInv(server, s, c, v.stage.value, Put(s.sessions, Scope(server, c), v.session));
      }
    }
  }

  lemma {:induction false} ProceedKeepsInv(server: string, s: State, e: Event)
    requires Inv(server, s) && (e.Resume? || e.CallReply? || e.CallText?)
    ensures Inv(server, Step(server, s, e))
  {
    var c := e.call;
    var was := See(server, s, c);
    var v := Act(c, was, e);
    UnseenIsUntouched(server, s, c);
    if v != was {
      assert AwaitsOwnScope(server, s, c);
      CallKeepsInv(server, s, c, v.phase.value, Put(s.sessions, Scope(server, c), v.session));
    }
  }

  lemma {:induction false} StepKeepsInv(server: string, s: State, e: Event)
    requires Inv(server, s)
    ensures Inv(server, Step(server, s, e))
  {
    match e {
      case Begin(_) => BeginKeepsInv(server, s, e);
      case InitReply(_, _) => InitKeepsInv(server, s, e);
      case InitText(_, _) => InitKeepsInv(server, s, e);
      case _ => ProceedKeepsInv(server, s, e);
    }
  }

  lemma {:induction false} EveryScheduleKeepsInv(server: string, es: seq<Event>)
    ensures Inv(server, Run(server, es))
  {
    if es != [] {
      EveryScheduleKeepsInv(server, es[..|es| - 1]);
      StepKeepsInv(server, Run(server, es[..|es| - 1]), es[|es| - 1]);
    }
  }

  // -------------------------------------------------------------------- main results

  /** Under every interleaving a scope has at most one outstanding initialisation, and it has an entry
      exactly while one is outstanding: after success or failure the entry is gone. */
  lemma {:induction false} AtMostOneInitialisationPerScope(server: string, es: seq<Event>, o: Call, p: Call)
    requires Outstanding(Run(server, es), o) && Outstanding(Run(server, es), p) && Scope(server, o) == Scope(server, p)
    ensures o == p
  {
    EveryScheduleKeepsInv(server, es);
    assert OutstandingIsEntered(server, Run(server, es), o) && OutstandingIsEntered(server, Run(server, es), p);
  }

  lemma {:induction false} EntryExactlyWhileOutstanding(server: string, es: seq<Event>, scope: string)
    ensures scope in Run(server, es).initializations <==>
            exists o :: Outstanding(Run(server, es), o) && Scope(server, o) == scope
  {
    var s := Run(server, es);
    EveryScheduleKeepsInv(server, es);
    assert EntryIsOutstanding(server, s, scope);
    if o :| Outstanding(s, o) && Scope(server, o) == scope { assert OutstandingIsEntered(server, s, o); }
  }

  /** What a call made of the initialisation it awaited: nothing yet, its error, or success. */
  function Learned(phase: Phase): Option<Option<string>> {
    match phase
    case Rejected(e, _) => Some(Some(e))
    case Calling(_, via) => if via.Some? then Some(None) else None
    case ReadingBody(_, via) => if via.Some? then Some(None) else None
    case Done(_, via) => if via.Some? then Some(None) else None
    case _ => None
  }

  function Source(phase: Phase): Option<Call> {
    match phase
    case Rejected(_, o) => Some(o)
    case Calling(_, via) => via
    case ReadingBody(_, via) => via
    case Done(_, via) => via
    case _ => None
  }

  /** Every call that awaited an initialisation learns the same outcome, the one its owner learns; it
      is an initialisation of the call's own scope. */
  lemma {:induction false} JoinersGetTheOwnersOutcome(server: string, es: seq<Event>, c: Call, d: Call, o: Call)
    requires c in Run(server, es).calls && Source(Run(server, es).calls[c]) == Some(o)
    requires d in Run(server, es).calls && Source(Run(server, es).calls[d]) == Some(o)
    ensures o in Run(server, es).inits && Run(server, es).inits[o].Settled?
    ensures Learned(Run(server, es).calls[c]) == Learned(Run(server, es).calls[d]) ==
            Some(Run(server, es).inits[o].error)
    ensures Scope(server, c) == Scope(server, o) == Scope(server, d)
  {
    EveryScheduleKeepsInv(server, es);
    assert AwaitsOwnScope(server, Run(server, es), c) && AwaitsOwnScope(server, Run(server, es), d);
  }

  /** Event `e` answers, without error, the `n`-th wait of the initialisation of `o`: headers and body
      of `initialize`, then headers and body of `notifications/initialized`. */
  predicate Answers(e: Event, o: Call, n: nat) {
    e.call == o && if n % 2 == 0 then e.InitReply? && e.reply.Headers? else e.InitText? && e.error.None?
  }

  /** How many of the four waits have been answered in order. */
  function Answered(es: seq<Event>, o: Call): nat {
    if es == [] then 0 else Counted(Answered(es[..|es| - 1], o), es[|es| - 1], o)
  }

  function Needed(stage: Stage): nat {
    match stage
    case InitSent(_) => 0
    case InitBody(_) => 1
    case NotifySent(_) => 2
    case NotifyBody(_) => 3
    case Settled(error) => if error.None? then 4 else 0
  }

  function Counted(n: nat, e: Event, o: Call): nat { if n < 4 && Answers(e, o, n) then n + 1 else n }

  lemma {:induction false} ActNeedsAnswers(o: Call, v: View, e: Event, n: nat)
    requires e.call == o && (v.stage.Some? ==> Needed(v.stage.value) <= n)
    ensures Act(o, v, e).stage.Some? ==> Needed(Act(o, v, e).stage.value) <= Counted(n, e, o)
  {
  }

  lemma {:induction false} StageNeedsAnswers(server: string, es: seq<Event>, o: Call)
    ensures var v := See(server, Run(server, es), o); v.stage.Some? ==> Needed(v.stage.value) <= Answered(es, o)
  {
    if es != [] {
      var n := |es| - 1;
      var before := Run(server, es[..n]);
      StageNeedsAnswers(server, es[..n], o);
      StepView(server, before, o, es[n]);
      if es[n].call == o { ActNeedsAnswers(o, See(server, before, o), es[n], Answered(es[..n], o)); }
    }
  }

  /** An initialisation succeeds only after both its requests were answered without error, in order. */
  lemma {:induction false} SuccessNeedsBothRequests(server: string, es: seq<Event>, o: Call)
    requires Get(Run(server, es).inits, o) == Some(Settled(None))
    ensures Answered(es, o) == 4
  {
    StageNeedsAnswers(server, es, o);
    AnsweredIsBounded(es, o);
  }

  lemma {:induction false} AnsweredIsBounded(es: seq<Event>, o: Call)
    ensures Answered(es, o) <= 4
  {
    if es != [] { AnsweredIsBounded(es[..|es| - 1], o); }
  }

  // ------------------------------------------------------------ session ids stay in scope

  predicate Delivers(server: string, e: Event, scope: string, id: string) {
    && (e.InitReply? || e.CallReply?) && e.reply == Headers(Some(id)) && Scope(server, e.call) == scope
  }

  /** The server gave `id` in an answer to a request made under `scope`. */
  ghost predicate Delivered(server: string, es: seq<Event>, scope: string, id: string) {
    exists i :: 0 <= i < |es| && Delivers(server, es[i], scope, id)
  }

  function SentBy(phase: Phase): Option<string> {
    match phase case Calling(sent, _) => sent case ReadingBody(sent, _) => sent case _ => None
  }

  function SentByInit(stage: Stage): Option<string> {
    match stage
    case InitSent(sent) => sent
    case InitBody(sent) => sent
    case NotifySent(sent) => sent
    case NotifyBody(sent) => sent
    case Settled(_) => None
  }

  ghost predicate Known(server: string, es: seq<Event>, scope: string, id: Option<string>) {
    id.Some? ==> Delivered(server, es, scope, id.value)
  }

  ghost predicate ViewKnown(server: string, es: seq<Event>, scope: string, v: View) {
    && Known(server, es, scope, v.session)
    && (v.phase.Some? ==> Known(server, es, scope, SentBy(v.phase.value)))
    && (v.stage.Some? ==> Known(server, es, scope, SentByInit(v.stage.value)))
  }

  lemma {:induction false} KnownStaysKnown(server: string, es: seq<Event>, scope: string, id: Option<string>)
    requires es != [] && Known(server, es[..|es| - 1], scope, id)
    ensures Known(server, es, scope, id)
  {
    if id.Some? {
      var i :| 0 <= i < |es| - 1 && Delivers(server, es[..|es| - 1][i], scope, id.value);
      assert Delivers(server, es[i], scope, id.value);
    }
  }

  lemma {:induction false} ActKeepsKnown(server: string, es: seq<Event>, v: View)
    requires es != [] && ViewKnown(server, es, Scope(server, es[|es| - 1].call), v)
    ensures ViewKnown(server, es, Scope(server, es[|es| - 1].call), Act(es[|es| - 1].call, v, es[|es| - 1]))
  {
    var e := es[|es| - 1];
    if (e.InitReply? || e.CallReply?) && e.reply.Headers? && e.reply.session.Some? {
      assert Delivers(server, es[|es| - 1], Scope(server, e.call), e.reply.session.value);
    }
  }

  /** A session id kept or sent under a scope was received under that scope: none is ever used under
      another. */
  lemma {:induction false} SessionIdsStayInScope(server: string, es: seq<Event>, c: Call)
    ensures ViewKnown(server, es, Scope(server, c), See(server, Run(server, es), c))
  {
    if es != [] {
      var n := |es| - 1;
      var before, e, scope := Run(server, es[..n]), es[n], Scope(server, c);
      SessionIdsStayInScope(server, es[..n], c);
      SessionIdsStayInScope(server, es[..n], e.call);
      ViewStaysKnown(server, es, scope, See(server, before, c));
      ViewStaysKnown(server, es, Scope(server, e.call), See(server, before, e.call));
      ActKeepsKnown(server, es, See(server, before, e.call));
      StepView(server, before, c, e);
    }
  }

  lemma {:induction false} ViewStaysKnown(server: string, es: seq<Event>, scope: string, v: View)
    requires es != [] && ViewKnown(server, es[..|es| - 1], scope, v)
    ensures ViewKnown(server, es, scope, v)
  {
    KnownStaysKnown(server, es, scope, v.session);
    if v.phase.Some? { KnownStaysKnown(server, es, scope, SentBy(v.phase.value)); }
    if v.stage.Some? { KnownStaysKnown(server, es, scope, SentByInit(v.stage.value)); }
  }

  /** What call `c` sees after a step of call `e.call`. */
  lemma {:induction false} StepView(server: string, s: State, c: Call, e: Event)
    ensures var v, w := Act(e.call, See(server, s, e.call), e), See(server, Step(server, s, e), c);
            && (w.session == if Scope(server, c) == Scope(server, e.call) then v.session else See(server, s, c).session)
            && (w.phase == if c == e.call then v.phase else See(server, s, c).phase)
            && (w.stage == if c == e.call then v.stage else See(server, s, c).stage)
  {
  }

  // --------------------------------------------------------------------- isolation

  ghost predicate Agree(server: string, s: State, t: State, scope: string) {
    && Get(s.sessions, scope) == Get(t.sessions, scope)
    && Get(s.initializations, scope) == Get(t.initializations, scope)
    && forall c: Call :: Scope(server, c) == scope ==> AgreeOn(s, t, c)
  }

  predicate AgreeOn(s: State, t: State, c: Call) {
    Get(s.calls, c) == Get(t.calls, c) && Get(s.inits, c) == Get(t.inits, c)
  }

  lemma {:induction false} OthersAreUntouched(server: string, s: State, e: Event, scope: string)
    requires Scope(server, e.call) != scope
    ensures Agree(server, Step(server, s, e), s, scope)
  {
  }

  lemma {:induction false} OtherCallsAreUntouched(server: string, s: State, e: Event, d: Call)
    requires d != e.call
    ensures AgreeOn(Step(server, s, e), s, d)
  {
  }

  lemma {:induction false} WrittenIsSeen(server: string, s: State, c: Call, v: View)
    ensures var t := Write(server, s, c, v);
            && Get(t.sessions, Scope(server, c)) == v.session && Get(t.initializations, Scope(server, c)) == v.owner
            && Get(t.calls, c) == v.phase && Get(t.inits, c) == v.stage
  {
  }

  lemma {:induction false} SameView(server: string, s: State, t: State, c: Call)
    requires Agree(server, s, t, Scope(server, c)) && AwaitsOwnScope(server, s, c)
    ensures See(server, s, c) == See(server, t, c)
  {
    assert AgreeOn(s, t, c);
    if c in s.calls && s.calls[c].Awaiting? { assert AgreeOn(s, t, s.calls[c].owner); }
  }

  lemma {:induction false} SameStepSameEffect(server: string, s: State, t: State, e: Event)
    requires Inv(server, s) && Agree(server, s, t, Scope(server, e.call))
    ensures Agree(server, Step(server, s, e), Step(server, t, e), Scope(server, e.call))
  {
    var c, s', t' := e.call, Step(server, s, e), Step(server, t, e);
    assert AwaitsOwnScope(server, s, c);
    SameView(server, s, t, c);
    WrittenIsSeen(server, s, c, Act(c, See(server, s, c), e));
    WrittenIsSeen(server, t, c, Act(c, See(server, t, c), e));
    forall d: Call | Scope(server, d) == Scope(server, c) ensures AgreeOn(s', t', d) {
      if d != c {
        OtherCallsAreUntouched(server, s, e, d);
        OtherCallsAreUntouched(server, t, e, d);
        assert AgreeOn(s, t, d);
      }
    }
  }

  function Of(server: string, es: seq<Event>, scope: string): seq<Event> {
    if es == [] then [] else
    Of(server, es[..|es| - 1], scope) + if Scope(server, es[|es| - 1].call) == scope then [es[|es| - 1]] else []
  }

  /** Scopes do not affect one another: in every interleaving all that belongs to a scope is what its own
      steps alone would have produced. */
  lemma {:induction false} ScopesAreIsolated(server: string, es: seq<Event>, scope: string)
    ensures Agree(server, Run(server, es), Run(server, Of(server, es, scope)), scope)
  {
    if es != [] {
      var n := |es| - 1;
      var mine := Of(server, es[..n], scope);
      var s, t := Run(server, es[..n]), Run(server, mine);
      ScopesAreIsolated(server, es[..n], scope);
      EveryScheduleKeepsInv(server, es[..n]);
      if Scope(server, es[n].call) == scope {
        SameStepSameEffect(server, s, t, es[n]);
        assert Of(server, es, scope) == mine + [es[n]];
        assert (mine + [es[n]])[..|mine|] == mine;
      } else {
        assert Of(server, es, scope) == mine;
        OthersAreUntouched(server, s, es[n], scope);
        AgreeTransitive(server, Step(server, s, es[n]), s, t, scope);
      }
    }
  }

  lemma {:induction false} AgreeTransitive(server: string, r: State, s: State, t: State, scope: string)
    requires Agree(server, r, s, scope) && Agree(server, s, t, scope)
    ensures Agree(server, r, t, scope)
  {
    forall c: Call | Scope(server, c) == scope ensures AgreeOn(r, t, c) { assert AgreeOn(r, s, c) && AgreeOn(s, t, c); }
  }
}
