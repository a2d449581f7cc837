/** What the parts of an agent's turn mean: which fields of a result count, which tools are executed, and why a
    turn ends as it does. */
module AgentMeaning {
  import opened Wrappers
  import opened Agent
  import ConfirmationReply

  // ---------------------------------------------------------------- parts of a result

  /** The field is there, first at position `i`, and holds `x`. */
  predicate Holds(v: Value, key: string, i: int, x: Value) {
    v.Record? && 0 <= i < |v.fields| && v.fields[i] == Field(key, x)
    && forall j :: 0 <= j < i ==> v.fields[j].key != key
  }

  predicate Lacks(v: Value, key: string) {
    v.Record? ==> forall j :: 0 <= j < |v.fields| ==> v.fields[j].key != key
  }

  lemma {:induction false} AtIff(v: Value, key: string)
    ensures forall x :: At(v, key) == Some(x) <==> exists i :: Holds(v, key, i, x)
    ensures At(v, key) == None <==> Lacks(v, key)
  {
    if v.Record? { FieldInIs(v.fields, key); }
  }

  lemma {:induction false} FieldInIs(fs: seq<Field>, key: string)
    ensures FieldIn(fs, key).None? ==> Lacks(Record(fs), key)
    ensures FieldIn(fs, key).Some? ==> exists i :: Holds(Record(fs), key, i, FieldIn(fs, key).value)
    ensures forall x, i :: Holds(Record(fs), key, i, x) ==> FieldIn(fs, key) == Some(x)
  {
    if fs != [] {
      FieldInIs(fs[1..], key);
      assert forall j :: 1 <= j < |fs| ==> fs[j] == fs[1..][j - 1];
      if fs[0].key == key {
        assert Holds(Record(fs), key, 0, fs[0].value);
      } else {
        forall x, i | Holds(Record(fs), key, i, x) ensures FieldIn(fs, key) == Some(x) {
          assert Holds(Record(fs[1..]), key, i - 1, x);
        }
        if FieldIn(fs, key).Some? {
          var i :| Holds(Record(fs[1..]), key, i, FieldIn(fs, key).value);
          assert Holds(Record(fs), key, i + 1, FieldIn(fs, key).value);
        }
      }
    }
  }

  /** A tool succeeded when its result says so: by anything but null, false, zero and the empty text. */
  lemma {:induction false} SuccessIff(v: Value)
    ensures Success(v) <==>
            exists i, x :: Holds(v, "success", i, x) && x != Null && x != Bool(false) && x != Number("0")
                           && !(x.Text? && |x.s| == 0)
  {
    AtIff(v, "success");
  }

  /** The items of a result are the list in its `result`, or the list in the `results` of that. */
  lemma {:induction false} ItemsAre(v: Value, i: int, w: Value)
    requires Holds(v, "result", i, w)
    ensures w.List? ==> Items(v) == w.items
    ensures forall j, l :: Holds(w, "results", j, List(l)) ==> Items(v) == l
    ensures !w.List? && (forall j, l :: !Holds(w, "results", j, List(l))) ==> Items(v) == []
  {
    AtIff(v, "result");
    AtIff(w, "results");
    assert At(v, "result") == Some(w);
    forall j, l | Holds(w, "results", j, List(l)) ensures At(w, "results") == Some(List(l)) { }
  }

  lemma {:induction false} NoResultNoItems(v: Value)
    requires Lacks(v, "result")
    ensures Items(v) == []
  {
    AtIff(v, "result");
  }

  predicate OccursAt(s: string, part: string, i: int) { 0 <= i && i + |part| <= |s| && s[i..i + |part|] == part }

  lemma {:induction false} OccursOneOn(s: string, part: string, i: nat)
    requires s != "" && i >= 1
    ensures OccursAt(s, part, i) <==> OccursAt(s[1..], part, i - 1)
  {
    if i + |part| <= |s| {
      var here, there := s[i..i + |part|], s[1..][i - 1..i - 1 + |part|];
      forall k | 0 <= k < |part| ensures here[k] == there[k] {
        assert here[k] == s[i + k] && there[k] == s[1..][i - 1 + k];
      }
      assert here == there;
    }
  }

  /** One text includes another that occurs somewhere in it. */
  lemma {:induction false} IncludesIff(s: string, part: string)
    ensures Includes(s, part) <==> exists i :: OccursAt(s, part, i)
  {
    if |part| <= |s| {
      assert s[..|part|] == s[0..0 + |part|];
      assert s[..|part|] == part <==> OccursAt(s, part, 0);
      if s != "" {
        IncludesIff(s[1..], part);
        if i :| OccursAt(s, part, i) {
          if i > 0 { OccursOneOn(s, part, i); }
        }
        if i :| OccursAt(s[1..], part, i) { OccursOneOn(s, part, i + 1); }
      }
    }
  }

  /** The prefix is dropped from a project id that has it, once. */
  lemma {:induction false} PlanePrefixIsDropped(prefix: string, id: string)
    requires prefix == "plane:"
    ensures WithoutPlanePrefix(prefix + id) == id
    ensures !(prefix <= id) ==> WithoutPlanePrefix(id) == id
  {
    assert |prefix| == 6;
    assert (prefix + id)[..6] == prefix && (prefix + id)[6..] == id;
  }

  /** The active names and groups. */
  lemma {:induction false} ActiveLabelsAre(name: string)
    ensures name in ACTIVE_ALIASES <==> name == "dang thuc hien" || name == "dang lam" || name == "in progress"
    ensures name in ACTIVE_GROUPS <==> name == "started" || name == "in progress" || name == "in_progress"
  {
  }

  /** Matching tasks and states are taken as often as they are listed. */
  lemma {:induction false} TitledAreFiltered(norm: string -> string, vs: seq<Value>, wanted: string, v: Value)
    ensures multiset(ExactTasks(norm, vs, wanted))[v] ==
            if Label(norm, v, "title") == wanted then multiset(vs)[v] else 0
  {
    if vs != [] {
      assert vs == [vs[0]] + vs[1..];
      TitledAreFiltered(norm, vs[1..], wanted, v);
    }
  }

  lemma {:induction false} ContainingAreFiltered(norm: string -> string, vs: seq<Value>, wanted: string, v: Value)
    ensures multiset(PartialTasks(norm, vs, wanted))[v] ==
            if Includes(Label(norm, v, "title"), wanted) then multiset(vs)[v] else 0
  {
    if vs != [] {
      assert vs == [vs[0]] + vs[1..];
      ContainingAreFiltered(norm, vs[1..], wanted, v);
    }
  }

  lemma {:induction false} LabelledAreFiltered(norm: string -> string, vs: seq<Value>, key: string,
          accepted: set<string>, v: Value)
    ensures multiset(Labelled(norm, vs, key, accepted))[v] ==
            if Label(norm, v, key) in accepted then multiset(vs)[v] else 0
  {
    if vs != [] {
      assert vs == [vs[0]] + vs[1..];
      LabelledAreFiltered(norm, vs[1..], key, accepted, v);
    }
  }

  /** A label is the normalised text of the field, and empty when it has none. */
  lemma {:induction false} LabelIs(norm: string -> string, v: Value, key: string)
    ensures forall i, s, p :: Holds(v, key, i, Text(s, p)) ==> Label(norm, v, key) == norm(s)
    ensures (forall i, s, p :: !Holds(v, key, i, Text(s, p))) ==> Label(norm, v, key) == ""
  {
    AtIff(v, key);
    forall i, s, p | Holds(v, key, i, Text(s, p)) ensures At(v, key) == Some(Text(s, p)) { }
    if At(v, key).Some? && At(v, key).value.Text? {
      var x := At(v, key).value;
      var i :| Holds(v, key, i, x);
      assert Holds(v, key, i, Text(x.s, x.parsed));
    }
  }

  /** The text of a field, and the empty text when it has none. */
  lemma {:induction false} TextAtIs(v: Value, key: string)
    ensures forall i, s, p :: Holds(v, key, i, Text(s, p)) ==> TextAt(v, key) == s
    ensures (forall i, s, p :: !Holds(v, key, i, Text(s, p))) ==> TextAt(v, key) == ""
  {
    LabelIs((s: string) => s, v, key);
    assert TextAt(v, key) == Label((s: string) => s, v, key);
  }

  // ------------------------------------------------------------------ leave previews

  predicate Scalar(v: Value) { !v.List? && !v.Record? }

  predicate PreviewField(key: string) {
    key in {"leaveTypeCode", "leaveTypeName", "startDate", "endDate", "requestedDays", "reason", "remainingDaysBefore",
            "remainingDaysAfter", "hasConflict"}
  }

  /** A result is shown as a leave preview when its `result` is flagged, names a confirmation id, and has a preview
      with at least one of the known fields holding a null, a text, a number or a boolean. */
  lemma {:induction false} LeavePreviewIff(v: Value)
    ensures IsLeavePreview(v) <==>
            var w := At(v, "result");
            && w.Some? && At(w.value, "confirmationRequired") == Some(Bool(true))
            && var c, p := At(w.value, "confirmation"), At(w.value, "preview");
               && c.Some? && ConfirmationReply.Uuid(TextAt(c.value, "id")) && p.Some? && ShowsSomething(p.value)
  {
    var w := At(v, "result");
    if w.Some? && At(w.value, "preview").Some? { ShownIsScalar(At(w.value, "preview").value); }
  }

  lemma {:induction false} ShownIsScalar(p: Value)
    ensures (p.Record? && exists i :: 0 <= i < |PREVIEW_FIELDS| && HasScalar(p, PREVIEW_FIELDS[i])) <==>
            ShowsSomething(p)
  {
    if p.Record? {
      if i :| 0 <= i < |PREVIEW_FIELDS| && HasScalar(p, PREVIEW_FIELDS[i]) { FieldIsKnown(p, i); }
      if key :| Shows(p, key) { FieldIsListed(key); }
    }
  }

  lemma {:induction false} FieldIsKnown(p: Value, i: int)
    requires 0 <= i < |PREVIEW_FIELDS| && HasScalar(p, PREVIEW_FIELDS[i])
    ensures Shows(p, PREVIEW_FIELDS[i])
  {
  }

  ghost predicate ShowsSomething(p: Value) { p.Record? && exists key :: Shows(p, key) }

  predicate Shows(p: Value, key: string) {
    PreviewField(key) && At(p, key).Some? && Scalar(At(p, key).value)
  }

  lemma {:induction false} FieldIsListed(key: string)
    requires PreviewField(key)
    ensures exists i :: 0 <= i < |PREVIEW_FIELDS| && PREVIEW_FIELDS[i] == key
  {
    assert PREVIEW_FIELDS[0] == "leaveTypeCode" && PREVIEW_FIELDS[1] == "leaveTypeName";
    assert PREVIEW_FIELDS[2] == "startDate" && PREVIEW_FIELDS[3] == "endDate" && PREVIEW_FIELDS[4] == "requestedDays";
    assert PREVIEW_FIELDS[5] == "reason" && PREVIEW_FIELDS[6] == "remainingDaysBefore";
    assert PREVIEW_FIELDS[7] == "remainingDaysAfter" && PREVIEW_FIELDS[8] == "hasConflict";
  }

  // ----------------------------------------------------------------------- the trace

  function CountExecuted(trace: seq<Action>): nat {
    if trace == [] then 0
    else CountExecuted(trace[..|trace| - 1]) + if trace[|trace| - 1].Executed? then 1 else 0
  }

  /** Every tool result in the trace is the answer to that execution, the first to the first, and so on. */
  ghost predicate AnsweredInOrder(env: Env, trace: seq<Action>) {
    forall i :: 0 <= i < |trace| && trace[i].Executed? ==> trace[i].outcome == env.tool(CountExecuted(trace[..i]))
  }

  /** The calls executed for the model, in order. */
  function LoopCalls(trace: seq<Action>): seq<ToolCall> {
    if trace == [] then [] else
    var a := trace[|trace| - 1];
    LoopCalls(trace[..|trace| - 1]) + if a.Executed? && !a.fallback then [a.call] else []
  }

  /** The calls of the first `n` replies of the model, one after the other. */
  function Requested(env: Env, n: nat): seq<ToolCall> {
    if n == 0 then [] else
    Requested(env, n - 1) + if env.reply(n - 1).Reply? then env.reply(n - 1).calls else []
  }

  /** The tools have answered in order, and have been executed exactly `executed` times. */
  ghost predicate Faithful(env: Env, s: State) {
    s.executed == CountExecuted(s.trace) && AnsweredInOrder(env, s.trace)
  }

  lemma {:induction false} OneMoreAction(env: Env, trace: seq<Action>, a: Action)
    requires AnsweredInOrder(env, trace) && (a.Executed? ==> a.outcome == env.tool(CountExecuted(trace)))
    ensures AnsweredInOrder(env, trace + [a])
    ensures CountExecuted(trace + [a]) == CountExecuted(trace) + if a.Executed? then 1 else 0
    ensures LoopCalls(trace + [a]) == LoopCalls(trace) + if a.Executed? && !a.fallback then [a.call] else []
  {
    var all := trace + [a];
    assert all[..|trace|] == trace;
    forall i | 0 <= i < |all| && all[i].Executed? ensures all[i].outcome == env.tool(CountExecuted(all[..i])) {
      assert all[..i] == if i < |trace| then trace[..i] else trace;
    }
  }

  // -------------------------------------------------------------- why a turn ends

  predicate LastIs(t: State, call: ToolCall, outcome: ToolOutcome, fallback: bool) {
    t.trace != [] && t.trace[|t.trace| - 1] == Executed(call, outcome, fallback)
  }

  /** The model was asked last, with tools or without, and gave this reply. */
  predicate LastReply(env: Env, t: State, withTools: bool, r: ModelReply) {
    t.trace != [] && t.trace[|t.trace| - 1] == Asked(withTools) && t.asked > 0 && env.reply(t.asked - 1) == r
  }

  /** The action before the last is a tool result that requires confirmation and is no leave preview. */
  predicate AskedForConfirmation(t: State) {
    |t.trace| >= 2 &&
    var a := t.trace[|t.trace| - 2];
    && a.Executed? && !a.fallback && a.outcome.Result? && RequiresConfirmation(a.outcome.value)
    && !IsLeavePreview(a.outcome.value)
  }

  /** Why the calls of one reply end the turn. */
  ghost predicate StopExplained(env: Env, t: State, stop: Outcome) {
    match stop
    case Aborted => t.checks > 0 && env.aborted(t.checks - 1)
    case ToolError => exists call :: LastIs(t, call, ToolThrew, false)
    case LeavePreview(v) =>
      RequiresConfirmation(v) && IsLeavePreview(v) && exists call :: LastIs(t, call, Result(v), false)
    case ModelError => LastReply(env, t, false, ModelFailed) && AskedForConfirmation(t)
    case AskedUser(text) => (exists calls :: LastReply(env, t, false, Reply(text, calls))) && AskedForConfirmation(t)
    case _ => false
  }

  lemma {:induction false} ConfirmationExplained(env: Env, s: State, call: ToolCall, v: Value)
    requires Faithful(env, s) && LastIs(s, call, Result(v), false) && RequiresConfirmation(v)
    ensures IsLeavePreview(v) ==> StopExplained(env, s, LeavePreview(v))
    ensures var t, reply := Ask(s, false), env.reply(s.asked);
            && Faithful(env, t) && LoopCalls(t.trace) == LoopCalls(s.trace)
            && (!IsLeavePreview(v) ==>
                  StopExplained(env, t, if reply.ModelFailed? then ModelError else AskedUser(reply.text)))
  {
    var t := Ask(s, false);
    OneMoreAction(env, s.trace, Asked(false));
    assert t.trace[|t.trace| - 2] == s.trace[|s.trace| - 1];
    assert LastReply(env, t, false, env.reply(s.asked));
  }

  lemma {:induction false} OneCallExecuted(env: Env, s: State, call: ToolCall)
    requires Faithful(env, s)
    ensures var t := Execute(env, s, call, false);
            && Faithful(env, t) && LoopCalls(t.trace) == LoopCalls(s.trace) + [call]
            && LastIs(t, call, env.tool(s.executed), false)
  {
    OneMoreAction(env, s.trace, Executed(call, env.tool(s.executed), false));
  }

  /** What is done after a result that requires confirmation. */
  function Ending(env: Env, s: State, v: Value): (State, Option<Outcome>) {
    if IsLeavePreview(v) then (s, Some(LeavePreview(v))) else
    var reply := env.reply(s.asked);
    (Ask(s, false), Some(if reply.ModelFailed? then ModelError else AskedUser(reply.text)))
  }

  function AfterCall(env: Env, s: State, call: ToolCall): State {
    Execute(env, s.(checks := s.checks + 1), call, false)
  }

  lemma {:induction false} FirstCall(env: Env, s: State, calls: seq<ToolCall>)
    requires calls != [] && !env.aborted(s.checks)
    ensures var after := AfterCall(env, s, calls[0]);
            Calls(env, s, calls) ==
            match env.tool(s.executed)
            case ToolThrew => (after, Some(ToolError))
            case Result(v) =>
              var recorded := after.(workflow := Recorded(after.workflow, calls[0], v));
              if RequiresConfirmation(v) then Ending(env, recorded, v) else Calls(env, recorded, calls[1..])
  {
  }

  /** The first `n` of the calls have been executed, in order: all of them, or up to the one that ends the turn. */
  ghost predicate Performed(env: Env, s: State, calls: seq<ToolCall>, n: nat, t: State, stop: Option<Outcome>) {
    && n <= |calls| && Faithful(env, t) && LoopCalls(t.trace) == LoopCalls(s.trace) + calls[..n]
    && (stop.None? ==> n == |calls| && t.asked == s.asked)
    && (stop.Some? ==> StopExplained(env, t, stop.value) && t.asked >= s.asked)
  }

  lemma {:induction false} EndingPerforms(env: Env, s: State, r: State, calls: seq<ToolCall>, v: Value)
    requires calls != [] && Faithful(env, r) && LoopCalls(r.trace) == LoopCalls(s.trace) + [calls[0]]
    requires LastIs(r, calls[0], Result(v), false) && RequiresConfirmation(v) && r.asked == s.asked
    ensures var (t, stop) := Ending(env, r, v); Performed(env, s, calls, 1, t, stop)
  {
    ConfirmationExplained(env, r, calls[0], v);
    assert calls[..1] == [calls[0]];
  }

  lemma {:induction false} ThrowPerforms(env: Env, s: State, t: State, calls: seq<ToolCall>)
    requires calls != [] && Faithful(env, t) && LoopCalls(t.trace) == LoopCalls(s.trace) + [calls[0]]
    requires LastIs(t, calls[0], ToolThrew, false) && t.asked == s.asked
    ensures Performed(env, s, calls, 1, t, Some(ToolError))
  {
    assert calls[..1] == [calls[0]];
  }

  lemma {:induction false} OneMorePerforms(env: Env, s: State, r: State, calls: seq<ToolCall>, n: nat, t: State,
          stop: Option<Outcome>)
    requires calls != [] && LoopCalls(r.trace) == LoopCalls(s.trace) + [calls[0]] && r.asked == s.asked
    requires Performed(env, r, calls[1..], n, t, stop)
    ensures Performed(env, s, calls, n + 1, t, stop)
  {
    assert [calls[0]] + calls[1..][..n] == calls[..n + 1];
  }

  lemma {:induction false} NonePerforms(env: Env, s: State, calls: seq<ToolCall>)
    requires Faithful(env, s) && (calls == [] || env.aborted(s.checks))
    ensures var (t, stop) := Calls(env, s, calls); Performed(env, s, calls, 0, t, stop)
  {
    assert LoopCalls(s.trace) + calls[..0] == LoopCalls(s.trace);
  }

  /** The calls of one reply are executed in order, all of them unless the turn ends among them, and then for one
      of the reasons above. */
  lemma {:induction false} CallsAreExecuted(env: Env, s: State, calls: seq<ToolCall>) returns (n: nat)
    requires Faithful(env, s)
    ensures Performed(env, s, calls, n, Calls(env, s, calls).0, Calls(env, s, calls).1)
    decreases |calls|
  {
    if calls == [] || env.aborted(s.checks) {
      NonePerforms(env, s, calls);
      return 0;
    }
    var after := AfterCall(env, s, calls[0]);
    FirstCall(env, s, calls);
    OneCallExecuted(env, s.(checks := s.checks + 1), calls[0]);
    if env.tool(s.executed).ToolThrew? {
      ThrowPerforms(env, s, after, calls);
      return 1;
    }
    var v := env.tool(s.executed).value;
    var recorded := after.(workflow := Recorded(after.workflow, calls[0], v));
    if RequiresConfirmation(v) {
      EndingPerforms(env, s, recorded, calls, v);
      return 1;
    }
    n := CallsAreExecuted(env, recorded, calls[1..]);
    OneMorePerforms(env, s, recorded, calls, n, Calls(env, recorded, calls[1..]).0, Calls(env, recorded, calls[1..]).1);
    n := n + 1;
  }

  // ----------------------------------------------------------------- the turn as a whole

  /** Nothing was asked and no call executed for the model in between. */
  ghost predicate Kept(env: Env, s: State, t: State) {
    Faithful(env, t) && LoopCalls(t.trace) == LoopCalls(s.trace) && t.asked == s.asked
  }

  /** The tools have thrown when the completion of a status change fails, and it ends in no other way but these. */
  ghost predicate CompletionExplained(t: State, completion: Option<Outcome>) {
    completion.Some? ==>
      match completion.value
      case ToolError => exists call :: LastIs(t, call, ToolThrew, true)
      case ChooseStatus(_) => true
      case StatusChanged(_, _) => true
      case _ => false
  }

  lemma {:induction false} OneFallback(env: Env, s: State, call: ToolCall)
    requires Faithful(env, s)
    ensures Kept(env, s, Execute(env, s, call, true))
    ensures LastIs(Execute(env, s, call, true), call, env.tool(s.executed), true)
  {
    OneMoreAction(env, s.trace, Executed(call, env.tool(s.executed), true));
  }

  lemma {:induction false} FindTaskKeeps(k: Setting, env: Env, r: StatusChange, s: State)
    requires Faithful(env, s)
    ensures var (t, task) := FindTask(k, env, r, s);
            Kept(env, s, t) && (task.Err? ==> CompletionExplained(t, task.error))
  {
    OneFallback(env, s, ToolCall("get_project_tasks", TextRecord([("name", r.taskName)])));
  }

  lemma {:induction false} FindStatusesKeeps(env: Env, projectId: string, s: State)
    requires Faithful(env, s)
    ensures var (t, statuses) := FindStatuses(env, projectId, s);
            Kept(env, s, t) && (statuses.Err? ==> CompletionExplained(t, statuses.error))
  {
    OneFallback(env, s, ToolCall("get_project_statuses", TextRecord([("projectId", projectId)])));
  }

  lemma {:induction false} UpdateKeeps(env: Env, task: Value, projectId: string, state: Value, s: State)
    requires Faithful(env, s)
    ensures var (t, completion) := Update(env, task, projectId, state, s);
            Kept(env, s, t) && CompletionExplained(t, completion)
  {
    var attempted := s.(workflow := s.workflow.(updateAttempted := true));
    OneFallback(env, attempted, UpdateCall(task, projectId, state));
  }

  /** What is done once the states that match are known. */
  function Decided(env: Env, task: Value, projectId: string, states: seq<Value>, s: State): (State, Option<Outcome>) {
    if |states| > 1 then (s, Some(ChooseStatus(states)))
    else if states == [] || TextAt(states[0], "externalId") == "" then (s, None)
    else Update(env, task, projectId, states[0], s)
  }

  lemma {:induction false} ChosenIsDecided(k: Setting, env: Env, r: StatusChange, task: Value, projectId: string,
          s: State)
    ensures var (s2, statuses) := FindStatuses(env, projectId, s);
            Chosen(k, env, r, task, projectId, s) ==
            if statuses.Err? then (s2, statuses.error)
            else Decided(env, task, projectId, MatchingStatuses(k.norm, statuses.value, r.requestedStatus), s2)
  {
  }

  lemma {:induction false} DecidedKeeps(env: Env, task: Value, projectId: string, states: seq<Value>, s: State)
    requires Faithful(env, s)
    ensures var (t, completion) := Decided(env, task, projectId, states, s);
            Kept(env, s, t) && CompletionExplained(t, completion)
  {
    if |states| == 1 { UpdateKeeps(env, task, projectId, states[0], s); }
  }

  lemma {:induction false} ChosenKeeps(k: Setting, env: Env, r: StatusChange, task: Value, projectId: string, s: State)
    requires Faithful(env, s)
    ensures var (t, completion) := Chosen(k, env, r, task, projectId, s);
            Kept(env, s, t) && CompletionExplained(t, completion)
  {
    FindStatusesKeeps(env, projectId, s);
    ChosenIsDecided(k, env, r, task, projectId, s);
    var (s2, statuses) := FindStatuses(env, projectId, s);
    if statuses.Ok? {
      DecidedKeeps(env, task, projectId, MatchingStatuses(k.norm, statuses.value, r.requestedStatus), s2);
    }
  }

  lemma {:induction false} CompleteKeeps(k: Setting, env: Env, request: Option<StatusChange>, s: State)
    requires Faithful(env, s)
    ensures var (t, completion) := Complete(k, env, request, s);
            Kept(env, s, t) && CompletionExplained(t, completion)
  {
    if request.Some? && !s.workflow.updateAttempted {
      FindTaskKeeps(k, env, request.value, s);
      var (s1, task) := FindTask(k, env, request.value, s);
      if task.Ok? {
        ChosenKeeps(k, env, request.value, task.value, WithoutPlanePrefix(TextAt(task.value, "externalProjectId")), s1);
      }
    }
  }

  /** The model's last reply has no calls. */
  predicate Finished(env: Env, t: State) {
    t.asked > 0 && env.reply(t.asked - 1).Reply? && env.reply(t.asked - 1).calls == []
  }

  /** Why a turn of at most `max` iterations ends, and which calls were executed in it. */
  ghost predicate TurnExplained(env: Env, max: nat, t: State, outcome: Outcome) {
    && LoopCalls(t.trace) <= Requested(env, t.asked)
    && match outcome
       case Answered(text) => Finished(env, t) && text == env.reply(t.asked - 1).text && AllExecuted(env, t)
       case ChooseStatus(_) => Finished(env, t) && AllExecuted(env, t)
       case StatusChanged(_, _) => Finished(env, t) && AllExecuted(env, t)
       case LoopLimit => t.asked == max && AllExecuted(env, t)
       case Aborted => t.checks > 0 && env.aborted(t.checks - 1)
       case ModelError => LastReply(env, t, true, ModelFailed) || StopExplained(env, t, ModelError)
       case ToolError => exists call, fallback :: LastIs(t, call, ToolThrew, fallback)
       case LeavePreview(v) => StopExplained(env, t, outcome)
       case AskedUser(text) => StopExplained(env, t, outcome)
  }

  predicate AllExecuted(env: Env, t: State) { LoopCalls(t.trace) == Requested(env, t.asked) }

  lemma {:induction false} RequestedGrows(env: Env, m: nat, n: nat)
    requires m <= n
    ensures Requested(env, m) <= Requested(env, n)
  {
    if m < n { RequestedGrows(env, m, n - 1); }
  }

  /** The turn goes on: every call asked for so far has been executed. */
  ghost predicate UpToDate(env: Env, s: State, iteration: nat) {
    Faithful(env, s) && AllExecuted(env, s) && s.asked == iteration
  }

  lemma {:induction false} AskingIsFaithful(env: Env, s: State, withTools: bool)
    requires Faithful(env, s)
    ensures Faithful(env, Ask(s, withTools)) && LoopCalls(Ask(s, withTools).trace) == LoopCalls(s.trace)
    ensures LastReply(env, Ask(s, withTools), withTools, env.reply(s.asked))
  {
    OneMoreAction(env, s.trace, Asked(withTools));
  }

  lemma {:induction false} CompletionEnds(k: Setting, env: Env, request: Option<StatusChange>, s: State, text: string)
    requires Faithful(env, s) && s.asked > 0 && env.reply(s.asked - 1) == Reply(text, []) && AllExecuted(env, s)
    ensures var (t, completion) := Complete(k, env, request, s);
            TurnExplained(env, k.maxToolIterations, t, if completion.Some? then completion.value else Answered(text))
  {
    CompleteKeeps(k, env, request, s);
  }

  lemma {:induction false} StopEnds(env: Env, max: nat, s: State, calls: seq<ToolCall>, n: nat, t: State, stop: Outcome)
    requires Performed(env, s, calls, n, t, Some(stop)) && LoopCalls(s.trace) + calls == Requested(env, s.asked)
    ensures TurnExplained(env, max, t, stop)
  {
    RequestedGrows(env, s.asked, t.asked);
    assert LoopCalls(s.trace) + calls[..n] <= LoopCalls(s.trace) + calls;
  }

  lemma {:induction false} EndsAtOnce(env: Env, max: nat, s: State, iteration: nat)
    requires iteration <= max && UpToDate(env, s, iteration)
    ensures iteration == max ==> TurnExplained(env, max, s, LoopLimit)
    ensures env.aborted(s.checks) ==> TurnExplained(env, max, s.(checks := s.checks + 1), Aborted)
  {
  }

  lemma {:induction false} ModelFails(env: Env, max: nat, s: State, iteration: nat)
    requires UpToDate(env, s, iteration) && env.reply(s.asked).ModelFailed?
    ensures TurnExplained(env, max, Ask(s, true), ModelError)
  {
    AskingIsFaithful(env, s, true);
    RequestedGrows(env, s.asked, s.asked + 1);
  }

  lemma {:induction false} IterateUnfolds(k: Setting, env: Env, request: Option<StatusChange>, s: State, iteration: nat)
    requires iteration < k.maxToolIterations && !env.aborted(s.checks)
    ensures var asked := Ask(s.(checks := s.checks + 1), true);
            Iterate(k, env, request, s, iteration) ==
            match env.reply(s.asked)
            case ModelFailed => (asked, ModelError)
            case Reply(text, calls) =>
              if calls == [] then
                var (t, completion) := Complete(k, env, request, asked);
                (t, if completion.Some? then completion.value else Answered(text))
              else
                var (t, stop) := Calls(env, asked, calls);
                if stop.Some? then (t, stop.value) else Iterate(k, env, request, t, iteration + 1)
  {
  }

  lemma {:induction false} IterateIsExplained(k: Setting, env: Env, request: Option<StatusChange>, s: State,
          iteration: nat)
    requires iteration <= k.maxToolIterations && UpToDate(env, s, iteration)
    ensures var r := Iterate(k, env, request, s, iteration); TurnExplained(env, k.maxToolIterations, r.0, r.1)
    decreases k.maxToolIterations - iteration
  {
    if iteration == k.maxToolIterations || env.aborted(s.checks) {
      EndsAtOnce(env, k.maxToolIterations, s, iteration);
      return;
    }
    var checked := s.(checks := s.checks + 1);
    IterateUnfolds(k, env, request, s, iteration);
    if env.reply(s.asked).ModelFailed? {
      ModelFails(env, k.maxToolIterations, checked, iteration);
    } else {
      AskingIsFaithful(env, checked, true);
      if env.reply(s.asked).calls == [] {
        CompletionEnds(k, env, request, Ask(checked, true), env.reply(s.asked).text);
      } else {
        IterateCalls(k, env, request, Ask(checked, true), iteration);
      }
    }
  }

  lemma {:induction false} IterateCalls(k: Setting, env: Env, request: Option<StatusChange>, asked: State,
          iteration: nat)
    requires iteration < k.maxToolIterations && Faithful(env, asked) && asked.asked == iteration + 1
    requires env.reply(iteration).Reply? && env.reply(iteration).calls != []
    requires LoopCalls(asked.trace) + env.reply(iteration).calls == Requested(env, asked.asked)
    ensures var (t, stop) := Calls(env, asked, env.reply(iteration).calls);
            var max := k.maxToolIterations;
            if stop.Some? then TurnExplained(env, max, t, stop.value)
            else var r := Iterate(k, env, request, t, iteration + 1); TurnExplained(env, max, r.0, r.1)
    decreases k.maxToolIterations - iteration, 0
  {
    var calls := env.reply(iteration).calls;
    var (t, stop) := Calls(env, asked, calls);
    var n := CallsAreExecuted(env, asked, calls);
    if stop.Some? {
      StopEnds(env, k.maxToolIterations, asked, calls, n, t, stop.value);
    } else {
      assert calls[..n] == calls;
      IterateIsExplained(k, env, request, t, iteration + 1);
    }
  }

  /** Every turn ends for one of these reasons, and executes for the model exactly calls that it asked for, in the
      order in which it asked: all of them when it ends with an answer, a status change or at the loop limit. */
  lemma {:induction false} TurnIsExplained(k: Setting, env: Env, request: Option<StatusChange>)
    ensures TurnExplained(env, k.maxToolIterations, Run(k, env, request).0, Run(k, env, request).1)
  {
    IterateIsExplained(k, env, request, START, 0);
  }
}
