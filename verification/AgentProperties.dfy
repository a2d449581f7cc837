/** What a turn of the agent can do, whatever the model and the tools answer. */
module AgentProperties {
  import opened Wrappers
  import opened Agent

  // ----------------------------------------------------------------- bounded model calls

  function CountAsked(trace: seq<Action>): nat {
    if trace == [] then 0 else CountAsked(trace[..|trace| - 1]) + if trace[|trace| - 1].Asked? then 1 else 0
  }

  predicate Counted(s: State) { s.asked == CountAsked(s.trace) }

  lemma {:induction false} ExecuteCounts(env: Env, s: State, call: ToolCall, fallback: bool)
    requires Counted(s)
    ensures Counted(Execute(env, s, call, fallback)) && Execute(env, s, call, fallback).asked == s.asked
  {
    assert Execute(env, s, call, fallback).trace[..|s.trace|] == s.trace;
  }

  lemma {:induction false} CallsAskAtMostOnce(env: Env, s: State, calls: seq<ToolCall>)
    requires Counted(s)
    ensures var (t, stop) := Calls(env, s, calls);
            Counted(t) && t.asked <= s.asked + 1 && (stop.None? ==> t.asked == s.asked)
    decreases |calls|
  {
    if calls != [] && !env.aborted(s.checks) {
      var checked := s.(checks := s.checks + 1);
      var after := Execute(env, checked, calls[0], false);
      ExecuteCounts(env, checked, calls[0], false);
      if env.tool(s.executed).Result? {
        var v := env.tool(s.executed).value;
        var recorded := after.(workflow := Recorded(after.workflow, calls[0], v));
        if !RequiresConfirmation(v) { CallsAskAtMostOnce(env, recorded, calls[1..]); }
        assert Ask(recorded, false).trace[..|recorded.trace|] == recorded.trace;
      }
    }
  }

  lemma {:induction false} FindStatusesCounts(env: Env, projectId: string, s: State)
    requires Counted(s)
    ensures Counted(FindStatuses(env, projectId, s).0) && FindStatuses(env, projectId, s).0.asked == s.asked
  {
    ExecuteCounts(env, s, ToolCall("get_project_statuses", TextRecord([("projectId", projectId)])), true);
  }

  lemma {:induction false} UpdateCounts(env: Env, task: Value, projectId: string, state: Value, s: State)
    requires Counted(s)
    ensures Counted(Update(env, task, projectId, state, s).0)
    ensures Update(env, task, projectId, state, s).0.asked == s.asked
  {
    ExecuteCounts(env, s.(workflow := s.workflow.(updateAttempted := true)), UpdateCall(task, projectId, state), true);
  }

  lemma {:induction false} FindTaskCounts(k: Setting, env: Env, r: StatusChange, s: State)
    requires Counted(s)
    ensures Counted(FindTask(k, env, r, s).0) && FindTask(k, env, r, s).0.asked == s.asked
  {
    ExecuteCounts(env, s, ToolCall("get_project_tasks", TextRecord([("name", r.taskName)])), true);
  }

  lemma {:induction false} ChosenCounts(k: Setting, env: Env, r: StatusChange, task: Value, projectId: string, s: State)
    requires Counted(s)
    ensures Counted(Chosen(k, env, r, task, projectId, s).0) && Chosen(k, env, r, task, projectId, s).0.asked == s.asked
  {
    FindStatusesCounts(env, projectId, s);
    var (s2, statuses) := FindStatuses(env, projectId, s);
    if statuses.Ok? {
      var states := MatchingStatuses(k.norm, statuses.value, r.requestedStatus);
      if |states| == 1 { UpdateCounts(env, task, projectId, states[0], s2); }
    }
  }

  lemma {:induction false} CompleteCounts(k: Setting, env: Env, request: Option<StatusChange>, s: State)
    requires Counted(s)
    ensures Counted(Complete(k, env, request, s).0) && Complete(k, env, request, s).0.asked == s.asked
  {
    if request.Some? && !s.workflow.updateAttempted {
      FindTaskCounts(k, env, request.value, s);
      var (s1, task) := FindTask(k, env, request.value, s);
      if task.Ok? {
        var projectId := WithoutPlanePrefix(TextAt(task.value, "externalProjectId"));
        ChosenCounts(k, env, request.value, task.value, projectId, s1);
      }
    }
  }

  /** The state in which the model has been asked with tools. */
  function Asking(s: State): State { Ask(s.(checks := s.checks + 1), true) }

  lemma {:induction false} AskingCounts(s: State)
    requires Counted(s)
    ensures Counted(Asking(s)) && Asking(s).asked == s.asked + 1
  {
    assert Asking(s).trace[..|s.trace|] == s.trace;
  }

  lemma {:induction false} IterateAsks(k: Setting, env: Env, request: Option<StatusChange>, s: State, iteration: nat)
    requires iteration <= k.maxToolIterations && Counted(s)
    ensures var t := Iterate(k, env, request, s, iteration).0;
            Counted(t) && t.asked <= s.asked + (k.maxToolIterations - iteration) + 1
    decreases k.maxToolIterations - iteration
  {
    if iteration < k.maxToolIterations && !env.aborted(s.checks) {
      var asked := Asking(s);
      AskingCounts(s);
      if env.reply(s.asked).Reply? {
        var calls := env.reply(s.asked).calls;
        if calls == [] {
          CompleteCounts(k, env, request, asked);
        } else {
          var (t, stop) := Calls(env, asked, calls);
          CallsAskAtMostOnce(env, asked, calls);
          if stop.None? { IterateAsks(k, env, request, t, iteration + 1); }
        }
      }
    }
  }

  /** A turn makes at most `maxToolIterations` + 1 model calls. */
  lemma {:induction false} ModelCallsAreBounded(k: Setting, env: Env, request: Option<StatusChange>)
    ensures CountAsked(Run(k, env, request).0.trace) <= k.maxToolIterations + 1
  {
    IterateAsks(k, env, request, START, 0);
  }

  // ------------------------------------------------- the turn stops to ask for confirmation

  /** Action `a` is a tool result that requires confirmation. */
  predicate AsksConfirmation(a: Action) {
    a.Executed? && a.outcome.Result? && RequiresConfirmation(a.outcome.value)
  }

  /** No tool is executed after a result that requires confirmation. */
  ghost predicate Stops(trace: seq<Action>) {
    forall i, j :: 0 <= i < j < |trace| && AsksConfirmation(trace[i]) ==> !trace[j].Executed?
  }

  /** The same, for results the model asked for itself. */
  ghost predicate StopsInLoop(trace: seq<Action>) {
    forall i, j :: 0 <= i < j < |trace| && AsksConfirmation(trace[i]) && !trace[i].fallback ==> !trace[j].Executed?
  }

  /** Nothing so far asked for confirmation, and nothing is a fallback. */
  ghost predicate Unstopped(trace: seq<Action>) {
    forall i :: 0 <= i < |trace| ==> !AsksConfirmation(trace[i]) && (trace[i].Executed? ==> !trace[i].fallback)
  }

  /** Every action from `from` on is a fallback execution. */
  ghost predicate OnlyFallback(trace: seq<Action>, from: nat) {
    forall i :: from <= i < |trace| ==> trace[i].Executed? && trace[i].fallback
  }

  lemma {:induction false} CallsStop(env: Env, s: State, calls: seq<ToolCall>)
    requires Unstopped(s.trace)
    ensures var (t, stop) := Calls(env, s, calls);
            && (stop.None? ==> Unstopped(t.trace)) && Stops(t.trace)
            && (forall i :: 0 <= i < |t.trace| && t.trace[i].Executed? ==> !t.trace[i].fallback)
    decreases |calls|
  {
    if calls != [] && !env.aborted(s.checks) {
      var after := Execute(env, s.(checks := s.checks + 1), calls[0], false);
      if env.tool(s.executed).Result? && !RequiresConfirmation(env.tool(s.executed).value) {
        CallsStop(env, after.(workflow := Recorded(after.workflow, calls[0], env.tool(s.executed).value)), calls[1..]);
      }
    }
  }

  /** `t` is `s` followed by fallback executions. */
  ghost predicate Extends(s: seq<Action>, t: seq<Action>) { s <= t && OnlyFallback(t, |s|) }

  lemma {:induction false} ExtendsTransitive(r: seq<Action>, s: seq<Action>, t: seq<Action>)
    requires Extends(r, s) && Extends(s, t)
    ensures Extends(r, t)
  {
  }

  lemma {:induction false} FindStatusesAppends(env: Env, projectId: string, s: State)
    ensures Extends(s.trace, FindStatuses(env, projectId, s).0.trace)
  {
  }

  lemma {:induction false} UpdateAppends(env: Env, task: Value, projectId: string, state: Value, s: State)
    ensures Extends(s.trace, Update(env, task, projectId, state, s).0.trace)
  {
  }

  lemma {:induction false} FindTaskAppends(k: Setting, env: Env, r: StatusChange, s: State)
    ensures Extends(s.trace, FindTask(k, env, r, s).0.trace)
  {
  }

  lemma {:induction false} ChosenAppends(k: Setting, env: Env, r: StatusChange, task: Value, projectId: string,
          s: State)
    ensures Extends(s.trace, FindStatuses(env, projectId, s).0.trace)
    ensures Extends(FindStatuses(env, projectId, s).0.trace, Chosen(k, env, r, task, projectId, s).0.trace)
    ensures Extends(s.trace, Chosen(k, env, r, task, projectId, s).0.trace)
  {
    var (s2, statuses) := FindStatuses(env, projectId, s);
    var t := Chosen(k, env, r, task, projectId, s).0;
    FindStatusesAppends(env, projectId, s);
    if statuses.Ok? {
      var states := MatchingStatuses(k.norm, statuses.value, r.requestedStatus);
      if |states| == 1 { UpdateAppends(env, task, projectId, states[0], s2); }
    }
    ExtendsTransitive(s.trace, s2.trace, t.trace);
  }

  /** Completion only appends fallback executions, none without a request. */
  lemma {:induction false} CompleteAppends(k: Setting, env: Env, request: Option<StatusChange>, s: State)
    ensures var t := Complete(k, env, request, s).0;
            Extends(s.trace, t.trace) && (request.None? ==> t.trace == s.trace)
  {
    if request.Some? && !s.workflow.updateAttempted {
      var (s1, task) := FindTask(k, env, request.value, s);
      FindTaskAppends(k, env, request.value, s);
      if task.Ok? {
        var projectId := WithoutPlanePrefix(TextAt(task.value, "externalProjectId"));
        ChosenAppends(k, env, request.value, task.value, projectId, s1);
        ExtendsTransitive(s.trace, s1.trace, Chosen(k, env, request.value, task.value, projectId, s1).0.trace);
      }
    }
  }

  lemma {:induction false} FallbackAfterUnstopped(s: seq<Action>, t: seq<Action>)
    requires Unstopped(s) && Extends(s, t)
    ensures StopsInLoop(t) && (t == s ==> Stops(t))
  {
    forall i | 0 <= i < |t| ensures AsksConfirmation(t[i]) ==> t[i].fallback {
      if i < |s| { assert t[i] == s[i]; }
    }
  }

  lemma {:induction false} StopsIsStopsInLoop(t: seq<Action>)
    requires Stops(t)
    ensures StopsInLoop(t)
  {
  }

  lemma {:induction false} IterateStops(k: Setting, env: Env, request: Option<StatusChange>, s: State, iteration: nat)
    requires iteration <= k.maxToolIterations && Unstopped(s.trace)
    ensures StopsInLoop(Iterate(k, env, request, s, iteration).0.trace)
    ensures request.None? ==> Stops(Iterate(k, env, request, s, iteration).0.trace)
    decreases k.maxToolIterations - iteration
  {
    var asked := Asking(s);
    if iteration == k.maxToolIterations || env.aborted(s.checks) {
      assert Stops(s.trace);
    } else if env.reply(s.asked).ModelFailed? {
      assert Stops(asked.trace);
    } else {
      var calls := env.reply(s.asked).calls;
      assert Unstopped(asked.trace);
      if calls == [] {
        CompleteAppends(k, env, request, asked);
        FallbackAfterUnstopped(asked.trace, Complete(k, env, request, asked).0.trace);
      } else {
        var (t, stop) := Calls(env, asked, calls);
        CallsStop(env, asked, calls);
        StopsIsStopsInLoop(t.trace);
        if stop.None? { IterateStops(k, env, request, t, iteration + 1); }
      }
    }
  }

  /** After a tool result of the loop that requires confirmation no tool runs in the turn. */
  lemma {:induction false} LoopStopsForConfirmation(k: Setting, env: Env, request: Option<StatusChange>)
    ensures StopsInLoop(Run(k, env, request).0.trace)
  {
    IterateStops(k, env, request, START, 0);
  }

  // The look-ups of the fallback are not examined for that flag.

  /** Both the task and the state of the request. */
  function AskingItem(r: StatusChange): Value {
    Record([Field("title", Text(r.taskName, None)), Field("name", Text(r.requestedStatus, None)),
            Field("externalId", Text("t", None)), Field("externalProjectId", Text("p", None))])
  }

  function AskingResult(r: StatusChange): Value {
    Record([Field("success", Bool(true)), Field("confirmationRequired", Bool(true)),
            Field("result", List([AskingItem(r)]))])
  }

  /** A model that answers without tools, and tools whose every result requires confirmation. */
  function AskingEnv(r: StatusChange): Env {
    Env((i: nat) => Reply("", []), (i: nat) => Result(AskingResult(r)), (i: nat) => false)
  }

  lemma {:induction false} AtField(fs: seq<Field>, key: string, i: nat)
    requires i < |fs| && fs[i].key == key && forall j :: 0 <= j < i ==> fs[j].key != key
    ensures At(Record(fs), key) == Some(fs[i].value)
  {
    if i > 0 { AtField(fs[1..], key, i - 1); }
  }

  lemma {:induction false} AskingItemFacts(norm: string -> string, r: StatusChange)
    ensures var v := AskingItem(r);
            && Label(norm, v, "title") == norm(r.taskName) && Label(norm, v, "name") == norm(r.requestedStatus)
            && TextAt(v, "externalId") == "t" && TextAt(v, "externalProjectId") == "p"
  {
    var fs := AskingItem(r).fields;
    AtField(fs, "title", 0);
    AtField(fs, "name", 1);
    AtField(fs, "externalId", 2);
    AtField(fs, "externalProjectId", 3);
  }

  lemma {:induction false} AskingResultFacts(r: StatusChange)
    ensures var v := AskingResult(r); Success(v) && RequiresConfirmation(v) && Items(v) == [AskingItem(r)]
  {
    var fs := AskingResult(r).fields;
    AtField(fs, "success", 0);
    AtField(fs, "confirmationRequired", 1);
    AtField(fs, "result", 2);
  }

  lemma {:induction false} AskingTaskMatches(norm: string -> string, r: StatusChange, v: Value)
    requires Label(norm, v, "title") == norm(r.taskName)
    ensures MatchingTask(norm, [], r.taskName) == None && MatchingTask(norm, [v], r.taskName) == Some(v)
  {
    assert [v][1..] == [];
    assert ExactTasks(norm, [v], norm(r.taskName)) == [v];
  }

  lemma {:induction false} AskingStateMatches(norm: string -> string, r: StatusChange, v: Value)
    requires Label(norm, v, "name") == norm(r.requestedStatus)
    ensures MatchingStatuses(norm, [v], r.requestedStatus) == [v]
  {
    var wanted := norm(r.requestedStatus);
    assert [v][1..] == [];
    assert Labelled(norm, [v], "name", if wanted in ACTIVE_ALIASES then ACTIVE_ALIASES else {wanted}) == [v];
  }

  function LookUp(r: StatusChange, name: string, key: string, value: string): Action {
    Executed(ToolCall(name, TextRecord([(key, value)])), Result(AskingResult(r)), true)
  }

  lemma {:induction false} AskingFindsTask(k: Setting, r: StatusChange, s: State)
    requires s.workflow == START.workflow
    ensures var (t, task) := FindTask(k, AskingEnv(r), r, s);
            && task == Ok(AskingItem(r)) && t.workflow.statuses == map[]
            && t.trace == s.trace + [LookUp(r, "get_project_tasks", "name", r.taskName)]
  {
    AskingItemFacts(k.norm, r);
    AskingResultFacts(r);
    AskingTaskMatches(k.norm, r, AskingItem(r));
    assert s.workflow.tasks + Items(AskingResult(r)) == [AskingItem(r)];
  }

  lemma {:induction false} AskingUpdates(k: Setting, r: StatusChange, task: Value, s: State)
    requires s.workflow.statuses == map[]
    ensures Chosen(k, AskingEnv(r), r, task, "p", s).0.trace ==
            s.trace + [LookUp(r, "get_project_statuses", "projectId", "p")]
                    + [Executed(UpdateCall(task, "p", AskingItem(r)), Result(AskingResult(r)), true)]
  {
    AskingItemFacts(k.norm, r);
    AskingResultFacts(r);
    AskingStateMatches(k.norm, r, AskingItem(r));
    var (s2, statuses) := FindStatuses(AskingEnv(r), "p", s);
    assert statuses == Ok([AskingItem(r)]);
  }

  lemma {:induction false} AskingCompletes(k: Setting, r: StatusChange, s: State)
    requires s.workflow == START.workflow
    ensures Complete(k, AskingEnv(r), Some(r), s).0.trace ==
            s.trace + [LookUp(r, "get_project_tasks", "name", r.taskName)]
                    + [LookUp(r, "get_project_statuses", "projectId", "p")]
                    + [Executed(UpdateCall(AskingItem(r), "p", AskingItem(r)), Result(AskingResult(r)), true)]
  {
    AskingFindsTask(k, r, s);
    AskingItemFacts(k.norm, r);
    AskingUpdates(k, r, AskingItem(r), FindTask(k, AskingEnv(r), r, s).0);
  }

  /** The task is updated although the look-up of the task required confirmation. */
  lemma {:induction false} FallbackIgnoresConfirmation(k: Setting, r: StatusChange)
    requires k.maxToolIterations > 0
    ensures var t := Run(k, AskingEnv(r), Some(r)).0.trace;
            && |t| == 4 && AsksConfirmation(t[1]) && t[1].call.name == "get_project_tasks"
            && t[3].Executed? && t[3].call.name == "update_task" && !Stops(t)
  {
    var env, asked := AskingEnv(r), Asking(START);
    AskingResultFacts(r);
    AskingCompletes(k, r, asked);
    var t := Run(k, env, Some(r)).0.trace;
    assert t == Complete(k, env, Some(r), asked).0.trace;
    assert asked.trace == [Asked(true)];
  }

  /** Every turn, whatever the model and the tools answer, executes no tool after a result that requires
      confirmation, exactly when the user's message asks for no status change or no iteration is allowed. */
  lemma {:induction false} StopsIffNoStatusChangeIsPending(k: Setting, request: Option<StatusChange>)
    ensures (forall env :: Stops(Run(k, env, request).0.trace)) <==> request.None? || k.maxToolIterations == 0
  {
    if request.None? || k.maxToolIterations == 0 {
      forall env ensures Stops(Run(k, env, request).0.trace) {
        if request.None? { IterateStops(k, env, request, START, 0); }
      }
    } else {
      FallbackIgnoresConfirmation(k, request.value);
    }
  }
}
