/** The status change that a turn completes by itself: every tool call it makes then, with its arguments,
    is justified by what the tools have listed before, and it claims what has happened. */
module AgentFallback {
  import opened Wrappers
  import opened Agent
  import opened AgentProperties

  // --------------------------------------------------------------- what the tools have listed

  predicate Succeeded(a: Action, name: string) {
    a.Executed? && a.call.name == name && a.outcome.Result? && Success(a.outcome.value)
  }

  /** The tasks listed so far by successful get_project_tasks results, in order. */
  function TasksListed(trace: seq<Action>): seq<Value> {
    if trace == [] then [] else
    var a := trace[|trace| - 1];
    TasksListed(trace[..|trace| - 1]) + if Succeeded(a, "get_project_tasks") then Items(a.outcome.value) else []
  }

  /** The project a successful get_project_statuses result is about, when its arguments name one. */
  function ProjectOf(a: Action): Option<string> {
    if !Succeeded(a, "get_project_statuses") then None else
    var id := At(a.call.args, "projectId");
    if id.None? || !id.value.Text? then None
    else Some(if a.fallback then id.value.s else WithoutPlanePrefix(id.value.s))
  }

  /** The statuses last listed for a project. */
  function StatusesListed(trace: seq<Action>, projectId: string): Option<seq<Value>> {
    if trace == [] then None else
    var a := trace[|trace| - 1];
    if ProjectOf(a) == Some(projectId) then Some(Items(a.outcome.value))
    else StatusesListed(trace[..|trace| - 1], projectId)
  }

  ghost predicate UpdatedTask(trace: seq<Action>) {
    exists i :: 0 <= i < |trace| && Succeeded(trace[i], "update_task")
  }

  predicate IsFallbackUpdate(a: Action) { a.Executed? && a.fallback && a.call.name == "update_task" }

  /** The workflow is what the results so far say. */
  ghost predicate Tracks(s: State) {
    && s.workflow.tasks == TasksListed(s.trace)
    && (forall p :: Get(s.workflow.statuses, p) == StatusesListed(s.trace, p))
    && (s.workflow.updateAttempted <==> UpdatedTask(s.trace))
  }

  lemma {:induction false} UpdatedTaskGrows(trace: seq<Action>, a: Action)
    ensures UpdatedTask(trace + [a]) <==> UpdatedTask(trace) || Succeeded(a, "update_task")
  {
    assert (trace + [a])[|trace|] == a;
    if i :| 0 <= i < |trace| && Succeeded(trace[i], "update_task") { assert (trace + [a])[i] == trace[i]; }
  }

  lemma {:induction false} ListedGrow(trace: seq<Action>, a: Action)
    ensures TasksListed(trace + [a]) ==
            TasksListed(trace) + if Succeeded(a, "get_project_tasks") then Items(a.outcome.value) else []
    ensures forall p :: StatusesListed(trace + [a], p) ==
              if ProjectOf(a) == Some(p) then Some(Items(a.outcome.value)) else StatusesListed(trace, p)
  {
    assert (trace + [a])[..|trace|] == trace;
  }

  lemma {:induction false} LoopToolTracks(env: Env, s: State, call: ToolCall)
    requires Tracks(s) && env.tool(s.executed).Result?
    ensures var after := Execute(env, s, call, false);
            Tracks(after.(workflow := Recorded(after.workflow, call, env.tool(s.executed).value)))
  {
    var a := Executed(call, env.tool(s.executed), false);
    ListedGrow(s.trace, a);
    UpdatedTaskGrows(s.trace, a);
  }

  lemma {:induction false} AskTracks(s: State, withTools: bool)
    requires Tracks(s)
    ensures Tracks(Ask(s, withTools))
  {
    ListedGrow(s.trace, Asked(withTools));
    UpdatedTaskGrows(s.trace, Asked(withTools));
  }

  lemma {:induction false} CallsTrack(env: Env, s: State, calls: seq<ToolCall>)
    requires Tracks(s)
    ensures var (t, stop) := Calls(env, s, calls); stop.None? ==> Tracks(t)
    decreases |calls|
  {
    if calls != [] && !env.aborted(s.checks) && env.tool(s.executed).Result? {
      var checked := s.(checks := s.checks + 1);
      var after := Execute(env, checked, calls[0], false);
      LoopToolTracks(env, checked, calls[0]);
      if !RequiresConfirmation(env.tool(s.executed).value) {
        CallsTrack(env, after.(workflow := Recorded(after.workflow, calls[0], env.tool(s.executed).value)), calls[1..]);
      }
    }
  }

  /** The look-up of the task leaves the workflow tracking, and finds the one task that matches. */
  lemma {:induction false} FindTaskTracks(k: Setting, env: Env, r: StatusChange, s: State)
    requires Tracks(s) && !s.workflow.updateAttempted
    ensures var (t, task) := FindTask(k, env, r, s);
            && (forall i :: |s.trace| <= i < |t.trace| ==> !IsFallbackUpdate(t.trace[i]))
            && (task.Ok? ==> Tracks(t) && !t.workflow.updateAttempted
                             && TaskMatches(k.norm, TasksListed(t.trace), r.taskName) == [task.value])
  {
    if MatchingTask(k.norm, s.workflow.tasks, r.taskName).None? {
      LookUpTracks(env, s, ToolCall("get_project_tasks", TextRecord([("name", r.taskName)])));
    } else {
      OneMatch(k.norm, s.workflow.tasks, r.taskName);
    }
    if FindTask(k, env, r, s).1.Ok? { OneMatch(k.norm, FindTask(k, env, r, s).0.workflow.tasks, r.taskName); }
  }

  lemma {:induction false} OneMatch(norm: string -> string, tasks: seq<Value>, taskName: string)
    requires MatchingTask(norm, tasks, taskName).Some?
    ensures TaskMatches(norm, tasks, taskName) == [MatchingTask(norm, tasks, taskName).value]
  {
  }

  lemma {:induction false} LookUpTracks(env: Env, s: State, call: ToolCall)
    requires Tracks(s) && call.name == "get_project_tasks" && !s.workflow.updateAttempted
    ensures var t := Execute(env, s, call, true);
            && !IsFallbackUpdate(t.trace[|s.trace|]) && |t.trace| == |s.trace| + 1
            && (env.tool(s.executed).Result? && Success(env.tool(s.executed).value) ==>
                  Tracks(t.(workflow := t.workflow.(tasks := t.workflow.tasks + Items(env.tool(s.executed).value)))))
  {
    var a := Executed(call, env.tool(s.executed), true);
    ListedGrow(s.trace, a);
    UpdatedTaskGrows(s.trace, a);
  }

  lemma {:induction false} ProjectArgument(projectId: string)
    ensures At(TextRecord([("projectId", projectId)]), "projectId") == Some(Text(projectId, None))
  {
    assert TextRecord([("projectId", projectId)]).fields == [Field("projectId", Text(projectId, None))];
  }

  lemma {:induction false} FindStatusesTracks(env: Env, projectId: string, s: State)
    requires Tracks(s) && !s.workflow.updateAttempted
    ensures var (t, statuses) := FindStatuses(env, projectId, s);
            && (forall i :: |s.trace| <= i < |t.trace| ==> !IsFallbackUpdate(t.trace[i]))
            && TasksListed(t.trace) == TasksListed(s.trace)
            && (statuses.Ok? ==> Tracks(t) && !t.workflow.updateAttempted
                                 && StatusesListed(t.trace, projectId) == Some(statuses.value))
  {
    var call := ToolCall("get_project_statuses", TextRecord([("projectId", projectId)]));
    var a := Executed(call, env.tool(s.executed), true);
    ListedGrow(s.trace, a);
    UpdatedTaskGrows(s.trace, a);
    ProjectArgument(projectId);
    assert projectId in s.workflow.statuses <==> Get(s.workflow.statuses, projectId).Some?;
  }

  // ---------------------------------------------------------------------- justified calls

  /** The call has this name and these texts as its only arguments. */
  ghost predicate CallIs(call: ToolCall, name: string, args: map<string, string>) {
    && call.name == name && call.args.Record? && |call.args.fields| == |args|
    && forall key :: key in args ==> At(call.args, key) == Some(Text(args[key], None))
  }

  function ProjectOfTask(task: Value): string { WithoutPlanePrefix(TextAt(task, "externalProjectId")) }

  /** The tools have listed exactly one task that the request can mean. */
  ghost predicate TaskIsKnown(k: Setting, r: StatusChange, before: seq<Action>, task: Value) {
    TaskMatches(k.norm, TasksListed(before), r.taskName) == [task]
  }

  /** The tasks are looked up by the requested name while none or several of those listed match. */
  ghost predicate LooksTaskUp(k: Setting, r: StatusChange, before: seq<Action>, call: ToolCall) {
    && !UpdatedTask(before) && |TaskMatches(k.norm, TasksListed(before), r.taskName)| != 1
    && CallIs(call, "get_project_tasks", map["name" := r.taskName])
  }

  /** The states of the matching task's project are looked up while they have not been listed. */
  ghost predicate LooksStatesUp(k: Setting, r: StatusChange, before: seq<Action>, call: ToolCall, task: Value) {
    && !UpdatedTask(before) && TaskIsKnown(k, r, before, task)
    && TextAt(task, "externalId") != "" && TextAt(task, "externalProjectId") != ""
    && StatusesListed(before, ProjectOfTask(task)).None?
    && CallIs(call, "get_project_statuses", map["projectId" := ProjectOfTask(task)])
  }

  /** The one matching task gets the one matching state of its project, nothing having been updated. */
  ghost predicate Updates(k: Setting, r: StatusChange, before: seq<Action>, call: ToolCall, task: Value, state: Value) {
    && !UpdatedTask(before) && TaskIsKnown(k, r, before, task)
    && StatusesListed(before, ProjectOfTask(task)).Some?
    && MatchingStatuses(k.norm, StatusesListed(before, ProjectOfTask(task)).value, r.requestedStatus) == [state]
    && TextAt(task, "externalId") != "" && TextAt(state, "externalId") != ""
    && CallIs(call, "update_task", map["taskId" := TextAt(task, "externalId"), "projectId" := ProjectOfTask(task),
                                       "statusId" := TextAt(state, "externalId")])
  }

  ghost predicate Justified(k: Setting, r: StatusChange, before: seq<Action>, call: ToolCall) {
    || LooksTaskUp(k, r, before, call)
    || (exists task :: LooksStatesUp(k, r, before, call, task))
    || (exists task, state :: Updates(k, r, before, call, task, state))
  }

  predicate IsFallback(a: Action) { a.Executed? && a.fallback }

  /** Every fallback call so far was justified when it was made. */
  ghost predicate AllJustified(k: Setting, r: StatusChange, trace: seq<Action>) {
    forall i :: 0 <= i < |trace| && IsFallback(trace[i]) ==> Justified(k, r, trace[..i], trace[i].call)
  }

  ghost predicate NoUpdate(trace: seq<Action>) {
    forall i :: 0 <= i < |trace| ==> !IsFallbackUpdate(trace[i])
  }

  lemma {:induction false} OneMoreJustified(k: Setting, r: StatusChange, trace: seq<Action>, a: Action)
    requires AllJustified(k, r, trace) && (IsFallback(a) ==> Justified(k, r, trace, a.call))
    ensures AllJustified(k, r, trace + [a])
  {
    var all := trace + [a];
    forall i | 0 <= i < |all| && IsFallback(all[i]) ensures Justified(k, r, all[..i], all[i].call) {
      assert all[..i] == if i < |trace| then trace[..i] else trace;
    }
  }

  lemma {:induction false} OneTextArgument(name: string, key: string, value: string)
    ensures CallIs(ToolCall(name, TextRecord([(key, value)])), name, map[key := value])
  {
    var fs := TextRecord([(key, value)]).fields;
    assert fs == [Field(key, Text(value, None))];
    AtField(fs, key, 0);
  }

  lemma {:induction false} UpdateArguments(task: Value, projectId: string, state: Value)
    ensures CallIs(UpdateCall(task, projectId, state), "update_task",
                   map["taskId" := TextAt(task, "externalId"), "projectId" := projectId,
                       "statusId" := TextAt(state, "externalId")])
  {
    var fs := UpdateCall(task, projectId, state).args.fields;
    var args := map["taskId" := TextAt(task, "externalId"), "projectId" := projectId,
                    "statusId" := TextAt(state, "externalId")];
    assert args.Keys == {"taskId", "projectId", "statusId"};
    AtField(fs, "taskId", 0);
    AtField(fs, "projectId", 1);
    AtField(fs, "statusId", 2);
  }

  lemma {:induction false} FindTaskIsJustified(k: Setting, env: Env, r: StatusChange, s: State)
    requires Tracks(s) && !s.workflow.updateAttempted && AllJustified(k, r, s.trace)
    ensures AllJustified(k, r, FindTask(k, env, r, s).0.trace)
  {
    if MatchingTask(k.norm, s.workflow.tasks, r.taskName).None? {
      var call := ToolCall("get_project_tasks", TextRecord([("name", r.taskName)]));
      OneTextArgument("get_project_tasks", "name", r.taskName);
      assert LooksTaskUp(k, r, s.trace, call);
      OneMoreJustified(k, r, s.trace, Executed(call, env.tool(s.executed), true));
    }
  }

  lemma {:induction false} FindStatusesIsJustified(k: Setting, env: Env, r: StatusChange, task: Value, s: State)
    requires Tracks(s) && !s.workflow.updateAttempted && AllJustified(k, r, s.trace)
    requires TaskIsKnown(k, r, s.trace, task)
    requires TextAt(task, "externalId") != "" && TextAt(task, "externalProjectId") != ""
    ensures AllJustified(k, r, FindStatuses(env, ProjectOfTask(task), s).0.trace)
  {
    var projectId := ProjectOfTask(task);
    if projectId !in s.workflow.statuses {
      var call := ToolCall("get_project_statuses", TextRecord([("projectId", projectId)]));
      OneTextArgument("get_project_statuses", "projectId", projectId);
      assert Get(s.workflow.statuses, projectId) == StatusesListed(s.trace, projectId);
      assert LooksStatesUp(k, r, s.trace, call, task);
      OneMoreJustified(k, r, s.trace, Executed(call, env.tool(s.executed), true));
    }
  }

  lemma {:induction false} UpdateIsJustified(k: Setting, env: Env, r: StatusChange, task: Value, state: Value, s: State)
    requires Tracks(s) && !s.workflow.updateAttempted && AllJustified(k, r, s.trace)
    requires TaskIsKnown(k, r, s.trace, task) && StatusesListed(s.trace, ProjectOfTask(task)).Some?
    requires MatchingStatuses(k.norm, StatusesListed(s.trace, ProjectOfTask(task)).value, r.requestedStatus) == [state]
    requires TextAt(task, "externalId") != "" && TextAt(state, "externalId") != ""
    ensures AllJustified(k, r, Update(env, task, ProjectOfTask(task), state, s).0.trace)
    ensures Updates(k, r, s.trace, UpdateCall(task, ProjectOfTask(task), state), task, state)
  {
    var call := UpdateCall(task, ProjectOfTask(task), state);
    UpdateArguments(task, ProjectOfTask(task), state);
    assert Updates(k, r, s.trace, call, task, state);
    OneMoreJustified(k, r, s.trace, Executed(call, env.tool(s.executed), true));
  }

  // ------------------------------------------------------------- what the turn claims

  /** The last action is the one fallback update: of this task to this state, and it succeeded. */
  ghost predicate JustUpdated(k: Setting, r: StatusChange, trace: seq<Action>, task: Value, state: Value) {
    && trace != []
    && var n := |trace| - 1;
       && IsFallback(trace[n]) && Succeeded(trace[n], "update_task")
       && Updates(k, r, trace[..n], trace[n].call, task, state)
  }

  /** Every fallback call is justified, an update is the last action, and a status change is reported exactly
      when the last action is a successful update. */
  ghost predicate Honest(k: Setting, r: StatusChange, trace: seq<Action>, outcome: Option<Outcome>) {
    && AllJustified(k, r, trace)
    && (forall i :: 0 <= i < |trace| && IsFallbackUpdate(trace[i]) ==> i == |trace| - 1)
    && (forall task, state :: outcome == Some(StatusChanged(task, state)) ==> JustUpdated(k, r, trace, task, state))
    && ((exists i :: 0 <= i < |trace| && IsFallbackUpdate(trace[i]) && Succeeded(trace[i], "update_task")) ==>
          outcome.Some? && outcome.value.StatusChanged?)
  }

  lemma {:induction false} QuietIsHonest(k: Setting, r: StatusChange, trace: seq<Action>, outcome: Option<Outcome>)
    requires AllJustified(k, r, trace) && NoUpdate(trace) && (outcome.Some? ==> !outcome.value.StatusChanged?)
    ensures Honest(k, r, trace, outcome)
  {
  }

  /** One more action, a justified update, whose success is reported. */
  lemma {:induction false} LastUpdateIsHonest(
    k: Setting, r: StatusChange, before: seq<Action>, a: Action, task: Value, state: Value)
    requires NoUpdate(before) && AllJustified(k, r, before + [a])
    requires IsFallbackUpdate(a) && Updates(k, r, before, a.call, task, state)
    ensures Honest(k, r, before + [a], if Succeeded(a, "update_task") then Some(StatusChanged(task, state)) else None)
    ensures a.outcome.ToolThrew? ==> Honest(k, r, before + [a], Some(ToolError))
  {
    var all := before + [a];
    assert all[..|before|] == before;
    assert forall i :: 0 <= i < |before| ==> all[i] == before[i];
  }

  lemma {:induction false} UpdateIsHonest(k: Setting, env: Env, r: StatusChange, task: Value, state: Value, s: State)
    requires Tracks(s) && !s.workflow.updateAttempted && AllJustified(k, r, s.trace) && NoUpdate(s.trace)
    requires TaskIsKnown(k, r, s.trace, task) && StatusesListed(s.trace, ProjectOfTask(task)).Some?
    requires MatchingStatuses(k.norm, StatusesListed(s.trace, ProjectOfTask(task)).value, r.requestedStatus) == [state]
    requires TextAt(task, "externalId") != "" && TextAt(state, "externalId") != ""
    ensures var (t, outcome) := Update(env, task, ProjectOfTask(task), state, s); Honest(k, r, t.trace, outcome)
  {
    UpdateIsJustified(k, env, r, task, state, s);
    var a := Executed(UpdateCall(task, ProjectOfTask(task), state), env.tool(s.executed), true);
    LastUpdateIsHonest(k, r, s.trace, a, task, state);
  }

  lemma {:induction false} NoUpdateExtends(s: seq<Action>, t: seq<Action>)
    requires NoUpdate(s) && s <= t && forall i :: |s| <= i < |t| ==> !IsFallbackUpdate(t[i])
    ensures NoUpdate(t)
  {
    forall i | 0 <= i < |t| ensures !IsFallbackUpdate(t[i]) {
      if i < |s| { assert t[i] == s[i]; }
    }
  }

  lemma {:induction false} ChosenIsHonest(k: Setting, env: Env, r: StatusChange, task: Value, s: State)
    requires Tracks(s) && !s.workflow.updateAttempted && AllJustified(k, r, s.trace) && NoUpdate(s.trace)
    requires TaskIsKnown(k, r, s.trace, task)
    requires TextAt(task, "externalId") != "" && TextAt(task, "externalProjectId") != ""
    ensures var (t, outcome) := Chosen(k, env, r, task, ProjectOfTask(task), s); Honest(k, r, t.trace, outcome)
  {
    var projectId := ProjectOfTask(task);
    FindStatusesTracks(env, projectId, s);
    FindStatusesAppends(env, projectId, s);
    FindStatusesIsJustified(k, env, r, task, s);
    var (s2, statuses) := FindStatuses(env, projectId, s);
    NoUpdateExtends(s.trace, s2.trace);
    if statuses.Ok? {
      var states := MatchingStatuses(k.norm, statuses.value, r.requestedStatus);
      if |states| == 1 && TextAt(states[0], "externalId") != "" {
        assert states == [states[0]];
        UpdateIsHonest(k, env, r, task, states[0], s2);
        return;
      }
    }
    QuietIsHonest(k, r, s2.trace, Chosen(k, env, r, task, projectId, s).1);
  }

  lemma {:induction false} CompleteIsHonest(k: Setting, env: Env, r: StatusChange, s: State)
    requires Tracks(s) && AllJustified(k, r, s.trace) && NoUpdate(s.trace)
    ensures var (t, outcome) := Complete(k, env, Some(r), s); Honest(k, r, t.trace, outcome)
  {
    if s.workflow.updateAttempted {
      QuietIsHonest(k, r, s.trace, None);
      return;
    }
    FindTaskTracks(k, env, r, s);
    FindTaskAppends(k, env, r, s);
    FindTaskIsJustified(k, env, r, s);
    var (s1, task) := FindTask(k, env, r, s);
    NoUpdateExtends(s.trace, s1.trace);
    if task.Ok? && TextAt(task.value, "externalId") != "" && TextAt(task.value, "externalProjectId") != "" {
      ChosenIsHonest(k, env, r, task.value, s1);
    } else {
      QuietIsHonest(k, r, s1.trace, Complete(k, env, Some(r), s).1);
    }
  }

  lemma {:induction false} LoopIsQuiet(k: Setting, r: StatusChange, trace: seq<Action>)
    requires forall i :: 0 <= i < |trace| && trace[i].Executed? ==> !trace[i].fallback
    ensures AllJustified(k, r, trace) && NoUpdate(trace)
  {
  }

  lemma {:induction false} CallsClaimNothing(env: Env, s: State, calls: seq<ToolCall>)
    ensures var stop := Calls(env, s, calls).1; stop.Some? ==> !stop.value.StatusChanged?
    decreases |calls|
  {
    if calls != [] && !env.aborted(s.checks) && env.tool(s.executed).Result? {
      var after := Execute(env, s.(checks := s.checks + 1), calls[0], false);
      var recorded := after.(workflow := Recorded(after.workflow, calls[0], env.tool(s.executed).value));
      if !RequiresConfirmation(env.tool(s.executed).value) { CallsClaimNothing(env, recorded, calls[1..]); }
    }
  }

  lemma {:induction false} IterateIsHonest(k: Setting, env: Env, r: StatusChange, s: State, iteration: nat)
    requires iteration <= k.maxToolIterations && Tracks(s) && Unstopped(s.trace)
    ensures var (t, outcome) := Iterate(k, env, Some(r), s, iteration); Honest(k, r, t.trace, Some(outcome))
    decreases k.maxToolIterations - iteration
  {
    var (u, outcome) := Iterate(k, env, Some(r), s, iteration);
    LoopIsQuiet(k, r, s.trace);
    if iteration == k.maxToolIterations || env.aborted(s.checks) {
      QuietIsHonest(k, r, u.trace, Some(outcome));
      return;
    }
    var asked := Asking(s);
    AskTracks(s.(checks := s.checks + 1), true);
    LoopIsQuiet(k, r, asked.trace);
    if env.reply(s.asked).ModelFailed? {
      QuietIsHonest(k, r, u.trace, Some(outcome));
    } else if env.reply(s.asked).calls == [] {
      CompleteIsHonest(k, env, r, asked);
    } else {
      var calls := env.reply(s.asked).calls;
      CallsStop(env, asked, calls);
      CallsTrack(env, asked, calls);
      CallsClaimNothing(env, asked, calls);
      var (t, stop) := Calls(env, asked, calls);
      LoopIsQuiet(k, r, t.trace);
      if stop.None? {
        IterateIsHonest(k, env, r, t, iteration + 1);
      } else {
        QuietIsHonest(k, r, u.trace, Some(outcome));
      }
    }
  }

  /** In a turn with a requested status change every call the turn makes by itself is justified: a look-up of
      the tasks by the requested name, of the states of the one matching task's project, or, last, the update of
      that task to the one matching state; and the turn reports a changed status exactly when that succeeded. */
  lemma {:induction false} FallbackIsJustifiedAndHonest(k: Setting, env: Env, r: StatusChange)
    ensures Honest(k, r, Run(k, env, Some(r)).0.trace, Some(Run(k, env, Some(r)).1))
  {
    IterateIsHonest(k, env, r, START, 0);
  }

  /** Once the tools have listed the one matching task and the states of its project, the turn does complete the
      change: one matching state is set, several are put to the user, none leaves the turn to the model. */
  lemma {:induction false} KnownTaskIsCompleted(k: Setting, env: Env, r: StatusChange, task: Value, s: State)
    requires Tracks(s) && !UpdatedTask(s.trace) && TaskIsKnown(k, r, s.trace, task)
    requires TextAt(task, "externalId") != "" && TextAt(task, "externalProjectId") != ""
    requires StatusesListed(s.trace, ProjectOfTask(task)).Some?
    ensures var listed := StatusesListed(s.trace, ProjectOfTask(task)).value;
            var states := MatchingStatuses(k.norm, listed, r.requestedStatus);
            var (t, outcome) := Complete(k, env, Some(r), s);
            if |states| > 1 then t == s && outcome == Some(ChooseStatus(states))
            else if states == [] || TextAt(states[0], "externalId") == "" then t == s && outcome == None
            else && |t.trace| == |s.trace| + 1 && t.trace[..|s.trace|] == s.trace
                 && IsFallback(t.trace[|s.trace|]) && Updates(k, r, s.trace, t.trace[|s.trace|].call, task, states[0])
                 && outcome == match env.tool(s.executed)
                               case ToolThrew => Some(ToolError)
                               case Result(v) => if Success(v) then Some(StatusChanged(task, states[0])) else None
  {
    var projectId := ProjectOfTask(task);
    assert Get(s.workflow.statuses, projectId) == StatusesListed(s.trace, projectId);
    var states := MatchingStatuses(k.norm, StatusesListed(s.trace, projectId).value, r.requestedStatus);
    if |states| == 1 {
      assert states == [states[0]];
      UpdateArguments(task, projectId, states[0]);
    }
  }

  /** Without one it makes no call by itself. */
  lemma {:induction false} NoFallbackWithoutRequest(k: Setting, env: Env, s: State, iteration: nat)
    requires iteration <= k.maxToolIterations && Unstopped(s.trace)
    ensures forall i :: 0 <= i < |Iterate(k, env, None, s, iteration).0.trace| ==>
              !IsFallback(Iterate(k, env, None, s, iteration).0.trace[i])
    decreases k.maxToolIterations - iteration
  {
    if iteration < k.maxToolIterations && !env.aborted(s.checks) && env.reply(s.asked).Reply? {
      var asked, calls := Asking(s), env.reply(s.asked).calls;
      CallsStop(env, asked, calls);
      if calls != [] && Calls(env, asked, calls).1.None? {
        NoFallbackWithoutRequest(k, env, Calls(env, asked, calls).0, iteration + 1);
      }
    }
  }
}
