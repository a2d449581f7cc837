/** The orchestration loop of the agent, against an arbitrary model and arbitrary tools: what they
    answer is a function of how often they were asked.  `norm` stands for `normalizeLabel` of text. */
module Agent {
  import opened Wrappers
  import ConfirmationReply

  datatype Field = Field(key: string, value: Value)

  /** A JSON value; a text carries the value it parses to, if it is itself JSON. */
  datatype Value =
    | Null
    | Bool(b: bool)
    | Number(text: string)
    | Text(s: string, parsed: Option<Value>)
    | List(items: seq<Value>)
    | Record(fields: seq<Field>)

  function FieldIn(fs: seq<Field>, key: string): Option<Value> {
    if fs == [] then None else if fs[0].key == key then Some(fs[0].value) else FieldIn(fs[1..], key)
  }

  function At(v: Value, key: string): Option<Value> { if v.Record? then FieldIn(v.fields, key) else None }

  function TextAt(v: Value, key: string): string {
    var x := At(v, key);
    if x.Some? && x.value.Text? then x.value.s else ""
  }

  predicate Truthy(v: Value) {
    match v
    case Null => false
    case Bool(b) => b
    case Number(text) => text != "0"
    case Text(s, _) => s != ""
    case _ => true
  }

  predicate Success(v: Value) {
    var x := At(v, "success");
    x.Some? && Truthy(x.value)
  }

  /** `resultItems`. */
  function Items(result: Value): seq<Value> {
    var value := At(result, "result");
    if value.None? then []
    else if value.value.List? then value.value.items
    else
      var inner := At(value.value, "results");
      if inner.Some? && inner.value.List? then inner.value.items else []
  }

  // -------------------------------------------------------------- confirmation required

  predicate Flagged(v: Value) { At(v, "confirmationRequired") == Some(Bool(true)) }

  /** `requiresUserConfirmation`. */
  predicate RequiresConfirmation(v: Value)
    decreases v
  {
    match v
    case Text(_, parsed) => parsed.Some? && RequiresConfirmation(parsed.value)
    case List(items) => exists i :: 0 <= i < |items| && RequiresConfirmation(items[i])
    case Record(fields) => Flagged(v) || exists i :: 0 <= i < |fields| && RequiresConfirmation(fields[i].value)
    case _ => false
  }

  function Inner(v: Value): seq<Value> {
    match v
    case Text(_, parsed) => if parsed.Some? then [parsed.value] else []
    case List(items) => items
    case Record(fields) => seq(|fields|, i requires 0 <= i < |fields| => fields[i].value)
    case _ => []
  }

  /** The value reached from `v` by going into the path[0]-th part, then into its path[1]-th, ... */
  function Reach(v: Value, path: seq<nat>): Option<Value> {
    if path == [] then Some(v)
    else if path[0] < |Inner(v)| then Reach(Inner(v)[path[0]], path[1..])
    else None
  }

  ghost predicate FlaggedAt(v: Value, path: seq<nat>) {
    Reach(v, path).Some? && Flagged(Reach(v, path).value)
  }

  /** A result requires confirmation exactly when an object somewhere in it, inside texts of JSON
      included, has `confirmationRequired: true`. */
  lemma {:induction false} RequiresIffFlaggedSomewhere(v: Value)
    ensures RequiresConfirmation(v) <==> exists path :: FlaggedAt(v, path)
    decreases v
  {
    var inner := Inner(v);
    forall i | 0 <= i < |inner| ensures RequiresConfirmation(inner[i]) <==> exists path :: FlaggedAt(inner[i], path) {
      InnerIsSmaller(v, i);
      RequiresIffFlaggedSomewhere(inner[i]);
    }
    if RequiresConfirmation(v) {
      if Flagged(v) {
        assert FlaggedAt(v, []);
      } else {
        var i := InnerRequires(v);
        var path :| FlaggedAt(inner[i], path);
        assert ([i] + path)[1..] == path;
        assert FlaggedAt(v, [i] + path);
      }
    }
    if path :| FlaggedAt(v, path) {
      if path != [] {
        assert FlaggedAt(inner[path[0]], path[1..]);
        InnerSuffices(v, path[0]);
      }
    }
  }

  lemma {:induction false} InnerIsSmaller(v: Value, i: nat)
    requires i < |Inner(v)|
    ensures Inner(v)[i] < v
  {
    if v.Record? { assert v.fields[i] < v && v.fields[i].value < v.fields[i]; }
  }

  lemma {:induction false} InnerRequires(v: Value) returns (i: nat)
    requires RequiresConfirmation(v) && !Flagged(v)
    ensures i < |Inner(v)| && RequiresConfirmation(Inner(v)[i])
  {
    match v {
      case Text(_, parsed) => i := 0;
      case List(items) => i :| 0 <= i < |items| && RequiresConfirmation(items[i]);
      case Record(fields) => i :| 0 <= i < |fields| && RequiresConfirmation(fields[i].value);
    }
  }

  lemma {:induction false} InnerSuffices(v: Value, i: nat)
    requires i < |Inner(v)| && RequiresConfirmation(Inner(v)[i])
    ensures RequiresConfirmation(v)
  {
    if v.Record? { assert Inner(v)[i] == v.fields[i].value; }
  }

  // ------------------------------------------------------------------ label matching

  function Label(norm: string -> string, v: Value, key: string): string {
    var x := At(v, key);
    if x.Some? && x.value.Text? then norm(x.value.s) else ""
  }

  predicate Includes(s: string, part: string) {
    |part| <= |s| && (s[..|part|] == part || Includes(s[1..], part))
  }

  function ExactTasks(norm: string -> string, tasks: seq<Value>, wanted: string): (r: seq<Value>)
    ensures forall v :: v in r <==> v in tasks && Label(norm, v, "title") == wanted
  {
    if tasks == [] then [] else
    (if Label(norm, tasks[0], "title") == wanted then [tasks[0]] else []) + ExactTasks(norm, tasks[1..], wanted)
  }

  function PartialTasks(norm: string -> string, tasks: seq<Value>, wanted: string): (r: seq<Value>)
    ensures forall v :: v in r <==> v in tasks && Includes(Label(norm, v, "title"), wanted)
  {
    if tasks == [] then [] else
    (if Includes(Label(norm, tasks[0], "title"), wanted) then [tasks[0]] else [])
    + PartialTasks(norm, tasks[1..], wanted)
  }

  /** The tasks a name may mean: those titled exactly so, else those whose title contains it. */
  function TaskMatches(norm: string -> string, tasks: seq<Value>, taskName: string): seq<Value> {
    var exact := ExactTasks(norm, tasks, norm(taskName));
    if exact != [] then exact else PartialTasks(norm, tasks, norm(taskName))
  }

  function MatchingTask(norm: string -> string, tasks: seq<Value>, taskName: string): Option<Value> {
    var matches := TaskMatches(norm, tasks, taskName);
    if |matches| == 1 then Some(matches[0]) else None
  }

  const ACTIVE_ALIASES := {"dang thuc hien", "dang lam", "in progress"}

  const ACTIVE_GROUPS := {"started", "in progress", "in_progress"}

  function Labelled(norm: string -> string, states: seq<Value>, key: string, accepted: set<string>): (r: seq<Value>)
    ensures forall v :: v in r <==> v in states && Label(norm, v, key) in accepted
  {
    if states == [] then [] else
    (if Label(norm, states[0], key) in accepted then [states[0]] else []) + Labelled(norm, states[1..], key, accepted)
  }

  /** `matchingStatuses`: by name, or by group when the request is for active work. */
  function MatchingStatuses(norm: string -> string, states: seq<Value>, requested: string): seq<Value> {
    var wanted := norm(requested);
    var byName := Labelled(norm, states, "name", if wanted in ACTIVE_ALIASES then ACTIVE_ALIASES else {wanted});
    if byName != [] then byName
    else if wanted in ACTIVE_ALIASES then Labelled(norm, states, "category", ACTIVE_GROUPS)
    else []
  }

  /** A task matches when it is titled exactly so, or contains the name while none is. */
  lemma {:induction false} TaskMatchesIff(norm: string -> string, tasks: seq<Value>, taskName: string, v: Value)
    ensures v in TaskMatches(norm, tasks, taskName) <==>
            v in tasks &&
            (Label(norm, v, "title") == norm(taskName) ||
             (Includes(Label(norm, v, "title"), norm(taskName))
              && forall u :: u in tasks ==> Label(norm, u, "title") != norm(taskName)))
  {
    var exact := ExactTasks(norm, tasks, norm(taskName));
    if u :| u in tasks && Label(norm, u, "title") == norm(taskName) { assert u in exact; }
    assert exact != [] ==> exact[0] in exact;
  }

  predicate NameFits(norm: string -> string, wanted: string, v: Value) {
    Label(norm, v, "name") == wanted || (wanted in ACTIVE_ALIASES && Label(norm, v, "name") in ACTIVE_ALIASES)
  }

  /** A state matches by its name, any of the active names standing for each other, or by its group for
      an active request that no name fits. */
  lemma {:induction false} MatchingStatusesIff(norm: string -> string, states: seq<Value>, requested: string, v: Value)
    ensures var wanted := norm(requested);
            v in MatchingStatuses(norm, states, requested) <==>
            v in states &&
            (NameFits(norm, wanted, v) ||
             (wanted in ACTIVE_ALIASES && Label(norm, v, "category") in ACTIVE_GROUPS
              && forall u :: u in states ==> !NameFits(norm, wanted, u)))
  {
    var wanted := norm(requested);
    var byName := Labelled(norm, states, "name", if wanted in ACTIVE_ALIASES then ACTIVE_ALIASES else {wanted});
    if u :| u in states && NameFits(norm, wanted, u) { assert u in byName; }
    assert byName != [] ==> byName[0] in byName;
  }

  function WithoutPlanePrefix(s: string): string {
    if |s| >= 6 && s[..6] == "plane:" then s[6..] else s
  }

  // -------------------------------------------------------------------- model and tools

  datatype ToolCall = ToolCall(name: string, args: Value)

  datatype ModelReply = Reply(text: string, calls: seq<ToolCall>) | ModelFailed

  datatype ToolOutcome = Result(value: Value) | ToolThrew

  /** The answers of the model and of the tools, and whether the request is aborted, each by how often
      it was asked before. */
  datatype Env = Env(reply: nat -> ModelReply, tool: nat -> ToolOutcome, aborted: nat -> bool)

  datatype Setting = Setting(maxToolIterations: nat, norm: string -> string)

  datatype StatusChange = StatusChange(taskName: string, requestedStatus: string)

  datatype Action =
    | Asked(withTools: bool)
    | Executed(call: ToolCall, outcome: ToolOutcome, fallback: bool)

  datatype Workflow = Workflow(tasks: seq<Value>, statuses: map<string, seq<Value>>, updateAttempted: bool)

  datatype State = State(trace: seq<Action>, asked: nat, executed: nat, checks: nat, workflow: Workflow)

  datatype Outcome =
    | Answered(text: string)
    | LeavePreview(result: Value)
    | AskedUser(text: string)   // after a result that requires confirmation; a fixed question for an empty text
    | ChooseStatus(states: seq<Value>)
    | StatusChanged(task: Value, state: Value)
    | LoopLimit | Aborted | ModelError | ToolError

  const START := State([], 0, 0, 0, Workflow([], map[], false))

  /** `recordStatusChangeToolResult`. */
  function Recorded(w: Workflow, call: ToolCall, result: Value): Workflow {
    if !Success(result) then w
    else if call.name == "get_project_tasks" then w.(tasks := w.tasks + Items(result))
    else if call.name == "get_project_statuses" then
      var id := At(call.args, "projectId");
      if id.Some? && id.value.Text?
      then w.(statuses := w.statuses[WithoutPlanePrefix(id.value.s) := Items(result)])
      else w
    else if call.name == "update_task" then w.(updateAttempted := true)
    else w
  }

  const PREVIEW_FIELDS := ["leaveTypeCode", "leaveTypeName", "startDate", "endDate", "requestedDays", "reason",
                           "remainingDaysBefore", "remainingDaysAfter", "hasConflict"]

  predicate HasScalar(v: Value, key: string) {
    var x := At(v, key);
    x.Some? && (x.value.Null? || x.value.Bool? || x.value.Number? || x.value.Text?)
  }

  /** Whether `leavePreviewConfirmationText` makes a text of the result. */
  predicate IsLeavePreview(result: Value) {
    var value := At(result, "result");
    value.Some? && Flagged(value.value) &&
    var confirmation, preview := At(value.value, "confirmation"), At(value.value, "preview");
    && confirmation.Some? && ConfirmationReply.Uuid(TextAt(confirmation.value, "id"))
    && preview.Some? && preview.value.Record?
    && exists i :: 0 <= i < |PREVIEW_FIELDS| && HasScalar(preview.value, PREVIEW_FIELDS[i])
  }

  function Ask(s: State, withTools: bool): State {
    s.(trace := s.trace + [Asked(withTools)], asked := s.asked + 1)
  }

  function Execute(env: Env, s: State, call: ToolCall, fallback: bool): State {
    s.(trace := s.trace + [Executed(call, env.tool(s.executed), fallback)], executed := s.executed + 1)
  }

  /** The tool calls of one model reply. */
  function Calls(env: Env, s: State, calls: seq<ToolCall>): (State, Option<Outcome>)
    decreases |calls|
  {
    if calls == [] then (s, None) else
    var checked := s.(checks := s.checks + 1);
    if env.aborted(s.checks) then (checked, Some(Aborted)) else
    var after := Execute(env, checked, calls[0], false);
    match env.tool(s.executed)
    case ToolThrew => (after, Some(ToolError))
    case Result(v) =>
      var recorded := after.(workflow := Recorded(after.workflow, calls[0], v));
      if !RequiresConfirmation(v) then Calls(env, recorded, calls[1..])
      else if IsLeavePreview(v) then (recorded, Some(LeavePreview(v)))
      else match env.reply(recorded.asked)
           case ModelFailed => (Ask(recorded, false), Some(ModelError))
           case Reply(text, _) => (Ask(recorded, false), Some(AskedUser(text)))
  }

  // ------------------------------------------------------ completing a status change

  function TextRecord(fields: seq<(string, string)>): Value {
    Record(seq(|fields|, i requires 0 <= i < |fields| => Field(fields[i].0, Text(fields[i].1, None))))
  }

  /** Looks the task up when no tool result of the turn identified it. */
  function FindTask(k: Setting, env: Env, r: StatusChange, s: State): (State, Result<Value, Option<Outcome>>) {
    var known := MatchingTask(k.norm, s.workflow.tasks, r.taskName);
    if known.Some? then (s, Ok(known.value)) else
    var call := ToolCall("get_project_tasks", TextRecord([("name", r.taskName)]));
    var after := Execute(env, s, call, true);
    match env.tool(s.executed)
    case ToolThrew => (after, Err(Some(ToolError)))
    case Result(found) =>
      if !Success(found) then (after, Err(None)) else
      var tasks := after.workflow.tasks + Items(found);
      var t := after.(workflow := after.workflow.(tasks := tasks));
      var task := MatchingTask(k.norm, tasks, r.taskName);
      (t, if task.Some? then Ok(task.value) else Err(None))
  }

  function FindStatuses(env: Env, projectId: string, s: State): (State, Result<seq<Value>, Option<Outcome>>) {
    if projectId in s.workflow.statuses then (s, Ok(s.workflow.statuses[projectId])) else
    var call := ToolCall("get_project_statuses", TextRecord([("projectId", projectId)]));
    var after := Execute(env, s, call, true);
    match env.tool(s.executed)
    case ToolThrew => (after, Err(Some(ToolError)))
    case Result(listed) =>
      if !Success(listed) then (after, Err(None))
      else (after.(workflow := after.workflow.(statuses := after.workflow.statuses[projectId := Items(listed)])),
            Ok(Items(listed)))
  }

  function UpdateCall(task: Value, projectId: string, state: Value): ToolCall {
    ToolCall("update_task", TextRecord([("taskId", TextAt(task, "externalId")), ("projectId", projectId),
                                        ("statusId", TextAt(state, "externalId"))]))
  }

  function Update(env: Env, task: Value, projectId: string, state: Value, s: State): (State, Option<Outcome>) {
    var attempted := s.(workflow := s.workflow.(updateAttempted := true));
    var after := Execute(env, attempted, UpdateCall(task, projectId, state), true);
    match env.tool(s.executed)
    case ToolThrew => (after, Some(ToolError))
    case Result(update) => (after, if Success(update) then Some(StatusChanged(task, state)) else None)
  }

  /** `completePendingStatusChange`; None hands the turn back to the model's own text. */
  function Complete(k: Setting, env: Env, request: Option<StatusChange>, s: State): (State, Option<Outcome>) {
    if request.None? || s.workflow.updateAttempted then (s, None) else
    var (s1, task) := FindTask(k, env, request.value, s);
    if task.Err? then (s1, task.error)
    else if TextAt(task.value, "externalId") == "" || TextAt(task.value, "externalProjectId") == "" then (s1, None) else
    Chosen(k, env, request.value, task.value, WithoutPlanePrefix(TextAt(task.value, "externalProjectId")), s1)
  }

  /** The rest, once the task is known: its project's statuses, the one meant, the update. */
  function Chosen(k: Setting, env: Env, r: StatusChange, task: Value, projectId: string, s: State)
    : (State, Option<Outcome>)
  {
    var (s2, statuses) := FindStatuses(env, projectId, s);
    if statuses.Err? then (s2, statuses.error) else
    var states := MatchingStatuses(k.norm, statuses.value, r.requestedStatus);
    if |states| > 1 then (s2, Some(ChooseStatus(states)))
    else if states == [] || TextAt(states[0], "externalId") == "" then (s2, None)
    else Update(env, task, projectId, states[0], s2)
  }

  function Iterate(k: Setting, env: Env, request: Option<StatusChange>, s: State, iteration: nat): (State, Outcome)
    requires iteration <= k.maxToolIterations
    decreases k.maxToolIterations - iteration
  {
    if iteration == k.maxToolIterations then (s, LoopLimit) else
    var checked := s.(checks := s.checks + 1);
    if env.aborted(s.checks) then (checked, Aborted) else
    var asked := Ask(checked, true);
    match env.reply(s.asked)
    case ModelFailed => (asked, ModelError)
    case Reply(text, calls) =>
      if calls == [] then
        var (t, completion) := Complete(k, env, request, asked);
        (t, if completion.Some? then completion.value else Answered(text))
      else
        var (t, stop) := Calls(env, asked, calls);
        if stop.Some? then (t, stop.value) else Iterate(k, env, request, t, iteration + 1)
  }

  function Run(k: Setting, env: Env, request: Option<StatusChange>): (State, Outcome) {
    Iterate(k, env, request, START, 0)
  }

  // ------------------------------------------------------------------------- the loop

  class AgentService {
    const setting: Setting
    var state: State

    constructor (setting: Setting)
      ensures this.setting == setting && state == START
    {
      this.setting, state := setting, START;
    }

    method ExecuteTool(env: Env, call: ToolCall, fallback: bool) returns (r: ToolOutcome)
      modifies this
      ensures state == Execute(env, old(state), call, fallback) && r == env.tool(old(state.executed))
    {
      r := env.tool(state.executed);
      state := state.(trace := state.trace + [Executed(call, r, fallback)], executed := state.executed + 1);
    }

    method Generate(env: Env, withTools: bool) returns (r: ModelReply)
      modifies this
      ensures state == Ask(old(state), withTools) && r == env.reply(old(state.asked))
    {
      r := env.reply(state.asked);
      state := state.(trace := state.trace + [Asked(withTools)], asked := state.asked + 1);
    }

    /** The inner loop over the tool calls of one reply. */
    method RunCalls(env: Env, calls: seq<ToolCall>) returns (stop: Option<Outcome>)
      modifies this
      ensures (state, stop) == Calls(env, old(state), calls)
    {
      var i := 0;
      while i < |calls|
        invariant 0 <= i <= |calls|
        invariant Calls(env, old(state), calls) == Calls(env, state, calls[i..])
      {
        assert calls[i..][1..] == calls[i + 1..];
        var aborted := env.aborted(state.checks);
        state := state.(checks := state.checks + 1);
        if aborted { return Some(Aborted); }
        var result := ExecuteTool(env, calls[i], false);
        if result.ToolThrew? { return Some(ToolError); }
        state := state.(workflow := Recorded(state.workflow, calls[i], result.value));
        if RequiresConfirmation(result.value) {
          if IsLeavePreview(result.value) { return Some(LeavePreview(result.value)); }
          var reply := Generate(env, false);
          return Some(if reply.ModelFailed? then ModelError else AskedUser(reply.text));
        }
        i := i + 1;
      }
      return None;
    }

    method CompletePendingStatusChange(env: Env, request: Option<StatusChange>) returns (completion: Option<Outcome>)
      modifies this
      ensures (state, completion) == Complete(setting, env, request, old(state))
    {
      if request.None? || state.workflow.updateAttempted { return None; }
      var s1, task := state, MatchingTask(setting.norm, state.workflow.tasks, request.value.taskName);
      if task.None? {
        var call := ToolCall("get_project_tasks", TextRecord([("name", request.value.taskName)]));
        var found := ExecuteTool(env, call, true);
        if found.ToolThrew? { return Some(ToolError); }
        if !Success(found.value) { return None; }
        state := state.(workflow := state.workflow.(tasks := state.workflow.tasks + Items(found.value)));
        task := MatchingTask(setting.norm, state.workflow.tasks, request.value.taskName);
        if task.None? { return None; }
      }
      if TextAt(task.value, "externalId") == "" || TextAt(task.value, "externalProjectId") == "" { return None; }
      var projectId := WithoutPlanePrefix(TextAt(task.value, "externalProjectId"));
      completion := ChooseAndUpdate(env, request.value, task.value, projectId);
    }

    method ChooseAndUpdate(env: Env, r: StatusChange, task: Value, projectId: string)
      returns (completion: Option<Outcome>)
      modifies this
      ensures (state, completion) == Chosen(setting, env, r, task, projectId, old(state))
    {
      var statuses: seq<Value>;
      if projectId in state.workflow.statuses {
        statuses := state.workflow.statuses[projectId];
      } else {
        var listed := ExecuteTool(env, ToolCall("get_project_statuses", TextRecord([("projectId", projectId)])), true);
        if listed.ToolThrew? { return Some(ToolError); }
        if !Success(listed.value) { return None; }
        statuses := Items(listed.value);
        state := state.(workflow := state.workflow.(statuses := state.workflow.statuses[projectId := statuses]));
      }
      var states := MatchingStatuses(setting.norm, statuses, r.requestedStatus);
      if |states| > 1 { return Some(ChooseStatus(states)); }
      if states == [] || TextAt(states[0], "externalId") == "" { return None; }
      state := state.(workflow := state.workflow.(updateAttempted := true));
      var update := ExecuteTool(env, UpdateCall(task, projectId, states[0]), true);
      if update.ToolThrew? { return Some(ToolError); }
      return if Success(update.value) then Some(StatusChanged(task, states[0])) else None;
    }

    method RunTurn(env: Env, request: Option<StatusChange>) returns (outcome: Outcome)
      requires state == START
      modifies this
      ensures (state, outcome) == Run(setting, env, request)
    {
      var iteration := 0;
      while iteration < setting.maxToolIterations
        invariant 0 <= iteration <= setting.maxToolIterations
        invariant Run(setting, env, request) == Iterate(setting, env, request, state, iteration)
      {
        var aborted := env.aborted(state.checks);
        state := state.(checks := state.checks + 1);
        if aborted { return Aborted; }
        var response := Generate(env, true);
        if response.ModelFailed? { return ModelError; }
        if response.calls == [] {
          var completion := CompletePendingStatusChange(env, request);
          return if completion.Some? then completion.value else Answered(response.text);
        }
        var stop := RunCalls(env, response.calls);
        if stop.Some? { return stop.value; }
        iteration := iteration + 1;
      }
      return LoopLimit;
    }
  }
}
