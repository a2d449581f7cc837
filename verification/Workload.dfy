/** Team workload: tasks and overdue tasks counted per assignee. */
module Workload {
  datatype Member = Member(id: string, name: string)

  /** No due date, a text `Date.parse` does not understand, or an instant. */
  datatype Due = NoDue | Unreadable | DueAt(ms: int)

  datatype Task = Task(title: string, due: Due, category: string, assignees: seq<Member>)

  datatype Load = Load(member: Member, taskCount: nat, overdueTaskCount: nat)

  predicate Overdue(t: Task, now: int) {
    t.due.DueAt? && t.due.ms < now && t.category != "completed" && t.category != "cancelled"
  }

  /** `getOverdueTasks`, of the tasks found. */
  function OverdueTasks(ts: seq<Task>, now: int): seq<Task> {
    if ts == [] then [] else (if Overdue(ts[0], now) then [ts[0]] else []) + OverdueTasks(ts[1..], now)
  }

  // ------------------------------------------------------------------- direct counts

  /** How often the member is listed in the assignees. */
  function Listed(ms: seq<Member>, id: string): nat {
    if ms == [] then 0 else Listed(ms[..|ms| - 1], id) + if ms[|ms| - 1].id == id then 1 else 0
  }

  function TaskCount(ts: seq<Task>, id: string): nat {
    if ts == [] then 0 else TaskCount(ts[..|ts| - 1], id) + Listed(ts[|ts| - 1].assignees, id)
  }

  /** Due at a known time before now, and neither completed nor cancelled. */
  predicate Late(t: Task, now: int) {
    match t.due
    case DueAt(ms) => ms < now && t.category !in {"completed", "cancelled"}
    case _ => false
  }

  function OverdueCount(ts: seq<Task>, id: string, now: int): nat {
    if ts == [] then 0 else
    OverdueCount(ts[..|ts| - 1], id, now) + if Late(ts[|ts| - 1], now) then Listed(ts[|ts| - 1].assignees, id) else 0
  }

  /** A task without a due time, or with one that cannot be read, is not overdue. */
  lemma {:induction false} OverdueIsLate(t: Task, now: int)
    ensures Overdue(t, now) <==> Late(t, now)
  {
  }

  /** The overdue tasks are the late ones, each as often as it is there. */
  lemma {:induction false} OverdueTasksAreLate(ts: seq<Task>, now: int, t: Task)
    ensures multiset(OverdueTasks(ts, now))[t] == if Late(t, now) then multiset(ts)[t] else 0
  {
    if ts != [] {
      OverdueTasksAreLate(ts[1..], now, t);
      OverdueIsLate(ts[0], now);
      assert ts == [ts[0]] + ts[1..];
    }
  }

  /** All assignee entries, task by task. */
  function Assignees(ts: seq<Task>): seq<Member> {
    if ts == [] then [] else Assignees(ts[..|ts| - 1]) + ts[|ts| - 1].assignees
  }

  function TotalTasks(ls: seq<Load>): nat {
    if ls == [] then 0 else TotalTasks(ls[..|ls| - 1]) + ls[|ls| - 1].taskCount
  }

  function TotalOverdue(ls: seq<Load>): nat {
    if ls == [] then 0 else TotalOverdue(ls[..|ls| - 1]) + ls[|ls| - 1].overdueTaskCount
  }

  // ------------------------------------------------------------- the map, step by step

  /** The entries of a JavaScript Map keyed by member id, in insertion order. */
  function Position(ls: seq<Load>, id: string): (p: nat)
    ensures p <= |ls| && (p < |ls| ==> ls[p].member.id == id) && forall i :: 0 <= i < p ==> ls[i].member.id != id
  {
    if ls == [] then 0 else if ls[0].member.id == id then 0 else 1 + Position(ls[1..], id)
  }

  /** One assignee entry added to the map. */
  function Added(ls: seq<Load>, m: Member, overdue: bool): seq<Load> {
    var p := Position(ls, m.id);
    var more := if overdue then 1 else 0;
    if p < |ls| then ls[p := Load(ls[p].member, ls[p].taskCount + 1, ls[p].overdueTaskCount + more)]
    else ls + [Load(m, 1, more)]
  }

  predicate DistinctMembers(ls: seq<Load>) {
    forall i, j :: 0 <= i < j < |ls| ==> ls[i].member.id != ls[j].member.id
  }

  predicate HasMember(ls: seq<Load>, id: string) { Position(ls, id) < |ls| }

  /** The entry of a member, or zero counts. */
  function Tasks(ls: seq<Load>, id: string): nat { if HasMember(ls, id) then ls[Position(ls, id)].taskCount else 0 }

  function Overdues(ls: seq<Load>, id: string): nat {
    if HasMember(ls, id) then ls[Position(ls, id)].overdueTaskCount else 0
  }

  lemma {:induction false} PositionIsUnique(ls: seq<Load>, id: string, i: nat)
    requires i < |ls| && ls[i].member.id == id && DistinctMembers(ls)
    ensures Position(ls, id) == i
  {
    var p := Position(ls, id);
    assert forall j :: 0 <= j < i ==> ls[j].member.id != ls[i].member.id;
  }

  lemma {:induction false} AddedCounts(ls: seq<Load>, m: Member, overdue: bool, id: string)
    requires DistinctMembers(ls)
    ensures var r := Added(ls, m, overdue);
            && DistinctMembers(r)
            && Tasks(r, id) == Tasks(ls, id) + (if m.id == id then 1 else 0)
            && Overdues(r, id) == Overdues(ls, id) + (if m.id == id && overdue then 1 else 0)
            && (HasMember(r, id) <==> HasMember(ls, id) || m.id == id)
  {
    var r, p, q := Added(ls, m, overdue), Position(ls, m.id), Position(ls, id);
    forall i, j | 0 <= i < j < |r| ensures r[i].member.id != r[j].member.id {
      if p < |ls| { assert r[i].member == ls[i].member && r[j].member == ls[j].member; }
    }
    if q < |ls| {
      assert r[q].member == ls[q].member;
      PositionIsUnique(r, id, q);
    } else if m.id == id {
      PositionIsUnique(r, id, |ls|);
    } else {
      assert forall i :: 0 <= i < |ls| ==> r[i].member == ls[i].member;
    }
  }

  lemma {:induction false} TotalsOfUpdate(ls: seq<Load>, p: nat, l: Load)
    requires p < |ls|
    ensures TotalTasks(ls[p := l]) == TotalTasks(ls) - ls[p].taskCount + l.taskCount
    ensures TotalOverdue(ls[p := l]) == TotalOverdue(ls) - ls[p].overdueTaskCount + l.overdueTaskCount
  {
    var n := |ls| - 1;
    if p < n {
      assert ls[p := l][..n] == ls[..n][p := l];
      TotalsOfUpdate(ls[..n], p, l);
    } else {
      assert ls[p := l][..n] == ls[..n];
    }
  }

  lemma {:induction false} AddedTotals(ls: seq<Load>, m: Member, overdue: bool)
    ensures TotalTasks(Added(ls, m, overdue)) == TotalTasks(ls) + 1
    ensures TotalOverdue(Added(ls, m, overdue)) == TotalOverdue(ls) + if overdue then 1 else 0
  {
    var p := Position(ls, m.id);
    var more := if overdue then 1 else 0;
    if p < |ls| {
      TotalsOfUpdate(ls, p, Load(ls[p].member, ls[p].taskCount + 1, ls[p].overdueTaskCount + more));
    } else {
      assert (ls + [Load(m, 1, more)])[..|ls|] == ls;
    }
  }

  function WithAssignees(ls: seq<Load>, ms: seq<Member>, overdue: bool): seq<Load> {
    if ms == [] then ls else Added(WithAssignees(ls, ms[..|ms| - 1], overdue), ms[|ms| - 1], overdue)
  }

  function WorkloadOf(ts: seq<Task>, now: int): seq<Load> {
    if ts == [] then [] else
    WithAssignees(WorkloadOf(ts[..|ts| - 1], now), ts[|ts| - 1].assignees, Overdue(ts[|ts| - 1], now))
  }

  /** The body of the inner loop: one assignee entry of a task. */
  method CountEntry(workload: seq<Load>, member: Member, overdue: bool) returns (r: seq<Load>)
    ensures r == Added(workload, member, overdue)
  {
    var p := Position(workload, member.id);
    var current := if p < |workload| then workload[p] else Load(member, 0, 0);
    current := current.(taskCount := current.taskCount + 1);
    if overdue { current := current.(overdueTaskCount := current.overdueTaskCount + 1); }
    r := if p < |workload| then workload[p := current] else workload + [current];
  }

  /** `getTeamWorkload`, the clock standing still. */
  method GetTeamWorkload(tasks: seq<Task>, now: int) returns (workload: seq<Load>)
    ensures workload == WorkloadOf(tasks, now)
  {
    workload := [];
    var t := 0;
    while t < |tasks|
      invariant 0 <= t <= |tasks| && workload == WorkloadOf(tasks[..t], now)
    {
      var task := tasks[t];
      ghost var before := workload;
      var a := 0;
      while a < |task.assignees|
        invariant 0 <= a <= |task.assignees|
        invariant workload == WithAssignees(before, task.assignees[..a], Overdue(task, now))
      {
        workload := CountEntry(workload, task.assignees[a], Overdue(task, now));
        assert task.assignees[..a + 1][..a] == task.assignees[..a];
        a := a + 1;
      }
      assert task.assignees[..a] == task.assignees;
      assert tasks[..t + 1][..t] == tasks[..t];
      t := t + 1;
    }
    assert tasks[..t] == tasks;
  }

  // -------------------------------------------------------------------- main results

  lemma {:induction false} AssigneesCount(ls: seq<Load>, ms: seq<Member>, overdue: bool, id: string)
    requires DistinctMembers(ls)
    ensures var r := WithAssignees(ls, ms, overdue);
            && DistinctMembers(r)
            && Tasks(r, id) == Tasks(ls, id) + Listed(ms, id)
            && Overdues(r, id) == Overdues(ls, id) + (if overdue then Listed(ms, id) else 0)
            && (HasMember(r, id) <==> HasMember(ls, id) || Listed(ms, id) > 0)
  {
    if ms != [] {
      var n := |ms| - 1;
      AssigneesCount(ls, ms[..n], overdue, id);
      AddedCounts(WithAssignees(ls, ms[..n], overdue), ms[n], overdue, id);
    }
  }

  lemma {:induction false} AssigneesTotal(ls: seq<Load>, ms: seq<Member>, overdue: bool)
    ensures TotalTasks(WithAssignees(ls, ms, overdue)) == TotalTasks(ls) + |ms|
    ensures TotalOverdue(WithAssignees(ls, ms, overdue)) == TotalOverdue(ls) + if overdue then |ms| else 0
  {
    if ms != [] {
      var n := |ms| - 1;
      AssigneesTotal(ls, ms[..n], overdue);
      AddedTotals(WithAssignees(ls, ms[..n], overdue), ms[n], overdue);
    }
  }

  /** Every member assigned to something has exactly one entry, and its counts are the direct counts. */
  lemma {:induction false} CountsAreDirect(ts: seq<Task>, now: int, id: string)
    ensures var w := WorkloadOf(ts, now);
            && DistinctMembers(w)
            && Tasks(w, id) == TaskCount(ts, id) && Overdues(w, id) == OverdueCount(ts, id, now)
            && (HasMember(w, id) <==> TaskCount(ts, id) > 0)
  {
    if ts != [] {
      var n := |ts| - 1;
      CountsAreDirect(ts[..n], now, id);
      AssigneesCount(WorkloadOf(ts[..n], now), ts[n].assignees, Overdue(ts[n], now), id);
      OverdueIsLate(ts[n], now);
    }
  }

  lemma {:induction false} OverdueTasksAppend(ts: seq<Task>, t: Task, now: int)
    ensures OverdueTasks(ts + [t], now) == OverdueTasks(ts, now) + if Overdue(t, now) then [t] else []
  {
    if ts != [] {
      assert (ts + [t])[1..] == ts[1..] + [t];
      OverdueTasksAppend(ts[1..], t, now);
    } else {
      assert [t][1..] == [];
    }
  }

  lemma {:induction false} AssigneesAppend(ts: seq<Task>, t: Task)
    ensures Assignees(ts + [t]) == Assignees(ts) + t.assignees
  {
    assert (ts + [t])[..|ts|] == ts;
  }

  lemma {:induction false} OverdueAssignees(ts: seq<Task>, t: Task, now: int)
    ensures |Assignees(OverdueTasks(ts + [t], now))| ==
            |Assignees(OverdueTasks(ts, now))| + if Overdue(t, now) then |t.assignees| else 0
  {
    OverdueTasksAppend(ts, t, now);
    var o := OverdueTasks(ts, now);
    AssigneesAppend(o, t);
    assert o + [] == o;
  }

  lemma {:induction false} TotalsOfOneMore(ts: seq<Task>, t: Task, now: int)
    ensures TotalTasks(WorkloadOf(ts + [t], now)) == TotalTasks(WorkloadOf(ts, now)) + |t.assignees|
    ensures TotalOverdue(WorkloadOf(ts + [t], now)) ==
            TotalOverdue(WorkloadOf(ts, now)) + if Overdue(t, now) then |t.assignees| else 0
  {
    assert (ts + [t])[..|ts|] == ts;
    AssigneesTotal(WorkloadOf(ts, now), t.assignees, Overdue(t, now));
  }

  /** Nothing is lost or counted twice: the task counts add up to all assignee entries, the overdue
      counts to the assignee entries of the overdue tasks. */
  lemma {:induction false} TotalsAreConserved(ts: seq<Task>, now: int)
    ensures TotalTasks(WorkloadOf(ts, now)) == |Assignees(ts)|
    ensures TotalOverdue(WorkloadOf(ts, now)) == |Assignees(OverdueTasks(ts, now))|
  {
    if ts != [] {
      var before, t := ts[..|ts| - 1], ts[|ts| - 1];
      TotalsAreConserved(before, now);
      TotalsOfOneMore(before, t, now);
      AssigneesAppend(before, t);
      OverdueAssignees(before, t, now);
      assert ts == before + [t];
    }
  }

  /** The members in order of first appearance, each as it first appears. */
  function FirstSeen(ms: seq<Member>): seq<Member> {
    if ms == [] then [] else
    var seen, m := FirstSeen(ms[..|ms| - 1]), ms[|ms| - 1];
    if exists i :: 0 <= i < |seen| && seen[i].id == m.id then seen else seen + [m]
  }

  function MembersOf(ls: seq<Load>): seq<Member> {
    seq(|ls|, i requires 0 <= i < |ls| => ls[i].member)
  }

  lemma {:induction false} AddedIsSeen(ls: seq<Load>, m: Member, overdue: bool, ms: seq<Member>)
    requires MembersOf(ls) == FirstSeen(ms)
    ensures MembersOf(Added(ls, m, overdue)) == FirstSeen(ms + [m])
  {
    assert (ms + [m])[..|ms|] == ms;
    var p, seen := Position(ls, m.id), FirstSeen(ms);
    assert forall i :: 0 <= i < |ls| ==> seen[i] == ls[i].member;
    if p < |ls| { assert seen[p].id == m.id; }
  }

  lemma {:induction false} AssigneesAreSeen(ls: seq<Load>, ms: seq<Member>, overdue: bool, before: seq<Member>)
    requires MembersOf(ls) == FirstSeen(before)
    ensures MembersOf(WithAssignees(ls, ms, overdue)) == FirstSeen(before + ms)
  {
    if ms == [] {
      assert before + ms == before;
    } else {
      var n := |ms| - 1;
      AssigneesAreSeen(ls, ms[..n], overdue, before);
      AddedIsSeen(WithAssignees(ls, ms[..n], overdue), ms[n], overdue, before + ms[..n]);
      assert before + ms[..n] + [ms[n]] == before + ms;
    }
  }

  /** The entries are the members as they first appear among the assignees, in that order. */
  lemma {:induction false} EntriesAreFirstSeen(ts: seq<Task>, now: int)
    ensures MembersOf(WorkloadOf(ts, now)) == FirstSeen(Assignees(ts))
  {
    if ts != [] {
      var n := |ts| - 1;
      EntriesAreFirstSeen(ts[..n], now);
      AssigneesAreSeen(WorkloadOf(ts[..n], now), ts[n].assignees, Overdue(ts[n], now), Assignees(ts[..n]));
    }
  }
}
