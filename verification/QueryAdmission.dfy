/** Who gets an answer: which queries of which actors are compiled, and which error the others get, told
    by the names of the datasets and of the permissions. */
module QueryAdmission {
  import opened Wrappers
  import opened Sql
  import opened DynamicQuery

  predicate Identified(c: Context) {
    c.companyId != "" && c.employeeId != "" && c.permissions.Some?
  }

  predicate Granted(c: Context, permission: string) {
    c.permissions.Some? && exists i :: 0 <= i < |c.permissions.value| && c.permissions.value[i] == permission
  }

  predicate KnownDataset(name: string) {
    name == "employees" || name == "attendance_records" || name == "leave_requests"
  }

  /** The actor holds the permission that the dataset asks for; the team permission needs a department. */
  predicate MayAsk(c: Context, dataset: string) {
    || (dataset == "employees" && Granted(c, "employee.profile.read.any"))
    || (dataset == "leave_requests" && Granted(c, "leave.read.self"))
    || (dataset == "attendance_records" && Granted(c, "attendance.read.self"))
    || (dataset == "attendance_records" && Granted(c, "attendance.read.team") && c.departmentId != "")
  }

  /** Some filter is `employee_id eq` with the actor's own id. */
  predicate NamesHimself(q: Query, c: Context) {
    q.filters.Some? && exists i :: 0 <= i < |q.filters.value| && NamesActor(q.filters.value[i], c)
  }

  predicate NamesActor(f: Filter, c: Context) {
    f.field == "employee_id" && f.operator.Comparing? && f.operator.cmp.Eq? && f.value == JStr(c.employeeId)
  }

  /** Whoever may ask is shown his own records only: always of leave, of attendance when the team's are
      out of his reach or he asks for himself, never of employees. */
  predicate OwnOnly(c: Context, q: Query) {
    || q.dataset == "leave_requests"
    || (q.dataset == "attendance_records" && Granted(c, "attendance.read.self")
        && (NamesHimself(q, c) || !Granted(c, "attendance.read.team") || c.departmentId == ""))
  }

  predicate HasAggregates(q: Query) { q.aggregations.Some? && |q.aggregations.value| > 0 }

  /** Nothing is wrong with the query itself. */
  predicate Proper(q: Query) { Datasets(q.dataset).Some? && WellFormed(Datasets(q.dataset).value, q) }

  lemma {:induction false} GrantedIsHas(c: Context, permission: string)
    ensures Granted(c, permission) <==> Has(c, permission)
  {
  }

  lemma {:induction false} NamesHimselfIsAsked(q: Query, c: Context)
    ensures NamesHimself(q, c) <==> AsksForSelf(q, c)
  {
    forall f: Filter
      ensures NamesActor(f, c) <==> f == Filter("employee_id", Comparing(Eq), JStr(c.employeeId))
    {
      assert NamesActor(f, c) ==> f == Filter(f.field, Comparing(Eq), f.value);
    }
    if NamesHimself(q, c) {
      var i :| 0 <= i < |q.filters.value| && NamesActor(q.filters.value[i], c);
      assert q.filters.value[i] == Filter("employee_id", Comparing(Eq), JStr(c.employeeId));
    }
  }

  lemma {:induction false} ScopeIsAdmission(q: Query, c: Context)
    requires KnownDataset(q.dataset)
    ensures Datasets(q.dataset).Some?
    ensures var s := ScopeFor(Datasets(q.dataset).value, c, q);
            if !Identified(c) then s == Err(Unauthenticated)
            else if !MayAsk(c, q.dataset) then s == Err(Forbidden)
            else s.Ok? && (s.value.selfOnly <==> OwnOnly(c, q))
  {
    GrantedIsHas(c, "employee.profile.read.any");
    GrantedIsHas(c, "leave.read.self");
    GrantedIsHas(c, "attendance.read.self");
    GrantedIsHas(c, "attendance.read.team");
    NamesHimselfIsAsked(q, c);
  }

  /** A query is compiled exactly when its actor is identified and may ask the dataset, nothing is wrong
      with it, and it aggregates the actor's own records at most. */
  lemma {:induction false} AdmittedIff(q: Query, c: Context)
    ensures Compile(q, c).Ok? <==>
            Identified(c) && MayAsk(c, q.dataset) && Proper(q) && (HasAggregates(q) ==> OwnOnly(c, q))
  {
    if KnownDataset(q.dataset) { ScopeIsAdmission(q, c); }
  }

  /** The error of every other query. */
  lemma {:induction false} RefusedWith(q: Query, c: Context)
    ensures Compile(q, c) == Err(Unauthenticated) <==> KnownDataset(q.dataset) && !Identified(c)
    ensures Compile(q, c) == Err(Forbidden) <==>
            KnownDataset(q.dataset) && Identified(c)
            && (!MayAsk(c, q.dataset) || (Proper(q) && HasAggregates(q) && !OwnOnly(c, q)))
    ensures Compile(q, c) == Err(ValidationFailed) <==>
            !KnownDataset(q.dataset) || (Identified(c) && MayAsk(c, q.dataset) && !Proper(q))
  {
    if KnownDataset(q.dataset) { ScopeIsAdmission(q, c); }
  }
}
