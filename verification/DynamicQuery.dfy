/** What `buildDynamicQuery` computes, as functions: the dataset registry, the scope of an actor, which
    queries are accepted, and the statement and parameters of one that is. */
module DynamicQuery {
  import opened Wrappers
  import opened Sql
  import Calendar
  import Strings
  import Like

  // -------------------------------------------------------------------- registry

  datatype Operation = OpSelect | OpFilter | OpSort | OpGroup | OpAggregate

  datatype FieldSpec = FieldSpec(column: Column, operations: set<Operation>)

  datatype Scope = ByPermission(permission: string) | AttendanceScope | LeaveScope

  datatype Dataset = Dataset(
    from: From, scope: Scope, dateField: Option<string>, fields: map<string, FieldSpec>, defaultSelect: seq<string>)

  const ALL_OPERATIONS := {OpSelect, OpFilter, OpSort, OpGroup, OpAggregate}

  function Own(name: string, ty: ColType): FieldSpec {
    FieldSpec(Column(false, name, ty), ALL_OPERATIONS)
  }

  function Datasets(name: string): Option<Dataset> {
    if name == "employees" then
      Some(Dataset(
        Join("employees", true, "departments", "department_id"), ByPermission("employee.profile.read.any"), None,
        map["id" := Own("id", StringType), "display_name" := Own("display_name", StringType),
            "department_id" := Own("department_id", StringType),
            "department_name" := FieldSpec(Column(true, "name", StringType), ALL_OPERATIONS),
            "title" := Own("title", StringType), "employment_status" := Own("employment_status", StringType),
            "email" := FieldSpec(Column(false, "email", StringType), {OpSelect, OpFilter})],
        ["id", "display_name", "department_id", "employment_status"]))
    else if name == "attendance_records" then
      Some(Dataset(
        Join("attendance_records", false, "employees", "employee_id"), AttendanceScope, Some("work_date"),
        map["id" := Own("id", StringType), "employee_id" := Own("employee_id", StringType),
            "work_date" := Own("work_date", DateType), "status" := Own("status", StringType),
            "minutes_worked" := Own("minutes_worked", NumberType)],
        ["id", "employee_id", "work_date", "status", "minutes_worked"]))
    else if name == "leave_requests" then
      Some(Dataset(
        Scan("leave_requests"), LeaveScope, None,
        map["id" := Own("id", StringType), "employee_id" := Own("employee_id", StringType),
            "leave_type_id" := Own("leave_type_id", StringType), "start_date" := Own("start_date", DateType),
            "end_date" := Own("end_date", DateType), "requested_days" := Own("requested_days", NumberType),
            "status" := Own("status", StringType)],
        ["id", "leave_type_id", "start_date", "end_date", "requested_days", "status"]))
    else None
  }

  const COMPANY := Column(false, "company_id", StringType)
  const OWNER := Column(false, "employee_id", StringType)
  const DEPARTMENT := Column(true, "department_id", StringType)

  // ----------------------------------------------------------------- source queries

  /** A JSON value as the agent sends it; `Other` is a boolean or an object. */
  datatype Json = Undefined | JNull | JNum(n: real) | JStr(s: string) | JArr(items: seq<Json>) | Other

  /** The nine operators; any other text is OtherOperator. */
  datatype Operator = Comparing(cmp: CmpOp) | IsIn | IsBetween | DoesContain | OtherOperator

  datatype Filter = Filter(field: string, operator: Operator, value: Json)

  /** `fn` is None for a function name outside count, sum, avg, min and max. */
  datatype Aggregation = Aggregation(fn: Option<AggFn>, field: Option<string>, alias: string)

  datatype Direction = Ascending | Descending | OtherDirection

  datatype SortItem = SortItem(field: string, direction: Direction)

  datatype Query = Query(
    dataset: string, select: Option<seq<string>>, filters: Option<seq<Filter>>, sort: Option<seq<SortItem>>,
    aggregations: Option<seq<Aggregation>>, groupBy: Option<seq<string>>, limit: Json, offset: Json)

  /** The authenticated actor; an empty string is an absent field. */
  datatype Context =
    Context(companyId: string, employeeId: string, departmentId: string, permissions: Option<seq<string>>)

  datatype HrmError = ValidationFailed | Unauthenticated | Forbidden

  datatype Plan = Plan(
    sql: Select, params: seq<Param>, dataset: string, aggregate: bool, limit: nat, offset: nat,
    aliases: seq<string>, outputFields: seq<string>)

  function OrEmpty<T>(s: Option<seq<T>>): seq<T> {
    if s.Some? then s.value else []
  }

  predicate Bounded<T>(s: Option<seq<T>>, max: nat) {
    s.None? || |s.value| <= max
  }

  predicate Distinct(names: seq<string>) {
    forall i, j :: 0 <= i < j < |names| ==> names[i] != names[j]
  }

  predicate Has(context: Context, permission: string) {
    context.permissions.Some? && permission in context.permissions.value
  }

  /** `lookup`: the field exists and allows the operation. */
  predicate Allows(ds: Dataset, name: string, op: Operation) {
    name in ds.fields && op in ds.fields[name].operations
  }

  // ---------------------------------------------------------------------- filters

  /** What a filter value may be, by type; a date is the text of a real day. */
  predicate ValidValue(v: Json, ty: ColType) {
    match ty
    case NumberType => v.JNull? || v.JNum?
    case DateType => v.JNull? || (v.JStr? && Calendar.NamesRealDay(v.s))
    case StringType => v.JNull? || (v.JStr? && |v.s| <= 200)
  }

  predicate Operand(v: Json, ty: ColType) {
    ValidValue(v, ty) && !v.JNull?
  }

  /** JavaScript `>` on two operands of one field. */
  predicate Greater(v: Json, w: Json) {
    (v.JNum? && w.JNum? && v.n > w.n) || (v.JStr? && w.JStr? && Strings.Less(w.s, v.s))
  }

  predicate IsEquality(op: Operator) {
    op == Comparing(Eq) || op == Comparing(Ne)
  }

  /** The checks one filter has to pass. */
  predicate AcceptsFilter(ds: Dataset, f: Filter) {
    && Allows(ds, f.field, OpFilter)
    && var ty := ds.fields[f.field].column.ty;
       match f.operator
       case IsIn =>
         && f.value.JArr? && 1 <= |f.value.items| <= 20
         && forall i :: 0 <= i < |f.value.items| ==> Operand(f.value.items[i], ty)
       case IsBetween =>
         && !ty.StringType? && f.value.JArr? && |f.value.items| == 2
         && Operand(f.value.items[0], ty) && Operand(f.value.items[1], ty)
         && !Greater(f.value.items[0], f.value.items[1])
       case DoesContain =>
         ty.StringType? && f.value.JStr? && !Strings.AllBlank(f.value.s) && |f.value.s| <= 100
       case Comparing(_) =>
         (ty.StringType? || f.value.JNull? ==> IsEquality(f.operator)) && ValidValue(f.value, ty)
       case OtherOperator => false
  }

  function ToParam(v: Json): Param {
    if v.JNum? then NumParam(v.n) else if v.JStr? then TextParam(v.s) else TextParam("")
  }

  function ToParams(vs: seq<Json>): (ps: seq<Param>)
    ensures |ps| == |vs| && forall i :: 0 <= i < |vs| ==> ps[i] == ToParam(vs[i])
  {
    seq(|vs|, i requires 0 <= i < |vs| => ToParam(vs[i]))
  }

  datatype Clause = Clause(test: Test, args: seq<Param>)

  function Range(from: nat, count: nat): (r: seq<nat>)
    ensures |r| == count && forall i :: 0 <= i < count ==> r[i] == from + i
  {
    seq(count, i requires 0 <= i < count => from + i)
  }

  /** The conjunct of one accepted filter when n parameters have been pushed before it. */
  function FilterClause(ds: Dataset, f: Filter, n: nat): Clause
    requires AcceptsFilter(ds, f)
  {
    var col := ds.fields[f.field].column;
    match f.operator
    case IsIn =>
      var vs := f.value.items;
      Clause(In(col, Range(n + 1, |vs|)), ToParams(vs))
    case IsBetween => Clause(Between(col, n + 1, n + 2), [ToParam(f.value.items[0]), ToParam(f.value.items[1])])
    case DoesContain => Clause(ILike(col, n + 1), [TextParam(Like.ContainsPattern(f.value.s))])
    case Comparing(cmp) =>
      if f.value.JNull? then Clause(if cmp.Ne? then IsNotNull(col) else IsNull(col), [])
      else Clause(Cmp(cmp, col, n + 1), [ToParam(f.value)])
  }

  datatype Clauses = Clauses(tests: seq<Test>, args: seq<Param>)

  predicate AcceptsFilters(ds: Dataset, fs: seq<Filter>) {
    forall i :: 0 <= i < |fs| ==> AcceptsFilter(ds, fs[i])
  }

  function FilterClauses(ds: Dataset, fs: seq<Filter>, n: nat): (c: Clauses)
    requires AcceptsFilters(ds, fs)
    ensures |c.tests| == |fs|
  {
    if fs == [] then Clauses([], [])
    else
      var k := |fs| - 1;
      var init := FilterClauses(ds, fs[..k], n);
      var last := FilterClause(ds, fs[k], n + |init.args|);
      Clauses(init.tests + [last.test], init.args + last.args)
  }

  predicate IsDateRange(ds: Dataset, f: Filter) {
    f.operator.IsBetween? && ds.dateField == Some(f.field)
  }

  /** `dateRange`: the bounds of the last `between` on the date field. */
  function DateRange(ds: Dataset, fs: seq<Filter>): Option<Filter> {
    if fs == [] then None
    else if IsDateRange(ds, fs[|fs| - 1]) then Some(fs[|fs| - 1])
    else DateRange(ds, fs[..|fs| - 1])
  }

  /** Date.parse of a validated date, in days. */
  function ParsedDay(v: Json): int {
    if v.JStr? && Calendar.NamesRealDay(v.s) then Calendar.DayNumber(Calendar.Fields(v.s)) else 0
  }

  predicate AcceptsDateRange(ds: Dataset, fs: seq<Filter>) {
    ds.dateField.Some? ==>
      var r := DateRange(ds, fs);
      && r.Some? && r.value.value.JArr? && |r.value.value.items| == 2
      && ParsedDay(r.value.value.items[1]) - ParsedDay(r.value.value.items[0]) < 366
  }

  // -------------------------------------------------------------------------- scope

  datatype ActorScope = ActorScope(tests: seq<Test>, args: seq<Param>, selfOnly: bool)

  predicate AsksForSelf(q: Query, context: Context) {
    exists i :: 0 <= i < |OrEmpty(q.filters)| &&
      q.filters.value[i] == Filter("employee_id", Comparing(Eq), JStr(context.employeeId))
  }

  /** `scopeFor`: the clauses every statement starts with. */
  function ScopeFor(ds: Dataset, context: Context, q: Query): Result<ActorScope, HrmError> {
    var company := Cmp(Eq, COMPANY, 1);
    if context.companyId == "" || context.employeeId == "" || context.permissions.None? then Err(Unauthenticated)
    else match ds.scope
      case ByPermission(p) =>
        if Has(context, p) then Ok(ActorScope([company], [TextParam(context.companyId)], false)) else Err(Forbidden)
      case AttendanceScope =>
        if && Has(context, "attendance.read.self")
           && (AsksForSelf(q, context) || !Has(context, "attendance.read.team") || context.departmentId == "")
        then Ok(ActorScope([company, Cmp(Eq, OWNER, 2)],
                           [TextParam(context.companyId), TextParam(context.employeeId)], true))
        else if Has(context, "attendance.read.team") && context.departmentId != ""
        then Ok(ActorScope([company, Cmp(Eq, DEPARTMENT, 2)],
                           [TextParam(context.companyId), TextParam(context.departmentId)], false))
        else Err(Forbidden)
      case LeaveScope =>
        if Has(context, "leave.read.self")
        then Ok(ActorScope([company, Cmp(Eq, OWNER, 2)],
                           [TextParam(context.companyId), TextParam(context.employeeId)], true))
        else Err(Forbidden)
  }

  // -------------------------------------------------------------- the other clauses

  predicate AliasPattern(a: string) {
    && 1 <= |a| <= 40 && 'a' <= a[0] <= 'z'
    && forall i :: 1 <= i < |a| ==> 'a' <= a[i] <= 'z' || '0' <= a[i] <= '9' || a[i] == '_'
  }

  predicate AcceptsAggregation(ds: Dataset, groupBy: seq<string>, earlier: seq<Aggregation>, a: Aggregation) {
    && a.fn.Some? && AliasPattern(a.alias)
    && (forall i :: 0 <= i < |earlier| ==> earlier[i].alias != a.alias) && a.alias !in groupBy
    && (a.field.None? ==> a.fn == Some(Count))
    && (a.field.Some? ==>
          && Allows(ds, a.field.value, OpAggregate)
          && (a.fn == Some(Count) || ds.fields[a.field.value].column.ty.NumberType?))
  }

  predicate AcceptsAggregations(ds: Dataset, groupBy: seq<string>, as_: seq<Aggregation>) {
    forall i :: 0 <= i < |as_| ==> AcceptsAggregation(ds, groupBy, as_[..i], as_[i])
  }

  predicate AcceptsSort(ds: Dataset, aggregate: bool, groupBy: seq<string>, as_: seq<Aggregation>, s: SortItem) {
    && !s.direction.OtherDirection?
    && if aggregate then s.field in groupBy || exists i :: 0 <= i < |as_| && as_[i].alias == s.field
       else Allows(ds, s.field, OpSort)
  }

  function WholeNumber(v: Json, absent: nat): Option<int> {
    if v.Undefined? then Some(absent)
    else if v.JNum? && v.n == v.n.Floor as real then Some(v.n.Floor)
    else None
  }

  /** Lengths, the select/groupBy/aggregations combination, and the names they use. */
  predicate ShapeFits(ds: Dataset, q: Query) {
    var select, groupBy, aggregate := OrEmpty(q.select), OrEmpty(q.groupBy), OrEmpty(q.aggregations) != [];
    && Bounded(q.select, 12) && Bounded(q.filters, 8) && Bounded(q.sort, 3) && Bounded(q.aggregations, 5)
    && Bounded(q.groupBy, 2)
    && (q.aggregations.Some? ==> aggregate)
    && (if aggregate then select == [] else groupBy == [])
    && (forall i :: 0 <= i < |select| ==> Allows(ds, select[i], OpSelect))
    && (forall i :: 0 <= i < |groupBy| ==> Allows(ds, groupBy[i], OpGroup))
    && Distinct(select) && Distinct(groupBy)
  }

  /** Aggregations, sort items, limit and offset. */
  predicate OutputFits(ds: Dataset, q: Query) {
    var groupBy, as_, sort := OrEmpty(q.groupBy), OrEmpty(q.aggregations), OrEmpty(q.sort);
    && AcceptsAggregations(ds, groupBy, as_)
    && (forall i :: 0 <= i < |sort| ==> AcceptsSort(ds, as_ != [], groupBy, as_, sort[i]))
    && WholeNumber(q.limit, 20).Some? && 1 <= WholeNumber(q.limit, 20).value <= 100
    && WholeNumber(q.offset, 0).Some? && 0 <= WholeNumber(q.offset, 0).value <= 10000
  }

  /** Every check of the query's shape; any failure is a validation error. */
  predicate WellFormed(ds: Dataset, q: Query) {
    && ShapeFits(ds, q)
    && AcceptsFilters(ds, OrEmpty(q.filters))
    && AcceptsDateRange(ds, OrEmpty(q.filters))
    && OutputFits(ds, q)
  }

  function PlainProjection(ds: Dataset, name: string): Projection
    requires name in ds.fields
  {
    Projection(Label(name, Plain), Some(ds.fields[name].column))
  }

  function AggregateProjection(ds: Dataset, a: Aggregation): Projection
    requires a.fn.Some? && (a.field.Some? ==> a.field.value in ds.fields)
  {
    Projection(Label(a.alias, Agg(a.fn.value, a.field.None?)),
               if a.field.Some? then Some(ds.fields[a.field.value].column) else None)
  }

  predicate Registered(ds: Dataset, names: seq<string>) {
    forall i :: 0 <= i < |names| ==> names[i] in ds.fields
  }

  function PlainProjections(ds: Dataset, names: seq<string>): seq<Projection>
    requires Registered(ds, names)
  {
    seq(|names|, i requires 0 <= i < |names| => PlainProjection(ds, names[i]))
  }

  function AggregateProjections(ds: Dataset, groupBy: seq<string>, as_: seq<Aggregation>): seq<Projection>
    requires AcceptsAggregations(ds, groupBy, as_)
  {
    seq(|as_|, i requires 0 <= i < |as_| => AggregateProjection(ds, as_[i]))
  }

  function FieldColumns(ds: Dataset, names: seq<string>): seq<Column>
    requires Registered(ds, names)
  {
    seq(|names|, i requires 0 <= i < |names| => ds.fields[names[i]].column)
  }

  function OutputOrder(names: seq<string>): seq<OrderKey> {
    seq(|names|, i requires 0 <= i < |names| => ByOutput(names[i], false))
  }

  function OrderItem(ds: Dataset, aggregate: bool, s: SortItem): OrderKey
    requires aggregate || s.field in ds.fields
  {
    if aggregate then ByOutput(s.field, s.direction.Descending?)
    else ByColumn(ds.fields[s.field].column, s.direction.Descending?)
  }

  function Order(ds: Dataset, aggregate: bool, sort: seq<SortItem>): seq<OrderKey>
    requires forall i :: 0 <= i < |sort| ==> aggregate || sort[i].field in ds.fields
  {
    seq(|sort|, i requires 0 <= i < |sort| => OrderItem(ds, aggregate, sort[i]))
  }

  function Names(q: Query, ds: Dataset): seq<string> {
    if OrEmpty(q.select) != [] then OrEmpty(q.select) else ds.defaultSelect
  }

  predicate IsDataset(ds: Dataset) {
    || Some(ds) == Datasets("employees")
    || Some(ds) == Datasets("attendance_records")
    || Some(ds) == Datasets("leave_requests")
  }

  lemma {:induction false} RegistryIsSound(ds: Dataset)
    requires IsDataset(ds)
    ensures "id" in ds.fields && Registered(ds, ds.defaultSelect) && ds.defaultSelect != []
    ensures Distinct(ds.defaultSelect)
    ensures forall i :: 0 <= i < |ds.defaultSelect| ==> Allows(ds, ds.defaultSelect[i], OpSelect)
    ensures ds.dateField.Some? ==> ds.dateField.value in ds.fields && ds.fields[ds.dateField.value].column.ty.DateType?
  {
  }

  /** Projections and effective ORDER BY. */
  function Output(ds: Dataset, q: Query): (seq<Projection>, seq<OrderKey>)
    requires IsDataset(ds) && OutputFits(ds, q) && Registered(ds, OrEmpty(q.groupBy)) && Registered(ds, Names(q, ds))
  {
    RegistryIsSound(ds);
    var groupBy, as_, sort := OrEmpty(q.groupBy), OrEmpty(q.aggregations), OrEmpty(q.sort);
    var aggregate := as_ != [];
    (if aggregate then PlainProjections(ds, groupBy) + AggregateProjections(ds, groupBy, as_)
     else PlainProjections(ds, Names(q, ds)),
     if sort != [] then Order(ds, aggregate, sort)
     else if aggregate then OutputOrder(groupBy)
     else [ByColumn(ds.fields["id"].column, false)])
  }

  /** The statement of an accepted query: every value is a parameter, every name comes from the
      registry or is a checked alias. */
  function Statement(ds: Dataset, q: Query, scope: ActorScope): (r: (Select, seq<Param>))
    requires IsDataset(ds) && WellFormed(ds, q)
  {
    RegistryIsSound(ds);
    var filters := FilterClauses(ds, OrEmpty(q.filters), |scope.args|);
    var args := scope.args + filters.args;
    var output := Output(ds, q);
    (Select(output.0, ds.from, scope.tests + filters.tests, FieldColumns(ds, OrEmpty(q.groupBy)), output.1,
            |args| + 1, |args| + 2),
     args + [NumParam(WholeNumber(q.limit, 20).value as real), NumParam(WholeNumber(q.offset, 0).value as real)])
  }

  function AliasNames(as_: seq<Aggregation>): seq<string> {
    seq(|as_|, i requires 0 <= i < |as_| => as_[i].alias)
  }

  /** `buildDynamicQuery` as a function: which queries are accepted, which error the others
      get, and the plan. */
  function Compile(q: Query, context: Context): Result<Plan, HrmError> {
    var found := Datasets(q.dataset);
    if found.None? then Err(ValidationFailed)
    else
      var ds := found.value;
      var scope := ScopeFor(ds, context, q);
      if scope.Err? then Err(scope.error)
      else if !WellFormed(ds, q) then Err(ValidationFailed)
      else
        var aggregate := OrEmpty(q.aggregations) != [];
        if aggregate && !scope.value.selfOnly then Err(Forbidden)
        else
          var (sql, params) := Statement(ds, q, scope.value);
          Ok(Plan(sql, params, q.dataset, aggregate, WholeNumber(q.limit, 20).value, WholeNumber(q.offset, 0).value,
                  AliasNames(OrEmpty(q.aggregations)), if aggregate then OrEmpty(q.groupBy) else Names(q, ds)))
  }
}
