/** Which structured queries are legal, told by the names of datasets and fields and by plain bounds, and which
    table and column every field is read from. */
module QueryLegality {
  import opened Wrappers
  import opened Sql
  import opened DynamicQuery
  import Calendar
  import Strings
  import QueryAdmission
  import QueryMeaning

  // ------------------------------------------------------------------------ fields

  predicate HasField(dataset: string, name: string, ty: ColType) {
    || (dataset == "employees" && ty.StringType?
        && name in {"id", "display_name", "department_id", "department_name", "title", "employment_status", "email"})
    || (dataset == "attendance_records" && ty.StringType? && name in {"id", "employee_id", "status"})
    || (dataset == "attendance_records" && ty.DateType? && name == "work_date")
    || (dataset == "attendance_records" && ty.NumberType? && name == "minutes_worked")
    || (dataset == "leave_requests" && ty.StringType? && name in {"id", "employee_id", "leave_type_id", "status"})
    || (dataset == "leave_requests" && ty.DateType? && name in {"start_date", "end_date"})
    || (dataset == "leave_requests" && ty.NumberType? && name == "requested_days")
  }

  predicate HasAnyField(dataset: string, name: string) {
    HasField(dataset, name, StringType) || HasField(dataset, name, NumberType) || HasField(dataset, name, DateType)
  }

  /** Everything can be done with a field, but an email can only be shown and filtered. */
  predicate Usable(dataset: string, name: string, op: Operation) {
    HasAnyField(dataset, name) && (name == "email" ==> op == OpSelect || op == OpFilter)
  }

  lemma {:induction false} EmployeeFields(name: string, op: Operation, ty: ColType)
    ensures var ds := Datasets("employees").value;
            && (Allows(ds, name, op) <==> Usable("employees", name, op))
            && (name in ds.fields && ds.fields[name].column.ty == ty <==> HasField("employees", name, ty))
  {
  }

  lemma {:induction false} AttendanceFields(name: string, op: Operation, ty: ColType)
    ensures var ds := Datasets("attendance_records").value;
            && (Allows(ds, name, op) <==> Usable("attendance_records", name, op))
            && (name in ds.fields && ds.fields[name].column.ty == ty <==> HasField("attendance_records", name, ty))
  {
  }

  lemma {:induction false} LeaveFields(name: string, op: Operation, ty: ColType)
    ensures var ds := Datasets("leave_requests").value;
            && (Allows(ds, name, op) <==> Usable("leave_requests", name, op))
            && (name in ds.fields && ds.fields[name].column.ty == ty <==> HasField("leave_requests", name, ty))
  {
  }

  /** The registry knows these fields, with these types, for these operations, and no others. */
  lemma {:induction false} RegistryIs(dataset: string, name: string, op: Operation, ty: ColType)
    ensures Datasets(dataset).Some? <==> QueryAdmission.KnownDataset(dataset)
    ensures Datasets(dataset).Some? ==>
              var ds := Datasets(dataset).value;
              && (Allows(ds, name, op) <==> Usable(dataset, name, op))
              && (name in ds.fields && ds.fields[name].column.ty == ty <==> HasField(dataset, name, ty))
  {
    EmployeeFields(name, op, ty);
    AttendanceFields(name, op, ty);
    LeaveFields(name, op, ty);
  }

  /** A field is read from the column of its name, a department's name from the joined department. */
  lemma {:induction false} FieldIsRead(dataset: string, name: string, j: Joined)
    requires HasAnyField(dataset, name) && Datasets(dataset).Some?
    ensures QueryMeaning.FieldValue(Datasets(dataset).value, name, j) ==
            if name != "department_name" then Cell(j.base, name)
            else if j.other.Some? then Cell(j.other.value, "name") else Null
  {
    RegistryIs(dataset, name, OpSelect, StringType);
  }

  /** The tables, and how they are joined. */
  lemma {:induction false} TablesAre(dataset: string)
    requires Datasets(dataset).Some?
    ensures Datasets(dataset).value.from ==
            if dataset == "employees" then Join("employees", true, "departments", "department_id")
            else if dataset == "attendance_records" then Join("attendance_records", false, "employees", "employee_id")
            else Scan("leave_requests")
  {
  }

  /** Without a selection a list shows these fields. */
  lemma {:induction false} DefaultsAre(q: Query)
    requires Datasets(q.dataset).Some?
    ensures Names(q, Datasets(q.dataset).value) ==
            if q.select.Some? && q.select.value != [] then q.select.value
            else if q.dataset == "employees" then ["id", "display_name", "department_id", "employment_status"]
            else if q.dataset == "attendance_records"
            then ["id", "employee_id", "work_date", "status", "minutes_worked"]
            else ["id", "leave_type_id", "start_date", "end_date", "requested_days", "status"]
  {
  }

  // ----------------------------------------------------------------------- filters

  /** A present value of the type: a number, the text of a real day, a text of at most 200 characters. */
  predicate IsValue(v: Json, ty: ColType) {
    || (v.JNum? && ty.NumberType?)
    || (v.JStr? && ty.DateType? && Calendar.NamesRealDay(v.s))
    || (v.JStr? && ty.StringType? && |v.s| <= 200)
  }

  function DayOf(v: Json): int
    requires IsValue(v, DateType)
  {
    Calendar.DayNumber(Calendar.Fields(v.s))
  }

  /** The first of two numbers or days is not the greater one. */
  predicate InOrder(v: Json, w: Json) {
    || (v.JNum? && w.JNum? && v.n <= w.n)
    || (IsValue(v, DateType) && IsValue(w, DateType) && DayOf(v) <= DayOf(w))
  }

  predicate Fits(f: Filter, ty: ColType) {
    match f.operator
    case IsIn => f.value.JArr? && 1 <= |f.value.items| <= 20 && forall v :: v in f.value.items ==> IsValue(v, ty)
    case IsBetween =>
      && f.value.JArr? && |f.value.items| == 2 && !ty.StringType?
      && IsValue(f.value.items[0], ty) && IsValue(f.value.items[1], ty) && InOrder(f.value.items[0], f.value.items[1])
    case DoesContain =>
      && ty.StringType? && f.value.JStr? && |f.value.s| <= 100
      && exists i :: 0 <= i < |f.value.s| && !Strings.Blank(f.value.s[i])
    case Comparing(cmp) =>
      (IsValue(f.value, ty) && !ty.StringType?) || ((IsValue(f.value, ty) || f.value.JNull?) && cmp in {Eq, Ne})
    case OtherOperator => false
  }

  predicate LegalFilter(dataset: string, f: Filter) {
    || (HasField(dataset, f.field, StringType) && Fits(f, StringType))
    || (HasField(dataset, f.field, NumberType) && Fits(f, NumberType))
    || (HasField(dataset, f.field, DateType) && Fits(f, DateType))
  }

  lemma {:induction false} OneType(dataset: string, name: string, t: ColType, u: ColType)
    requires HasField(dataset, name, t) && HasField(dataset, name, u)
    ensures t == u
  {
  }

  lemma {:induction false} OrderIsNotGreater(v: Json, w: Json, ty: ColType)
    requires IsValue(v, ty) && IsValue(w, ty) && !ty.StringType?
    ensures InOrder(v, w) <==> !Greater(v, w)
  {
    if ty.DateType? {
      Calendar.StringOrderIsChronological(w.s, v.s);
      Calendar.DayNumberOrdersDates(Calendar.Fields(w.s), Calendar.Fields(v.s));
    }
  }

  lemma {:induction false} ListFits(vs: seq<Json>, ty: ColType)
    ensures (forall i :: 0 <= i < |vs| ==> Operand(vs[i], ty)) <==> forall v :: v in vs ==> IsValue(v, ty)
  {
    forall v ensures Operand(v, ty) <==> IsValue(v, ty) { }
    if forall v :: v in vs ==> IsValue(v, ty) {
      forall i | 0 <= i < |vs| ensures Operand(vs[i], ty) { assert vs[i] in vs; }
    }
  }

  lemma {:induction false} FitsIsAccepted(ds: Dataset, f: Filter, ty: ColType)
    requires Allows(ds, f.field, OpFilter) && ds.fields[f.field].column.ty == ty
    ensures AcceptsFilter(ds, f) <==> Fits(f, ty)
  {
    match f.operator {
      case IsIn => if f.value.JArr? { ListFits(f.value.items, ty); }
      case IsBetween =>
        if f.value.JArr? && |f.value.items| == 2 && !ty.StringType? {
          var v, w := f.value.items[0], f.value.items[1];
          if IsValue(v, ty) && IsValue(w, ty) { OrderIsNotGreater(v, w, ty); }
        }
      case _ =>
    }
  }

  lemma {:induction false} LegalIsAccepted(dataset: string, f: Filter)
    requires Datasets(dataset).Some?
    ensures AcceptsFilter(Datasets(dataset).value, f) <==> LegalFilter(dataset, f)
  {
    var ds := Datasets(dataset).value;
    RegistryIs(dataset, f.field, OpFilter, StringType);
    RegistryIs(dataset, f.field, OpFilter, NumberType);
    RegistryIs(dataset, f.field, OpFilter, DateType);
    if Allows(ds, f.field, OpFilter) { FitsIsAccepted(ds, f, ds.fields[f.field].column.ty); }
  }

  ghost predicate LegalFilters(dataset: string, fs: seq<Filter>) {
    forall i :: 0 <= i < |fs| ==> LegalFilter(dataset, fs[i])
  }

  lemma {:induction false} LegalFiltersAreAccepted(dataset: string, fs: seq<Filter>)
    requires Datasets(dataset).Some?
    ensures AcceptsFilters(Datasets(dataset).value, fs) <==> LegalFilters(dataset, fs)
  {
    var ds := Datasets(dataset).value;
    forall i | 0 <= i < |fs| ensures AcceptsFilter(ds, fs[i]) <==> LegalFilter(dataset, fs[i]) {
      LegalIsAccepted(dataset, fs[i]);
    }
  }

  // -------------------------------------------------------------------- date range

  predicate BoundsDates(f: Filter) { f.field == "work_date" && f.operator.IsBetween? }

  predicate LastBound(fs: seq<Filter>, i: int) {
    0 <= i < |fs| && BoundsDates(fs[i]) && forall j :: i < j < |fs| ==> !BoundsDates(fs[j])
  }

  /** Attendance is asked for between two dates, the last two given being less than 366 days apart. */
  ghost predicate LegalRange(dataset: string, fs: seq<Filter>)
    requires LegalFilters(dataset, fs)
  {
    dataset == "attendance_records" ==>
      exists i :: LastBound(fs, i) && DaysSpanned(dataset, fs[i]) < 366
  }

  function DaysSpanned(dataset: string, f: Filter): int
    requires LegalFilter(dataset, f) && BoundsDates(f)
  {
    DayOf(f.value.items[1]) - DayOf(f.value.items[0])
  }

  lemma {:induction false} DateRangeIsLast(ds: Dataset, fs: seq<Filter>, i: int)
    requires ds.dateField == Some("work_date") && LastBound(fs, i)
    ensures DateRange(ds, fs) == Some(fs[i])
  {
    if i < |fs| - 1 {
      assert !BoundsDates(fs[|fs| - 1]);
      DateRangeIsLast(ds, fs[..|fs| - 1], i);
    }
  }

  lemma {:induction false} DateRangeFindsLast(ds: Dataset, fs: seq<Filter>) returns (i: int)
    requires ds.dateField == Some("work_date") && DateRange(ds, fs).Some?
    ensures LastBound(fs, i)
  {
    i := |fs| - 1;
    if !BoundsDates(fs[i]) { i := DateRangeFindsLast(ds, fs[..|fs| - 1]); }
  }

  lemma {:induction false} LegalRangeIsAccepted(dataset: string, fs: seq<Filter>)
    requires Datasets(dataset).Some? && LegalFilters(dataset, fs)
    ensures AcceptsDateRange(Datasets(dataset).value, fs) <==> LegalRange(dataset, fs)
  {
    var ds := Datasets(dataset).value;
    if dataset == "attendance_records" {
      assert ds.dateField == Some("work_date");
      if DateRange(ds, fs).Some? {
        var i := DateRangeFindsLast(ds, fs);
        DateRangeIsLast(ds, fs, i);
        SpanIsParsed(dataset, fs[i]);
      }
      if i :| LastBound(fs, i) && DaysSpanned(dataset, fs[i]) < 366 {
        DateRangeIsLast(ds, fs, i);
        SpanIsParsed(dataset, fs[i]);
      }
    }
  }

  lemma {:induction false} SpanIsParsed(dataset: string, f: Filter)
    requires LegalFilter(dataset, f) && BoundsDates(f)
    ensures f.value.JArr? && |f.value.items| == 2
    ensures ParsedDay(f.value.items[1]) - ParsedDay(f.value.items[0]) == DaysSpanned(dataset, f)
  {
  }

  // ------------------------------------------------------------------------- shape

  predicate AtMost<T>(s: Option<seq<T>>, n: nat) { s.Some? ==> |s.value| <= n }

  predicate Each(dataset: string, names: seq<string>, op: Operation) {
    && (forall i :: 0 <= i < |names| ==> Usable(dataset, names[i], op))
    && forall i, j :: 0 <= i < j < |names| ==> names[i] != names[j]
  }

  /** A list may select up to twelve fields and groups by none; an aggregate has one to five aggregations, may
      group by up to two fields and selects none. */
  predicate LegalShape(q: Query) {
    && AtMost(q.select, 12) && AtMost(q.filters, 8) && AtMost(q.sort, 3) && AtMost(q.aggregations, 5)
    && AtMost(q.groupBy, 2)
    && (q.aggregations.Some? ==> q.aggregations.value != [] && (q.select.Some? ==> q.select.value == []))
    && (q.aggregations.None? ==> q.groupBy.Some? ==> q.groupBy.value == [])
    && (q.select.Some? ==> Each(q.dataset, q.select.value, OpSelect))
    && (q.groupBy.Some? ==> Each(q.dataset, q.groupBy.value, OpGroup))
  }

  lemma {:induction false} EachIsAllowed(dataset: string, names: seq<string>, op: Operation)
    requires Datasets(dataset).Some?
    ensures Each(dataset, names, op) <==>
            (forall i :: 0 <= i < |names| ==> Allows(Datasets(dataset).value, names[i], op)) && Distinct(names)
  {
    forall i | 0 <= i < |names|
      ensures Allows(Datasets(dataset).value, names[i], op) <==> Usable(dataset, names[i], op)
    {
      RegistryIs(dataset, names[i], op, StringType);
    }
  }

  lemma {:induction false} LegalShapeFits(q: Query)
    requires Datasets(q.dataset).Some?
    ensures ShapeFits(Datasets(q.dataset).value, q) <==> LegalShape(q)
  {
    EachIsAllowed(q.dataset, OrEmpty(q.select), OpSelect);
    EachIsAllowed(q.dataset, OrEmpty(q.groupBy), OpGroup);
  }

  // ------------------------------------------------------------------------ output

  /** A lower-case letter and up to 39 lower-case letters, digits and underscores. */
  predicate LegalAlias(a: string) {
    && a != "" && |a| < 41 && 'a' <= a[0] <= 'z'
    && forall c :: c in a ==> 'a' <= c <= 'z' || '0' <= c <= '9' || c == '_'
  }

  predicate LegalAggregation(dataset: string, a: Aggregation) {
    && LegalAlias(a.alias) && a.fn.Some?
    && match a.field
       case None => a.fn.value == Count
       case Some(name) =>
         Usable(dataset, name, OpAggregate) && (a.fn.value == Count || HasField(dataset, name, NumberType))
  }

  /** Every aggregation is legal, and its alias is used nowhere else. */
  predicate LegalAggregations(dataset: string, groupBy: seq<string>, as_: seq<Aggregation>) {
    && (forall i :: 0 <= i < |as_| ==> LegalAggregation(dataset, as_[i]) && as_[i].alias !in groupBy)
    && forall i, j :: 0 <= i < j < |as_| ==> as_[i].alias != as_[j].alias
  }

  lemma {:induction false} AliasIsPattern(a: string)
    ensures LegalAlias(a) <==> AliasPattern(a)
  {
    assert forall i :: 0 <= i < |a| ==> a[i] in a;
    if AliasPattern(a) {
      forall c | c in a ensures 'a' <= c <= 'z' || '0' <= c <= '9' || c == '_' {
        var i :| 0 <= i < |a| && a[i] == c;
      }
    }
  }

  lemma {:induction false} OneAggregation(dataset: string, groupBy: seq<string>, earlier: seq<Aggregation>,
          a: Aggregation)
    requires Datasets(dataset).Some?
    ensures AcceptsAggregation(Datasets(dataset).value, groupBy, earlier, a) <==>
            LegalAggregation(dataset, a) && a.alias !in groupBy
            && forall i :: 0 <= i < |earlier| ==> earlier[i].alias != a.alias
  {
    AliasIsPattern(a.alias);
    if a.field.Some? { RegistryIs(dataset, a.field.value, OpAggregate, NumberType); }
  }

  lemma {:induction false} LegalAggregationsAreAccepted(dataset: string, groupBy: seq<string>, as_: seq<Aggregation>)
    requires Datasets(dataset).Some?
    ensures AcceptsAggregations(Datasets(dataset).value, groupBy, as_) <==> LegalAggregations(dataset, groupBy, as_)
  {
    var ds := Datasets(dataset).value;
    forall i | 0 <= i < |as_|
      ensures AcceptsAggregation(ds, groupBy, as_[..i], as_[i]) <==>
              LegalAggregation(dataset, as_[i]) && as_[i].alias !in groupBy
              && forall j :: 0 <= j < i ==> as_[j].alias != as_[i].alias
    {
      OneAggregation(dataset, groupBy, as_[..i], as_[i]);
      assert forall j :: 0 <= j < i ==> as_[..i][j] == as_[j];
    }
    if AcceptsAggregations(ds, groupBy, as_) {
      forall i, j | 0 <= i < j < |as_| ensures as_[i].alias != as_[j].alias {
        assert AcceptsAggregation(ds, groupBy, as_[..j], as_[j]);
      }
    }
  }

  /** A list is sorted by fields, an aggregate by what it puts out. */
  predicate LegalSort(q: Query, s: SortItem) {
    && (s.direction == Ascending || s.direction == Descending)
    && if q.aggregations.None? then Usable(q.dataset, s.field, OpSort)
       else || (q.groupBy.Some? && s.field in q.groupBy.value)
            || exists i :: 0 <= i < |q.aggregations.value| && q.aggregations.value[i].alias == s.field
  }

  /** Absent, or a whole number from `lo` to `hi`. */
  predicate LegalNumber(v: Json, lo: int, hi: int) {
    v.Undefined? || (v.JNum? && v.n.Floor as real == v.n && lo <= v.n.Floor <= hi)
  }

  predicate LegalOutput(q: Query) {
    && LegalAggregations(q.dataset, OrEmpty(q.groupBy), OrEmpty(q.aggregations))
    && (q.sort.Some? ==> forall i :: 0 <= i < |q.sort.value| ==> LegalSort(q, q.sort.value[i]))
    && LegalNumber(q.limit, 1, 100) && LegalNumber(q.offset, 0, 10_000)
  }

  lemma {:induction false} LegalSortIsAccepted(q: Query, s: SortItem)
    requires Datasets(q.dataset).Some? && (q.aggregations.Some? ==> q.aggregations.value != [])
    ensures var ds, groupBy, as_ := Datasets(q.dataset).value, OrEmpty(q.groupBy), OrEmpty(q.aggregations);
            AcceptsSort(ds, as_ != [], groupBy, as_, s) <==> LegalSort(q, s)
  {
    RegistryIs(q.dataset, s.field, OpSort, StringType);
  }

  lemma {:induction false} LegalOutputFits(q: Query)
    requires Datasets(q.dataset).Some? && (q.aggregations.Some? ==> q.aggregations.value != [])
    ensures OutputFits(Datasets(q.dataset).value, q) <==> LegalOutput(q)
  {
    var ds, groupBy, as_ := Datasets(q.dataset).value, OrEmpty(q.groupBy), OrEmpty(q.aggregations);
    var sort := OrEmpty(q.sort);
    LegalAggregationsAreAccepted(q.dataset, groupBy, as_);
    forall i | 0 <= i < |sort| ensures AcceptsSort(ds, as_ != [], groupBy, as_, sort[i]) <==> LegalSort(q, sort[i]) {
      LegalSortIsAccepted(q, sort[i]);
    }
  }

  ghost predicate Legal(q: Query) {
    && QueryAdmission.KnownDataset(q.dataset) && LegalShape(q)
    && LegalFilters(q.dataset, OrEmpty(q.filters)) && LegalRange(q.dataset, OrEmpty(q.filters))
    && LegalOutput(q)
  }

  /** Nothing is wrong with a query exactly when it is legal. */
  lemma {:induction false} ProperIffLegal(q: Query)
    ensures QueryAdmission.Proper(q) <==> Legal(q)
  {
    RegistryIs(q.dataset, "id", OpSelect, StringType);
    if Datasets(q.dataset).Some? {
      LegalShapeFits(q);
      LegalFiltersAreAccepted(q.dataset, OrEmpty(q.filters));
      if LegalFilters(q.dataset, OrEmpty(q.filters)) { LegalRangeIsAccepted(q.dataset, OrEmpty(q.filters)); }
      if LegalShape(q) { LegalOutputFits(q); }
    }
  }

  /** A compiled query answers at most a hundred rows: twenty from the first one on, if it does not say. */
  lemma {:induction false} PageIsBounded(q: Query, context: Context)
    requires Compile(q, context).Ok?
    ensures var plan := Compile(q, context).value;
            && plan.limit == (if q.limit.Undefined? then 20 else q.limit.n.Floor) && 1 <= plan.limit <= 100
            && plan.offset == (if q.offset.Undefined? then 0 else q.offset.n.Floor) && 0 <= plan.offset <= 10_000
            && plan.dataset == q.dataset && (plan.aggregate <==> q.aggregations.Some?)
            && |plan.aliases| == |OrEmpty(q.aggregations)|
            && (forall i :: 0 <= i < |plan.aliases| ==> plan.aliases[i] == q.aggregations.value[i].alias)
            && plan.outputFields == if plan.aggregate then OrEmpty(q.groupBy) else Names(q, Datasets(q.dataset).value)
  {
  }

  /** An admitted actor sees the records of his company: all employees, his own leave, and his own attendance or
      that of his department. */
  lemma {:induction false} SeenRecords(q: Query, c: Context, j: Joined)
    requires QueryAdmission.Identified(c) && QueryAdmission.MayAsk(c, q.dataset)
    ensures Datasets(q.dataset).Some?
    ensures QueryMeaning.Visible(QueryMeaning.AudienceOf(Datasets(q.dataset).value, c, q), c, j) <==>
            && Cell(j.base, "company_id") == Text(c.companyId)
            && (QueryAdmission.OwnOnly(c, q) ==> Cell(j.base, "employee_id") == Text(c.employeeId))
            && (q.dataset == "attendance_records" && !QueryAdmission.OwnOnly(c, q) ==>
                  j.other.Some? && Cell(j.other.value, "department_id") == Text(c.departmentId))
  {
    QueryAdmission.GrantedIsHas(c, "attendance.read.self");
    QueryAdmission.GrantedIsHas(c, "attendance.read.team");
    QueryAdmission.NamesHimselfIsAsked(q, c);
  }
}
