/** The compiler as it is written: parameters are pushed one by one and every check runs where the
    original runs it.  Each method is proved to compute its part of `DynamicQuery.Compile`. */
module DynamicQueryBuilder {
  import opened Wrappers
  import opened Sql
  import opened DynamicQuery
  import Calendar
  import Like
  import Strings
  import QueryCompilerCorrect
  import QueryCompilerSafety

  /** `params` with the closure `add`, which pushes a value and answers its placeholder. */
  class ParamList {
    var values: seq<Param>

    constructor ()
      ensures values == []
    {
      values := [];
    }

    method Add(v: Param) returns (ph: nat)
      modifies this
      ensures values == old(values) + [v] && ph == |values|
    {
      values := values + [v];
      ph := |values|;
    }
  }

  /** `validValue` with its date test, on an engine that rolls overlong days over or refuses them. */
  predicate PassesValidValue(v: Json, ty: ColType, lenient: bool) {
    match ty
    case NumberType => v.JNull? || v.JNum?
    case DateType => v.JNull? || (v.JStr? && Calendar.ValidDate(v.s, lenient))
    case StringType => v.JNull? || (v.JStr? && |v.s| <= 200)
  }

  lemma {:induction false} PassesValidValueIff(v: Json, ty: ColType, lenient: bool)
    ensures PassesValidValue(v, ty, lenient) <==> ValidValue(v, ty)
  {
    if v.JStr? { Calendar.ValidDateIffRealDay(v.s, lenient); }
  }

  method CheckOperand(v: Json, ty: ColType, lenient: bool) returns (ok: bool)
    ensures ok <==> Operand(v, ty)
  {
    PassesValidValueIff(v, ty, lenient);
    ok := PassesValidValue(v, ty, lenient) && !v.JNull?;
  }

  method BuildScope(ds: Dataset, context: Context, params: ParamList, q: Query)
    returns (tests: seq<Test>, selfOnly: bool, error: Option<HrmError>)
    requires params.values == []
    modifies params
    ensures error == match ScopeFor(ds, context, q) case Ok(_) => None case Err(e) => Some(e)
    ensures error.None? ==> ScopeFor(ds, context, q) == Ok(ActorScope(tests, params.values, selfOnly))
  {
    tests, selfOnly, error := [], false, None;
    ghost var company := TextParam(context.companyId);
    if context.companyId == "" || context.employeeId == "" || context.permissions.None? {
      return [], false, Some(Unauthenticated);
    }
    var ph := params.Add(TextParam(context.companyId));
    assert params.values == [company];
    tests := [Cmp(Eq, COMPANY, ph)];
    match ds.scope {
      case ByPermission(permission) =>
        if !Has(context, permission) { error := Some(Forbidden); }
      case AttendanceScope =>
        var ownFilter := AsksForSelf(q, context);
        if && Has(context, "attendance.read.self")
           && (ownFilter || !Has(context, "attendance.read.team") || context.departmentId == "")
        {
          ph := params.Add(TextParam(context.employeeId));
          tests, selfOnly := tests + [Cmp(Eq, OWNER, ph)], true;
          assert params.values == [company, TextParam(context.employeeId)];
          assert tests == [Cmp(Eq, COMPANY, 1), Cmp(Eq, OWNER, 2)];
        } else if Has(context, "attendance.read.team") && context.departmentId != "" {
          ph := params.Add(TextParam(context.departmentId));
          tests := tests + [Cmp(Eq, DEPARTMENT, ph)];
          assert params.values == [company, TextParam(context.departmentId)];
          assert tests == [Cmp(Eq, COMPANY, 1), Cmp(Eq, DEPARTMENT, 2)];
        } else {
          error := Some(Forbidden);
        }
      case LeaveScope =>
        if !Has(context, "leave.read.self") { return tests, selfOnly, Some(Forbidden); }
        ph := params.Add(TextParam(context.employeeId));
        tests, selfOnly := tests + [Cmp(Eq, OWNER, ph)], true;
        assert params.values == [company, TextParam(context.employeeId)];
        assert tests == [Cmp(Eq, COMPANY, 1), Cmp(Eq, OWNER, 2)];
    }
  }

  method AddAll(vs: seq<Json>, params: ParamList) returns (phs: seq<nat>)
    modifies params
    ensures params.values == old(params.values) + ToParams(vs)
    ensures phs == Range(|old(params.values)| + 1, |vs|)
  {
    phs := [];
    for i := 0 to |vs|
      invariant params.values == old(params.values) + ToParams(vs[..i])
      invariant phs == Range(|old(params.values)| + 1, i)
    {
      var ph := params.Add(ToParam(vs[i]));
      assert ToParams(vs[..i + 1]) == ToParams(vs[..i]) + [ToParam(vs[i])];
      phs := phs + [ph];
    }
    assert vs[..|vs|] == vs;
  }

  method CheckOperands(vs: seq<Json>, ty: ColType, lenient: bool) returns (ok: bool)
    ensures ok <==> forall i :: 0 <= i < |vs| ==> Operand(vs[i], ty)
  {
    for i := 0 to |vs|
      invariant forall k :: 0 <= k < i ==> Operand(vs[k], ty)
    {
      ok := CheckOperand(vs[i], ty, lenient);
      if !ok { return; }
    }
    ok := true;
  }

  /** One turn of the filter loop: the conjunct, or None where the original throws. */
  method BuildFilter(ds: Dataset, f: Filter, params: ParamList, lenient: bool) returns (test: Option<Test>)
    modifies params
    ensures test.Some? <==> AcceptsFilter(ds, f)
    ensures test.Some? ==>
      var c := FilterClause(ds, f, |old(params.values)|);
      test.value == c.test && params.values == old(params.values) + c.args
  {
    test := None;
    if f.field !in ds.fields || OpFilter !in ds.fields[f.field].operations { return; }
    var col, op, value := ds.fields[f.field].column, f.operator, f.value;
    if op.OtherOperator? { return; }
    if op.DoesContain? && !col.ty.StringType? { return; }
    if (op.IsBetween? || (op.Comparing? && !IsEquality(op))) && col.ty.StringType? { return; }
    if op.IsIn? {
      if !value.JArr? || |value.items| < 1 || |value.items| > 20 { return; }
      var ok := CheckOperands(value.items, col.ty, lenient);
      if !ok { return; }
      var phs := AddAll(value.items, params);
      test := Some(In(col, phs));
    } else if op.IsBetween? {
      if !value.JArr? || |value.items| != 2 { return; }
      var ok := CheckOperands(value.items, col.ty, lenient);
      if !ok || Greater(value.items[0], value.items[1]) { return; }
      var lo := params.Add(ToParam(value.items[0]));
      var hi := params.Add(ToParam(value.items[1]));
      test := Some(Between(col, lo, hi));
    } else if op.DoesContain? {
      if !value.JStr? || Strings.AllBlank(value.s) || |value.s| > 100 { return; }
      var ph := params.Add(TextParam(Like.ContainsPattern(value.s)));
      test := Some(ILike(col, ph));
    } else {
      PassesValidValueIff(value, col.ty, lenient);
      if !PassesValidValue(value, col.ty, lenient) || (value.JNull? && !IsEquality(op)) { return; }
      if value.JNull? {
        test := Some(if op.cmp.Ne? then IsNotNull(col) else IsNull(col));
      } else {
        var ph := params.Add(ToParam(value));
        test := Some(Cmp(op.cmp, col, ph));
      }
    }
  }

  /** The filter loop: None where the original throws. */
  method BuildFilters(ds: Dataset, fs: seq<Filter>, params: ParamList, lenient: bool)
    returns (tests: Option<seq<Test>>, dateRange: Option<Filter>)
    modifies params
    ensures tests.Some? <==> AcceptsFilters(ds, fs)
    ensures tests.Some? ==>
      var c := FilterClauses(ds, fs, |old(params.values)|);
      && tests.value == c.tests && params.values == old(params.values) + c.args
      && dateRange == DateRange(ds, fs)
  {
    var n := |params.values|;
    var where: seq<Test> := [];
    dateRange := None;
    for i := 0 to |fs|
      invariant AcceptsFilters(ds, fs[..i])
      invariant where == FilterClauses(ds, fs[..i], n).tests
      invariant params.values == old(params.values) + FilterClauses(ds, fs[..i], n).args
      invariant dateRange == DateRange(ds, fs[..i])
    {
      ghost var pushed := params.values;
      var test := BuildFilter(ds, fs[i], params, lenient);
      if test.None? { return None, None; }
      assert fs[..i + 1] == fs[..i] + [fs[i]];
      assert AcceptsFilters(ds, fs[..i] + [fs[i]]);
      ghost var init, last := QueryCompilerCorrect.FilterClausesOfLast(ds, fs[..i], fs[i], n);
      where := where + [test.value];
      assert params.values == old(params.values) + (init.args + last.args);
      if IsDateRange(ds, fs[i]) { dateRange := Some(fs[i]); }
    }
    assert fs[..|fs|] == fs;
    tests := Some(where);
  }

  method CheckNames(ds: Dataset, names: seq<string>, op: Operation) returns (ok: bool)
    ensures ok <==> forall i :: 0 <= i < |names| ==> Allows(ds, names[i], op)
  {
    for i := 0 to |names|
      invariant forall k :: 0 <= k < i ==> Allows(ds, names[k], op)
    {
      if names[i] !in ds.fields || op !in ds.fields[names[i]].operations { return false; }
    }
    ok := true;
  }

  /** `new Set(names).size === names.length` */
  method CheckDistinct(names: seq<string>) returns (ok: bool)
    ensures ok <==> Distinct(names)
  {
    var seen: set<string> := {};
    for i := 0 to |names|
      invariant seen == set k | 0 <= k < i :: names[k]
      invariant forall j, k :: 0 <= j < k < i ==> names[j] != names[k]
    {
      if names[i] in seen { return false; }
      seen := seen + {names[i]};
    }
    ok := true;
  }

  /** The aggregation loop, which also collects the aliases. */
  method BuildAggregations(ds: Dataset, groupBy: seq<string>, as_: seq<Aggregation>)
    returns (ps: Option<seq<Projection>>)
    ensures ps.Some? <==> AcceptsAggregations(ds, groupBy, as_)
    ensures ps.Some? ==> ps.value == AggregateProjections(ds, groupBy, as_)
  {
    var aliases: set<string> := {};
    var projections: seq<Projection> := [];
    for i := 0 to |as_|
      invariant forall k :: 0 <= k < i ==> AcceptsAggregation(ds, groupBy, as_[..k], as_[k])
      invariant aliases == set k | 0 <= k < i :: as_[k].alias
      invariant |projections| == i && forall k :: 0 <= k < i ==> projections[k] == AggregateProjection(ds, as_[k])
    {
      var a := as_[i];
      assert forall k :: 0 <= k < i ==> as_[..i][k] == as_[k];
      if a.fn.None? || !AliasPattern(a.alias) || a.alias in aliases || a.alias in groupBy {
        assert !AcceptsAggregation(ds, groupBy, as_[..i], a);
        return None;
      }
      if a.fn == Some(Count) && a.field.None? {
        projections := projections + [Projection(Label(a.alias, Agg(Count, true)), None)];
      } else {
        if a.field.None? || a.field.value !in ds.fields { return None; }
        if OpAggregate !in ds.fields[a.field.value].operations { return None; }
        var col := ds.fields[a.field.value].column;
        if a.fn != Some(Count) && !col.ty.NumberType? { return None; }
        projections := projections + [Projection(Label(a.alias, Agg(a.fn.value, false)), Some(col))];
      }
      aliases := aliases + {a.alias};
    }
    ps := Some(projections);
  }

  /** The sort loop. */
  method BuildOrder(ds: Dataset, aggregate: bool, groupBy: seq<string>, as_: seq<Aggregation>, sort: seq<SortItem>)
    returns (os: Option<seq<OrderKey>>)
    ensures os.Some? <==> forall i :: 0 <= i < |sort| ==> AcceptsSort(ds, aggregate, groupBy, as_, sort[i])
    ensures os.Some? ==>
              && (forall i :: 0 <= i < |sort| ==> aggregate || sort[i].field in ds.fields)
              && os.value == Order(ds, aggregate, sort)
  {
    var order: seq<OrderKey> := [];
    for i := 0 to |sort|
      invariant forall k :: 0 <= k < i ==> AcceptsSort(ds, aggregate, groupBy, as_, sort[k])
      invariant |order| == i && forall k :: 0 <= k < i ==> order[k] == OrderItem(ds, aggregate, sort[k])
    {
      if !AcceptsSort(ds, aggregate, groupBy, as_, sort[i]) { return None; }
      order := order + [OrderItem(ds, aggregate, sort[i])];
    }
    os := Some(order);
  }

  /** The checks before the filter loop. */
  method CheckShape(ds: Dataset, q: Query) returns (ok: bool)
    ensures ok <==> ShapeFits(ds, q)
  {
    var select, groupBy, aggregate := OrEmpty(q.select), OrEmpty(q.groupBy), OrEmpty(q.aggregations) != [];
    if !Bounded(q.select, 12) || !Bounded(q.filters, 8) || !Bounded(q.sort, 3) { return false; }
    if !Bounded(q.aggregations, 5) || !Bounded(q.groupBy, 2) { return false; }
    if q.aggregations.Some? && !aggregate { return false; }
    if (aggregate && |select| > 0) || (!aggregate && |groupBy| > 0) { return false; }
    ok := CheckNames(ds, select, OpSelect);
    if !ok { return; }
    ok := CheckNames(ds, groupBy, OpGroup);
    if !ok { return; }
    ok := CheckDistinct(select);
    if !ok { return; }
    ok := CheckDistinct(groupBy);
  }

  /** Projections and ORDER BY of an accepted query, or None where the original throws. */
  method BuildOutput(ds: Dataset, q: Query) returns (output: Option<(seq<Projection>, seq<OrderKey>)>)
    requires IsDataset(ds) && ShapeFits(ds, q)
    ensures output.Some? <==> OutputFits(ds, q)
    ensures output.Some? ==>
              Registered(ds, OrEmpty(q.groupBy)) && Registered(ds, Names(q, ds)) && output.value == Output(ds, q)
  {
    RegistryIsSound(ds);
    var groupBy, as_ := OrEmpty(q.groupBy), OrEmpty(q.aggregations);
    var aggregate := |as_| > 0;
    var sums := BuildAggregations(ds, groupBy, as_);
    if sums.None? { return None; }
    var projections :=
      if aggregate then PlainProjections(ds, groupBy) + sums.value else PlainProjections(ds, Names(q, ds));
    var order := BuildOrder(ds, aggregate, groupBy, as_, OrEmpty(q.sort));
    if order.None? { return None; }
    var limit, offset := WholeNumber(q.limit, 20), WholeNumber(q.offset, 0);
    if limit.None? || limit.value < 1 || limit.value > 100 { return None; }
    if offset.None? || offset.value < 0 || offset.value > 10000 { return None; }
    var effectiveOrder :=
      if |order.value| > 0 then order.value
      else if aggregate then OutputOrder(groupBy) else [ByColumn(ds.fields["id"].column, false)];
    output := Some((projections, effectiveOrder));
  }

  /** A dataset with a date field needs a range of at most 366 days. */
  method CheckDateRange(ds: Dataset, fs: seq<Filter>, dateRange: Option<Filter>) returns (ok: bool)
    requires AcceptsFilters(ds, fs) && dateRange == DateRange(ds, fs)
    ensures ok <==> AcceptsDateRange(ds, fs)
  {
    if ds.dateField.None? { return true; }
    if dateRange.None? { return false; }
    ghost var i := QueryCompilerSafety.DateRangeIsAFilter(ds, fs);
    assert AcceptsFilter(ds, fs[i]);
    var bounds := dateRange.value.value.items;
    return ParsedDay(bounds[1]) - ParsedDay(bounds[0]) < 366;
  }

  /** Everything between the scope and the final permission test: the statement, or None where a
      check throws. */
  method BuildStatement(ds: Dataset, q: Query, ghost scope: ActorScope, where: seq<Test>, params: ParamList,
          lenient: bool)
    returns (sql: Option<Select>)
    requires IsDataset(ds) && where == scope.tests && params.values == scope.args
    modifies params
    ensures sql.Some? <==> WellFormed(ds, q)
    ensures sql.Some? ==> (sql.value, params.values) == Statement(ds, q, scope)
  {
    var ok := CheckShape(ds, q);
    if !ok { return None; }
    var tests, dateRange := BuildFilters(ds, OrEmpty(q.filters), params, lenient);
    if tests.None? { return None; }
    ok := CheckDateRange(ds, OrEmpty(q.filters), dateRange);
    if !ok { return None; }
    var output := BuildOutput(ds, q);
    if output.None? { return None; }
    ghost var args := params.values;
    var limit := NumParam(WholeNumber(q.limit, 20).value as real);
    var offset := NumParam(WholeNumber(q.offset, 0).value as real);
    var limitPh := params.Add(limit);
    var offsetPh := params.Add(offset);
    assert params.values == args + [limit, offset];
    sql := Some(Select(output.value.0, ds.from, where + tests.value, FieldColumns(ds, OrEmpty(q.groupBy)),
                       output.value.1, limitPh, offsetPh));
  }

  /** `buildDynamicQuery`: the specification and the code agree on every query, actor and engine,
      on the error as well as on the plan. */
  method BuildDynamicQuery(q: Query, context: Context, lenient: bool) returns (r: Result<Plan, HrmError>)
    ensures r == Compile(q, context)
  {
    var found := Datasets(q.dataset);
    if found.None? { return Err(ValidationFailed); }
    var ds := found.value;
    var params := new ParamList();
    var where, selfOnly, error := BuildScope(ds, context, params, q);
    if error.Some? { return Err(error.value); }
    var sql := BuildStatement(ds, q, ScopeFor(ds, context, q).value, where, params, lenient);
    if sql.None? { return Err(ValidationFailed); }
    var aggregate := OrEmpty(q.aggregations) != [];
    if aggregate && !selfOnly { return Err(Forbidden); }
    return Ok(Plan(sql.value, params.values, q.dataset, aggregate, WholeNumber(q.limit, 20).value,
                   WholeNumber(q.offset, 0).value,
                   AliasNames(OrEmpty(q.aggregations)), if aggregate then OrEmpty(q.groupBy) else Names(q, ds)));
  }
}
