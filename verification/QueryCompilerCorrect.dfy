/** The compiler preserves meaning: evaluating the emitted statement with its parameters gives
    the page that the structured query asks for. */
module QueryCompilerCorrect {
  import opened Wrappers
  import opened Sql
  import opened DynamicQuery
  import opened QueryMeaning
  import Like

  // ------------------------------------------------------------------- FROM and joins

  lemma {:induction false} NoSecondMatch(b: Row, o: Row, os: seq<Row>, key: string)
    requires Refers(b, o, key)
    requires forall i :: 0 <= i < |os| ==>
               Cell(os[i], "company_id") != Cell(o, "company_id") || Cell(os[i], "id") != Cell(o, "id")
    ensures Matching(b, os, key) == []
  {
    if os != [] { NoSecondMatch(b, o, os[1..], key); }
  }

  /** A join on a unique key is a lookup. */
  lemma {:induction false} MatchingIsLookup(b: Row, os: seq<Row>, key: string)
    requires UniqueIds(os)
    ensures Matching(b, os, key) == if Related(b, os, key).Some? then [Joined(b, Related(b, os, key))] else []
  {
    if os != [] {
      if Refers(b, os[0], key) {
        forall i | 0 <= i < |os[1..]|
          ensures || Cell(os[1..][i], "company_id") != Cell(os[0], "company_id")
                  || Cell(os[1..][i], "id") != Cell(os[0], "id")
        { assert os[1..][i] == os[i + 1]; }
        NoSecondMatch(b, os[0], os[1..], key);
      } else {
        MatchingIsLookup(b, os[1..], key);
      }
    }
  }

  lemma {:induction false} JoinRowsAreRecords(bs: seq<Row>, f: From, os: seq<Row>)
    requires f.Join? && UniqueIds(os)
    ensures JoinRows(bs, f, os) == Records(bs, f, os)
  {
    if bs != [] {
      MatchingIsLookup(bs[0], os, f.key);
      JoinRowsAreRecords(bs[1..], f, os);
    }
  }

  lemma {:induction false} ScanRowsAreRecords(bs: seq<Row>, f: From)
    requires f.Scan?
    ensures seq(|bs|, i requires 0 <= i < |bs| => Joined(bs[i], None)) == Records(bs, f, [])
  {
    if bs != [] {
      ScanRowsAreRecords(bs[1..], f);
      assert seq(|bs|, i requires 0 <= i < |bs| => Joined(bs[i], None))
          == [Joined(bs[0], None)] + seq(|bs[1..]|, i requires 0 <= i < |bs[1..]| => Joined(bs[1..][i], None));
    }
  }

  /** The tables a statement joins to have unique ids, and folding is harmless to patterns. */
  ghost predicate Sound(db: Database) {
    && UniqueIds(TableRows(db, "departments")) && UniqueIds(TableRows(db, "employees"))
    && Like.SafeFold(db.lower)
  }

  lemma {:induction false} FromIsRecords(ds: Dataset, db: Database)
    requires IsDataset(ds) && Sound(db)
    ensures FromRows(ds.from, db) == AllRecords(ds.from, db)
  {
    if ds.from.Scan? {
      ScanRowsAreRecords(TableRows(db, ds.from.base), ds.from);
    } else {
      JoinRowsAreRecords(TableRows(db, ds.from.base), ds.from, TableRows(db, ds.from.other));
    }
  }

  // --------------------------------------------------------------------------- WHERE

  lemma {:induction false} BindIsDenote(v: Json, ty: ColType)
    requires Operand(v, ty)
    ensures Bind(ToParam(v), ty) == Denote(v, ty) && !Denote(v, ty).Null?
  {
  }

  /** From position n on, the parameters are these. */
  ghost predicate Carries(params: seq<Param>, n: nat, args: seq<Param>) {
    n + |args| <= |params| && forall i :: 0 <= i < |args| ==> params[n + i] == args[i]
  }

  lemma {:induction false} AnyEqualMeansMember(v: Value, phs: seq<nat>, ty: ColType, params: seq<Param>)
    ensures AnyEqual(v, phs, ty, params).True? <==>
            !v.Null? && exists i :: 0 <= i < |phs| && v == Arg(params, phs[i], ty)
  {
    if phs != [] {
      var rest := phs[1..];
      AnyEqualMeansMember(v, rest, ty, params);
      if i :| 0 <= i < |phs| && v == Arg(params, phs[i], ty) {
        if i > 0 { assert rest[i - 1] == phs[i]; }
      }
    }
  }

  lemma {:induction false} InMeansFilter(ds: Dataset, f: Filter, n: nat, j: Joined, params: seq<Param>,
          lower: char -> char)
    requires AcceptsFilter(ds, f) && f.operator.IsIn?
    requires Carries(params, n, FilterClause(ds, f, n).args)
    ensures EvalTest(FilterClause(ds, f, n).test, j, params, lower).True? <==> Holds(ds, f, j, lower)
  {
    var c, col, vs := FilterClause(ds, f, n), ds.fields[f.field].column, f.value.items;
    var v, phs := Eval(j, col), Range(n + 1, |vs|);
    AnyEqualMeansMember(v, phs, col.ty, params);
    forall i | 0 <= i < |vs| ensures Arg(params, phs[i], col.ty) == Denote(vs[i], col.ty) {
      assert params[n + i] == c.args[i];
      BindIsDenote(vs[i], col.ty);
    }
  }

  lemma {:induction false} BetweenMeansFilter(ds: Dataset, f: Filter, n: nat, j: Joined, params: seq<Param>,
          lower: char -> char)
    requires AcceptsFilter(ds, f) && f.operator.IsBetween?
    requires Carries(params, n, FilterClause(ds, f, n).args)
    ensures EvalTest(FilterClause(ds, f, n).test, j, params, lower).True? <==> Holds(ds, f, j, lower)
  {
    var c, col := FilterClause(ds, f, n), ds.fields[f.field].column;
    BindIsDenote(f.value.items[0], col.ty);
    BindIsDenote(f.value.items[1], col.ty);
    assert params[n + 0] == c.args[0] && params[n + 1] == c.args[1];
  }

  lemma {:induction false} ContainsMeansFilter(ds: Dataset, f: Filter, n: nat, j: Joined, params: seq<Param>,
          lower: char -> char)
    requires AcceptsFilter(ds, f) && f.operator.DoesContain? && Like.SafeFold(lower)
    requires Carries(params, n, FilterClause(ds, f, n).args)
    ensures EvalTest(FilterClause(ds, f, n).test, j, params, lower).True? <==> Holds(ds, f, j, lower)
  {
    var c, v := FilterClause(ds, f, n), Eval(j, ds.fields[f.field].column);
    assert params[n + 0] == c.args[0];
    if v.Text? { Like.ContainsIsCaseInsensitiveSubstring(lower, f.value.s, v.s); }
  }

  lemma {:induction false} ComparisonMeansFilter(ds: Dataset, f: Filter, n: nat, j: Joined, params: seq<Param>,
          lower: char -> char)
    requires AcceptsFilter(ds, f) && f.operator.Comparing?
    requires Carries(params, n, FilterClause(ds, f, n).args)
    ensures EvalTest(FilterClause(ds, f, n).test, j, params, lower).True? <==> Holds(ds, f, j, lower)
  {
    var c, col := FilterClause(ds, f, n), ds.fields[f.field].column;
    if f.value.JNull? {
      assert Denote(f.value, col.ty) == Null;
    } else {
      BindIsDenote(f.value, col.ty);
      assert params[n + 0] == c.args[0];
      assert Arg(params, n + 1, col.ty) == Denote(f.value, col.ty);
    }
  }

  /** One compiled conjunct is TRUE exactly of the records its filter holds of. */
  lemma {:induction false} ClauseMeansFilter(ds: Dataset, f: Filter, n: nat, j: Joined, params: seq<Param>,
          lower: char -> char)
    requires AcceptsFilter(ds, f) && Like.SafeFold(lower)
    requires Carries(params, n, FilterClause(ds, f, n).args)
    ensures EvalTest(FilterClause(ds, f, n).test, j, params, lower).True? <==> Holds(ds, f, j, lower)
  {
    if f.operator.IsIn? { InMeansFilter(ds, f, n, j, params, lower); }
    else if f.operator.IsBetween? { BetweenMeansFilter(ds, f, n, j, params, lower); }
    else if f.operator.DoesContain? { ContainsMeansFilter(ds, f, n, j, params, lower); }
    else { ComparisonMeansFilter(ds, f, n, j, params, lower); }
  }

  lemma {:induction false} CarriesParts(params: seq<Param>, n: nat, a: seq<Param>, b: seq<Param>)
    requires Carries(params, n, a + b)
    ensures Carries(params, n, a) && Carries(params, n + |a|, b)
  {
    forall i | 0 <= i < |a| ensures params[n + i] == a[i] { assert (a + b)[i] == a[i]; }
    forall i | 0 <= i < |b| ensures params[n + |a| + i] == b[i] {
      assert params[n + (|a| + i)] == (a + b)[|a| + i];
    }
  }

  ghost predicate AllTrue(ts: seq<Test>, j: Joined, params: seq<Param>, lower: char -> char) {
    forall i :: 0 <= i < |ts| ==> EvalTest(ts[i], j, params, lower).True?
  }

  ghost predicate AllHold(ds: Dataset, fs: seq<Filter>, j: Joined, lower: char -> char) {
    forall i :: 0 <= i < |fs| ==> Holds(ds, fs[i], j, lower)
  }

  lemma {:induction false} AllTrueAppend(ts: seq<Test>, us: seq<Test>, j: Joined, params: seq<Param>,
          lower: char -> char)
    ensures AllTrue(ts + us, j, params, lower) <==> AllTrue(ts, j, params, lower) && AllTrue(us, j, params, lower)
  {
    assert forall i :: 0 <= i < |ts| ==> (ts + us)[i] == ts[i];
    if AllTrue(ts + us, j, params, lower) {
      forall i | 0 <= i < |us| ensures EvalTest(us[i], j, params, lower).True? { assert (ts + us)[|ts| + i] == us[i]; }
    }
  }

  lemma {:induction false} AllTrueOne(t: Test, j: Joined, params: seq<Param>, lower: char -> char)
    ensures AllTrue([t], j, params, lower) <==> EvalTest(t, j, params, lower).True?
  {
    assert [t][0] == t;
  }

  lemma {:induction false} AllHoldAppend(ds: Dataset, fs: seq<Filter>, f: Filter, j: Joined, lower: char -> char)
    ensures AllHold(ds, fs + [f], j, lower) <==> AllHold(ds, fs, j, lower) && Holds(ds, f, j, lower)
  {
    assert forall i :: 0 <= i < |fs| ==> (fs + [f])[i] == fs[i];
    assert (fs + [f])[|fs|] == f;
  }

  lemma {:induction false} FilterClausesOfLast(ds: Dataset, fs: seq<Filter>, f: Filter, n: nat)
    returns (init: Clauses, last: Clause)
    requires AcceptsFilters(ds, fs + [f])
    ensures AcceptsFilters(ds, fs) && AcceptsFilter(ds, f)
    ensures init == FilterClauses(ds, fs, n) && last == FilterClause(ds, f, n + |init.args|)
    ensures FilterClauses(ds, fs + [f], n) == Clauses(init.tests + [last.test], init.args + last.args)
  {
    assert (fs + [f])[..|fs|] == fs && (fs + [f])[|fs|] == f;
    forall i | 0 <= i < |fs| ensures AcceptsFilter(ds, fs[i]) { assert (fs + [f])[i] == fs[i]; }
    init := FilterClauses(ds, fs, n);
    last := FilterClause(ds, f, n + |init.args|);
  }

  lemma {:induction false} ClausesMeanFilters(ds: Dataset, fs: seq<Filter>, n: nat, j: Joined, params: seq<Param>,
          lower: char -> char)
    requires AcceptsFilters(ds, fs) && Like.SafeFold(lower)
    requires Carries(params, n, FilterClauses(ds, fs, n).args)
    ensures AllTrue(FilterClauses(ds, fs, n).tests, j, params, lower) <==> AllHold(ds, fs, j, lower)
    decreases |fs|
  {
    if fs != [] {
      var k := |fs| - 1;
      var fs', f := fs[..k], fs[k];
      assert fs == fs' + [f];
      var init, last := FilterClausesOfLast(ds, fs', f, n);
      CarriesParts(params, n, init.args, last.args);
      ClausesMeanFilters(ds, fs', n, j, params, lower);
      ClauseMeansFilter(ds, f, n + |init.args|, j, params, lower);
      AllTrueAppend(init.tests, [last.test], j, params, lower);
      AllTrueOne(last.test, j, params, lower);
      AllHoldAppend(ds, fs', f, j, lower);
    }
  }

  lemma {:induction false} ScopeMeansVisible(ds: Dataset, context: Context, q: Query, j: Joined, params: seq<Param>,
          lower: char -> char)
    requires IsDataset(ds) && ScopeFor(ds, context, q).Ok?
    requires Carries(params, 0, ScopeFor(ds, context, q).value.args)
    ensures AllTrue(ScopeFor(ds, context, q).value.tests, j, params, lower)
            <==> Visible(AudienceOf(ds, context, q), context, j)
  {
    var s, a := ScopeFor(ds, context, q).value, AudienceOf(ds, context, q);
    assert params[0 + 0] == s.args[0];
    assert EvalTest(s.tests[0], j, params, lower).True? <==> Cell(j.base, "company_id") == Text(context.companyId);
    if a.Company? {
      assert |s.tests| == 1;
    } else {
      assert params[0 + 1] == s.args[1];
      assert s.tests == [s.tests[0], s.tests[1]];
      assert EvalTest(s.tests[1], j, params, lower).True? <==>
        if a.Own? then Cell(j.base, "employee_id") == Text(context.employeeId)
        else j.other.Some? && Cell(j.other.value, "department_id") == Text(context.departmentId);
    }
  }

  lemma {:induction false} WhereIsPick(
    ds: Dataset, context: Context, q: Query, tests: seq<Test>, js: seq<Joined>, params: seq<Param>, lower: char -> char)
    requires forall j :: Conjunction(tests, j, params, lower).True? <==> Wanted(ds, context, q, j, lower)
    ensures Where(tests, js, params, lower) == Pick(ds, context, q, js, lower)
  {
    if js != [] { WhereIsPick(ds, context, q, tests, js[1..], params, lower); }
  }

  /** The conjunction of the scope's tests and the filters' tests says what the query wants. */
  lemma {:induction false} TestsMeanWanted(ds: Dataset, context: Context, q: Query, params: seq<Param>, j: Joined,
          lower: char -> char)
    requires IsDataset(ds) && ScopeFor(ds, context, q).Ok? && AcceptsFilters(ds, OrEmpty(q.filters))
    requires Like.SafeFold(lower)
    requires var s := ScopeFor(ds, context, q).value;
             Carries(params, 0, s.args + FilterClauses(ds, OrEmpty(q.filters), |s.args|).args)
    ensures var s := ScopeFor(ds, context, q).value;
            Conjunction(s.tests + FilterClauses(ds, OrEmpty(q.filters), |s.args|).tests, j, params, lower).True? <==>
            Wanted(ds, context, q, j, lower)
  {
    var s, filters := ScopeFor(ds, context, q).value, OrEmpty(q.filters);
    var fs := FilterClauses(ds, filters, |s.args|);
    CarriesParts(params, 0, s.args, fs.args);
    ConjunctionTrueIff(s.tests + fs.tests, j, params, lower);
    ScopeMeansVisible(ds, context, q, j, params, lower);
    ClausesMeanFilters(ds, filters, |s.args|, j, params, lower);
    AllTrueAppend(s.tests, fs.tests, j, params, lower);
    assert AllHold(ds, filters, j, lower) <==> forall i :: 0 <= i < |filters| ==> Holds(ds, filters[i], j, lower);
  }

  /** The statement keeps exactly the records the query is about. */
  lemma {:induction false} StatementChooses(q: Query, context: Context, db: Database)
    requires Compile(q, context).Ok? && Sound(db)
    ensures var p := Compile(q, context).value;
            Where(p.sql.tests, FromRows(p.sql.from, db), p.params, db.lower)
            == Chosen(Datasets(q.dataset).value, context, q, db)
  {
    var ds := Datasets(q.dataset).value;
    var p, s := Compile(q, context).value, ScopeFor(ds, context, q).value;
    var fs := FilterClauses(ds, OrEmpty(q.filters), |s.args|);
    CarriesParts(p.params, 0, s.args + fs.args, p.params[|s.args| + |fs.args|..]);
    forall j ensures Conjunction(p.sql.tests, j, p.params, db.lower).True? <==> Wanted(ds, context, q, j, db.lower) {
      TestsMeanWanted(ds, context, q, p.params, j, db.lower);
    }
    FromIsRecords(ds, db);
    WhereIsPick(ds, context, q, p.sql.tests, FromRows(ds.from, db), p.params, db.lower);
  }

  // ------------------------------------------------------------------ output of lists

  /** A map over distinct names holds, under names[i], its i-th value. */
  lemma {:induction false} LookupHasCells<V>(row: map<string, V>, names: seq<string>, vals: seq<V>)
    requires |names| == |vals| && Distinct(names)
    requires row.Keys == set n | n in names
    requires forall n :: n in names ==> n in row && row[n] == vals[IndexOf(names, n)]
    ensures HasCells(row, names, vals)
  {
    forall i | 0 <= i < |names| ensures names[i] in row && row[names[i]] == vals[i] {
      assert IndexOf(names, names[i]) == i;
    }
  }

  lemma {:induction false} ListRowsAgree(ds: Dataset, names: seq<string>, j: Joined)
    requires Registered(ds, names) && Distinct(names)
    ensures var ps := PlainProjections(ds, names);
            PlainRow(Labels(ps), ProjectedCells(j, ps)) == ListRow(ds, names, j)
  {
    var ps := PlainProjections(ds, names);
    assert Aliases(Labels(ps)) == names;
    assert ProjectedCells(j, ps) == FieldValues(ds, names, j);
    RowOfHasCells(names, FieldValues(ds, names, j));
    assert ListRow(ds, names, j).Keys == set n | n in names;
    LookupHasCells(ListRow(ds, names, j), names, FieldValues(ds, names, j));
    CellsDetermineRow(RowOf(names, FieldValues(ds, names, j)), ListRow(ds, names, j), names, FieldValues(ds, names, j));
  }

  /** The compiled statement has the output of the query. */
  lemma {:induction false} CompiledOutput(q: Query, context: Context)
    requires Compile(q, context).Ok?
    ensures var ds, sql := Datasets(q.dataset).value, Compile(q, context).value.sql;
            && IsDataset(ds) && WellFormed(ds, q) && Registered(ds, OrEmpty(q.groupBy))
            && (sql.projections, sql.orderBy) == Output(ds, q) && sql.groupBy == FieldColumns(ds, OrEmpty(q.groupBy))
  {
    RegistryIsSound(Datasets(q.dataset).value);
  }

  lemma {:induction false} ListOrderAgrees(ds: Dataset, q: Query, j: Joined)
    requires IsDataset(ds) && WellFormed(ds, q) && OrEmpty(q.aggregations) == []
    ensures OrderCells(j, Output(ds, q).1) == FieldValues(ds, SortFields(q), j)
  {
    RegistryIsSound(ds);
  }

  lemma {:induction false} DirectionsAgree(q: Query, context: Context)
    requires Compile(q, context).Ok?
    ensures Directions(Compile(q, context).value.sql.orderBy) == SortDirections(q)
  {
  }

  lemma {:induction false} PageNumbersAgree(q: Query, context: Context)
    requires Compile(q, context).Ok?
    ensures var p := Compile(q, context).value;
            PageNumber(p.params, p.sql.limit) == WholeNumber(q.limit, 20).value
            && PageNumber(p.params, p.sql.offset) == WholeNumber(q.offset, 0).value
  {
    var p := Compile(q, context).value;
    assert p.params[p.sql.limit - 1] == NumParam(WholeNumber(q.limit, 20).value as real);
    assert p.params[p.sql.offset - 1] == NumParam(WholeNumber(q.offset, 0).value as real);
  }

  // -------------------------------------------------------------- output of aggregates

  function Rekey<T, U>(rows: seq<Keyed<T>>, f: T -> U): (r: seq<Keyed<U>>)
    ensures |r| == |rows| && forall i :: 0 <= i < |rows| ==> r[i] == Keyed(rows[i].key, f(rows[i].item))
  {
    seq(|rows|, i requires 0 <= i < |rows| => Keyed(rows[i].key, f(rows[i].item)))
  }

  lemma {:induction false} RekeyKeys<T, U>(rows: seq<Keyed<T>>, f: T -> U)
    ensures Keys(Rekey(rows, f)) == Keys(rows)
  {
    if rows != [] {
      var n := |rows| - 1;
      RekeyKeys(rows[..n], f);
      assert Rekey(rows, f)[..n] == Rekey(rows[..n], f);
    }
  }

  lemma {:induction false} RekeyItems<T, U>(rows: seq<Keyed<T>>, f: T -> U, k: seq<Value>)
    ensures |ItemsAt(Rekey(rows, f), k)| == |ItemsAt(rows, k)|
    ensures forall i :: 0 <= i < |ItemsAt(rows, k)| ==> ItemsAt(Rekey(rows, f), k)[i] == f(ItemsAt(rows, k)[i])
  {
    if rows != [] {
      RekeyItems(rows[1..], f, k);
      assert Rekey(rows, f)[1..] == Rekey(rows[1..], f);
    }
  }

  lemma {:induction false} MembersShareKey<T>(rows: seq<Keyed<T>>, k: seq<Value>)
    requires k in Keys(rows)
    ensures ItemsAt(rows, k) != []
  {
    var n := |rows| - 1;
    ItemsAtAppend(rows[..n], rows[n], k);
    assert rows == rows[..n] + [rows[n]];
    if rows[n].key != k { MembersShareKey(rows[..n], k); }
  }

  lemma {:induction false} MembersComeFromRows(ds: Dataset, groupBy: seq<string>, js: seq<Joined>,
          rows: seq<Keyed<Joined>>, k: seq<Value>)
    requires forall i :: 0 <= i < |rows| ==> rows[i].key == FieldValues(ds, groupBy, rows[i].item)
    ensures forall m :: 0 <= m < |ItemsAt(rows, k)| ==> FieldValues(ds, groupBy, ItemsAt(rows, k)[m]) == k
  {
    if rows != [] { MembersComeFromRows(ds, groupBy, js, rows[1..], k); }
  }

  ghost predicate SameGroups(gs: seq<Keyed<seq<seq<Value>>>>, hs: seq<Keyed<seq<Joined>>>, ps: seq<Projection>) {
    && |gs| == |hs|
    && forall g :: 0 <= g < |gs| ==>
         && |gs[g].item| == |hs[g].item|
         && forall m :: 0 <= m < |gs[g].item| ==> gs[g].item[m] == ProjectedCells(hs[g].item[m], ps)
  }

  /** The records the interpreter groups; the statement groups their cells. */
  function RecordRows(ds: Dataset, groupBy: seq<string>, js: seq<Joined>): (rows: seq<Keyed<Joined>>)
    requires Registered(ds, groupBy)
  {
    seq(|js|, i requires 0 <= i < |js| => Keyed(FieldValues(ds, groupBy, js[i]), js[i]))
  }

  lemma {:induction false} CellRowsAreRekeyed(ds: Dataset, groupBy: seq<string>, js: seq<Joined>, ps: seq<Projection>)
    requires Registered(ds, groupBy)
    ensures CellRows(FieldColumns(ds, groupBy), ps, js) ==
            Rekey(RecordRows(ds, groupBy, js), (j: Joined) => ProjectedCells(j, ps))
  {
    var f := (j: Joined) => ProjectedCells(j, ps);
    forall i | 0 <= i < |js|
      ensures CellRows(FieldColumns(ds, groupBy), ps, js)[i] == Rekey(RecordRows(ds, groupBy, js), f)[i]
    {
      assert ColumnCells(js[i], FieldColumns(ds, groupBy)) == FieldValues(ds, groupBy, js[i]);
    }
  }

  /** The members of one group, and their cells. */
  lemma {:induction false} OneGroupAgrees(ds: Dataset, groupBy: seq<string>, js: seq<Joined>, ps: seq<Projection>,
          k: seq<Value>)
    requires Registered(ds, groupBy) && k in Keys(RecordRows(ds, groupBy, js))
    ensures var members := ItemsAt(RecordRows(ds, groupBy, js), k);
            && ItemsOf(ItemsAt(CellRows(FieldColumns(ds, groupBy), ps, js), k), members, ps) && members != []
            && forall m :: 0 <= m < |members| ==> FieldValues(ds, groupBy, members[m]) == k
  {
    var recs := RecordRows(ds, groupBy, js);
    CellRowsAreRekeyed(ds, groupBy, js, ps);
    RekeyItems(recs, (j: Joined) => ProjectedCells(j, ps), k);
    MembersShareKey(recs, k);
    MembersComeFromRows(ds, groupBy, js, recs, k);
  }

  lemma {:induction false} GroupsAgree(ds: Dataset, groupBy: seq<string>, js: seq<Joined>, ps: seq<Projection>)
    requires Registered(ds, groupBy)
    ensures var rows := CellRows(FieldColumns(ds, groupBy), ps, js);
            SameGroups(if groupBy != [] then Groups(rows) else [Keyed([], Items(rows))], GroupsOf(ds, groupBy, js), ps)
    ensures groupBy != [] ==> forall g :: 0 <= g < |GroupsOf(ds, groupBy, js)| ==>
              GroupsOf(ds, groupBy, js)[g].item != []
              && forall m :: 0 <= m < |GroupsOf(ds, groupBy, js)[g].item| ==>
                   FieldValues(ds, groupBy, GroupsOf(ds, groupBy, js)[g].item[m]) == GroupsOf(ds, groupBy, js)[g].key
  {
    var rows, recs := CellRows(FieldColumns(ds, groupBy), ps, js), RecordRows(ds, groupBy, js);
    CellRowsAreRekeyed(ds, groupBy, js, ps);
    RekeyKeys(recs, (j: Joined) => ProjectedCells(j, ps));
    if groupBy != [] {
      assert GroupsOf(ds, groupBy, js) == Groups(recs);
      forall g | 0 <= g < |Keys(recs)|
        ensures var members := Groups(recs)[g].item;
                ItemsOf(Groups(rows)[g].item, members, ps) && members != [] &&
                forall m :: 0 <= m < |members| ==> FieldValues(ds, groupBy, members[m]) == Groups(recs)[g].key
      {
        OneGroupAgrees(ds, groupBy, js, ps, Keys(recs)[g]);
      }
    }
  }

  /** The items of a compiled group are the projected cells of its members. */
  ghost predicate ItemsOf(items: seq<seq<Value>>, members: seq<Joined>, ps: seq<Projection>) {
    |items| == |members| && forall m :: 0 <= m < |items| ==> items[m] == ProjectedCells(members[m], ps)
  }

  function SummaryProjections(ds: Dataset, groupBy: seq<string>, as_: seq<Aggregation>): (ps: seq<Projection>)
    requires Registered(ds, groupBy) && AcceptsAggregations(ds, groupBy, as_)
    ensures |ps| == |groupBy| + |as_|
    ensures forall i :: 0 <= i < |groupBy| ==> ps[i] == PlainProjection(ds, groupBy[i])
    ensures forall i :: 0 <= i < |as_| ==> ps[|groupBy| + i] == AggregateProjection(ds, as_[i])
  {
    PlainProjections(ds, groupBy) + AggregateProjections(ds, groupBy, as_)
  }

  lemma {:induction false} GroupedCellAgrees(ds: Dataset, groupBy: seq<string>, as_: seq<Aggregation>,
          g: Keyed<seq<Joined>>, items: seq<seq<Value>>, i: nat)
    requires Registered(ds, groupBy) && AcceptsAggregations(ds, groupBy, as_) && i < |groupBy|
    requires g.item != [] && FieldValues(ds, groupBy, g.item[0]) == g.key
    requires ItemsOf(items, g.item, SummaryProjections(ds, groupBy, as_))
    ensures GroupCell(Labels(SummaryProjections(ds, groupBy, as_))[i], CellsAt(items, i)) == g.key[i]
  {
    var ps := SummaryProjections(ds, groupBy, as_);
    assert CellsAt(items, i)[0] == ProjectedCells(g.item[0], ps)[i];
    assert FieldValues(ds, groupBy, g.item[0])[i] == FieldValue(ds, groupBy[i], g.item[0]);
  }

  lemma {:induction false} AggregatedCellAgrees(ds: Dataset, groupBy: seq<string>, as_: seq<Aggregation>,
          g: Keyed<seq<Joined>>, items: seq<seq<Value>>, i: nat)
    requires Registered(ds, groupBy) && AcceptsAggregations(ds, groupBy, as_) && i < |as_|
    requires ItemsOf(items, g.item, SummaryProjections(ds, groupBy, as_))
    ensures as_[i].fn.Some?
    ensures GroupCell(Labels(SummaryProjections(ds, groupBy, as_))[|groupBy| + i], CellsAt(items, |groupBy| + i)) ==
            AggregateValue(ds, as_[i], g.item)
  {
    var ps := SummaryProjections(ds, groupBy, as_);
    var a := as_[i];
    assert ps[|groupBy| + i] == AggregateProjection(ds, a);
    assert CellsAt(items, |groupBy| + i) == MemberValues(ds, a, g.item);
  }

  lemma {:induction false} SummaryAliases(ds: Dataset, groupBy: seq<string>, as_: seq<Aggregation>)
    requires Registered(ds, groupBy) && AcceptsAggregations(ds, groupBy, as_)
    ensures Aliases(Labels(SummaryProjections(ds, groupBy, as_))) == groupBy + AliasNames(as_)
  {
    var names := Aliases(Labels(SummaryProjections(ds, groupBy, as_)));
    forall i | 0 <= i < |names| ensures names[i] == (groupBy + AliasNames(as_))[i] {}
  }

  lemma {:induction false} GroupCellsAgree(ds: Dataset, groupBy: seq<string>, as_: seq<Aggregation>,
          g: Keyed<seq<Joined>>, items: seq<seq<Value>>)
    requires Registered(ds, groupBy) && AcceptsAggregations(ds, groupBy, as_)
    requires |g.key| == |groupBy|
    requires groupBy != [] ==> g.item != [] && FieldValues(ds, groupBy, g.item[0]) == g.key
    requires ItemsOf(items, g.item, SummaryProjections(ds, groupBy, as_))
    ensures GroupCells(Labels(SummaryProjections(ds, groupBy, as_)), items) ==
            g.key + AggregateValues(ds, groupBy, as_, g.item)
  {
    var ps := SummaryProjections(ds, groupBy, as_);
    var cells := GroupCells(Labels(ps), items);
    forall i | 0 <= i < |groupBy| ensures cells[i] == g.key[i] { GroupedCellAgrees(ds, groupBy, as_, g, items, i); }
    forall i | 0 <= i < |as_| ensures cells[|groupBy| + i] == AggregateValue(ds, as_[i], g.item) {
      AggregatedCellAgrees(ds, groupBy, as_, g, items, i);
    }
    PartsJoin(cells, g.key, AggregateValues(ds, groupBy, as_, g.item));
  }

  lemma {:induction false} PartsJoin<T>(whole: seq<T>, a: seq<T>, b: seq<T>)
    requires |whole| == |a| + |b|
    requires (forall i :: 0 <= i < |a| ==> whole[i] == a[i]) && (forall i :: 0 <= i < |b| ==> whole[|a| + i] == b[i])
    ensures whole == a + b
  {
    assert forall i :: |a| <= i < |whole| ==> whole[i] == b[i - |a|];
  }

  lemma {:induction false} ConcatenationDistinct<K>(ns: seq<K>, ms: seq<K>)
    requires forall i, j :: 0 <= i < j < |ns| ==> ns[i] != ns[j]
    requires forall i, j :: 0 <= i < j < |ms| ==> ms[i] != ms[j]
    requires forall i, j :: 0 <= i < |ns| && 0 <= j < |ms| ==> ns[i] != ms[j]
    ensures forall i, j :: 0 <= i < j < |ns + ms| ==> (ns + ms)[i] != (ns + ms)[j]
  {
  }

  lemma {:induction false} SharedCellsAre(groupBy: seq<string>, key: seq<Value>)
    requires Distinct(groupBy) && |key| == |groupBy|
    ensures HasCells(SharedCells(groupBy, key), groupBy, key)
  {
    assert SharedCells(groupBy, key).Keys == set n | n in groupBy;
    LookupHasCells(SharedCells(groupBy, key), groupBy, key);
  }

  lemma {:induction false} AggregateCellsAre(ds: Dataset, groupBy: seq<string>, as_: seq<Aggregation>,
          members: seq<Joined>)
    requires AcceptsAggregations(ds, groupBy, as_)
    ensures HasCells(AggregateCells(ds, groupBy, as_, members), AliasNames(as_),
                     AggregateValues(ds, groupBy, as_, members))
  {
    var names := AliasNames(as_);
    AliasesDistinct(ds, groupBy, as_);
    assert AggregateCells(ds, groupBy, as_, members).Keys == set n | n in names;
    LookupHasCells(AggregateCells(ds, groupBy, as_, members), names, AggregateValues(ds, groupBy, as_, members));
  }

  lemma {:induction false} SummaryHasCells(ds: Dataset, groupBy: seq<string>, as_: seq<Aggregation>,
          g: Keyed<seq<Joined>>)
    requires Distinct(groupBy) && AcceptsAggregations(ds, groupBy, as_) && |g.key| == |groupBy|
    ensures HasCells(GroupSummary(ds, groupBy, as_, g), groupBy + AliasNames(as_),
                     g.key + AggregateValues(ds, groupBy, as_, g.item))
    ensures Distinct(groupBy + AliasNames(as_))
  {
    var names := AliasNames(as_);
    SharedCellsAre(groupBy, g.key);
    AggregateCellsAre(ds, groupBy, as_, g.item);
    AliasesDistinct(ds, groupBy, as_);
    assert forall i :: 0 <= i < |as_| ==> names[i] == as_[i].alias;
    CellsConcatenate(SharedCells(groupBy, g.key), AggregateCells(ds, groupBy, as_, g.item),
                     groupBy, g.key, names, AggregateValues(ds, groupBy, as_, g.item));
    ConcatenationDistinct(groupBy, names);
  }

  lemma {:induction false} GroupRowsAgree(ds: Dataset, groupBy: seq<string>, as_: seq<Aggregation>,
          g: Keyed<seq<Joined>>, items: seq<seq<Value>>)
    requires Registered(ds, groupBy) && Distinct(groupBy) && AcceptsAggregations(ds, groupBy, as_)
    requires |g.key| == |groupBy|
    requires groupBy != [] ==> g.item != [] && FieldValues(ds, groupBy, g.item[0]) == g.key
    requires ItemsOf(items, g.item, SummaryProjections(ds, groupBy, as_))
    ensures GroupRow(Labels(SummaryProjections(ds, groupBy, as_)), items) == GroupSummary(ds, groupBy, as_, g)
  {
    var names, vals := groupBy + AliasNames(as_), g.key + AggregateValues(ds, groupBy, as_, g.item);
    SummaryAliases(ds, groupBy, as_);
    GroupCellsAgree(ds, groupBy, as_, g, items);
    SummaryHasCells(ds, groupBy, as_, g);
    RowOfHasCells(names, vals);
    CellsDetermineRow(RowOf(names, vals), GroupSummary(ds, groupBy, as_, g), names, vals);
  }

  // --------------------------------------------------------------------- main theorem

  /** When the rows agree, so do the pages. */
  lemma {:induction false} PageFromRows(q: Query, context: Context, db: Database)
    requires Compile(q, context).Ok? && Sound(db)
    requires var ds := Datasets(q.dataset).value; var js := Chosen(ds, context, q, db);
             OutputRows(Compile(q, context).value.sql, js) == MeantRows(ds, q, js)
    ensures var p := Compile(q, context).value; Evaluate(p.sql, p.params, db) == Interpret(q, context, db)
  {
    StatementChooses(q, context, db);
    DirectionsAgree(q, context);
    PageNumbersAgree(q, context);
  }

  lemma {:induction false} ListProjections(ds: Dataset, q: Query)
    requires IsDataset(ds) && WellFormed(ds, q) && OrEmpty(q.aggregations) == []
    ensures Registered(ds, Names(q, ds)) && Distinct(Names(q, ds))
    ensures Output(ds, q).0 == PlainProjections(ds, Names(q, ds)) && !Aggregates(Output(ds, q).0)
  {
    RegistryIsSound(ds);
  }

  lemma {:induction false} PlainRowsAgree(ds: Dataset, q: Query, sql: Select, js: seq<Joined>)
    requires Registered(ds, Names(q, ds)) && Distinct(Names(q, ds))
    requires sql.projections == PlainProjections(ds, Names(q, ds))
    requires forall i :: 0 <= i < |js| ==> OrderCells(js[i], sql.orderBy) == FieldValues(ds, SortFields(q), js[i])
    ensures PlainRows(sql, js) == ListRows(ds, q, js)
  {
    forall i | 0 <= i < |js| ensures PlainRows(sql, js)[i] == ListRows(ds, q, js)[i] {
      ListRowsAgree(ds, Names(q, ds), js[i]);
    }
  }

  lemma {:induction false} ListOutputAgrees(q: Query, context: Context, js: seq<Joined>)
    requires Compile(q, context).Ok? && OrEmpty(q.aggregations) == []
    ensures OutputRows(Compile(q, context).value.sql, js) == ListRows(Datasets(q.dataset).value, q, js)
  {
    var ds := Datasets(q.dataset).value;
    CompiledOutput(q, context);
    ListProjections(ds, q);
    forall i | 0 <= i < |js| ensures OrderCells(js[i], Output(ds, q).1) == FieldValues(ds, SortFields(q), js[i]) {
      ListOrderAgrees(ds, q, js[i]);
    }
    PlainRowsAgree(ds, q, Compile(q, context).value.sql, js);
  }

  lemma {:induction false} ListPagesAgree(q: Query, context: Context, db: Database)
    requires Compile(q, context).Ok? && Sound(db) && OrEmpty(q.aggregations) == []
    ensures var p := Compile(q, context).value; Evaluate(p.sql, p.params, db) == Interpret(q, context, db)
  {
    ListOutputAgrees(q, context, Chosen(Datasets(q.dataset).value, context, q, db));
    PageFromRows(q, context, db);
  }

  lemma {:induction false} GroupedRowsAgree(ds: Dataset, q: Query, js: seq<Joined>)
    requires Registered(ds, OrEmpty(q.groupBy)) && Distinct(OrEmpty(q.groupBy))
    requires AcceptsAggregations(ds, OrEmpty(q.groupBy), OrEmpty(q.aggregations))
    ensures var groupBy := OrEmpty(q.groupBy);
            var ps := SummaryProjections(ds, groupBy, OrEmpty(q.aggregations));
            GroupedRows(Labels(ps), groupBy != [], CellRows(FieldColumns(ds, groupBy), ps, js), SortFields(q))
            == SummaryRows(ds, q, js)
  {
    var groupBy, as_ := OrEmpty(q.groupBy), OrEmpty(q.aggregations);
    var ps := SummaryProjections(ds, groupBy, as_);
    var rows := CellRows(FieldColumns(ds, groupBy), ps, js);
    GroupsAgree(ds, groupBy, js, ps);
    var gs, hs := if groupBy != [] then Groups(rows) else [Keyed([], Items(rows))], GroupsOf(ds, groupBy, js);
    var keyed := GroupedRows(Labels(ps), groupBy != [], rows, SortFields(q));
    forall i | 0 <= i < |hs| ensures keyed[i] == SummaryRows(ds, q, js)[i] {
      assert ItemsOf(gs[i].item, hs[i].item, ps);
      GroupRowsAgree(ds, groupBy, as_, hs[i], gs[i].item);
    }
  }

  lemma {:induction false} SummaryAggregates(ds: Dataset, groupBy: seq<string>, as_: seq<Aggregation>)
    requires Registered(ds, groupBy) && AcceptsAggregations(ds, groupBy, as_) && as_ != []
    ensures Aggregates(SummaryProjections(ds, groupBy, as_))
  {
    assert SummaryProjections(ds, groupBy, as_)[|groupBy|] == AggregateProjection(ds, as_[0]);
  }

  lemma {:induction false} OutputNamesAgree(ds: Dataset, q: Query)
    requires IsDataset(ds) && WellFormed(ds, q) && OrEmpty(q.aggregations) != []
    ensures OutputNames(Output(ds, q).1) == SortFields(q)
  {
  }

  lemma {:induction false} AggregateOutput(ds: Dataset, q: Query)
    requires IsDataset(ds) && WellFormed(ds, q) && OrEmpty(q.aggregations) != [] && Registered(ds, OrEmpty(q.groupBy))
    ensures Distinct(OrEmpty(q.groupBy)) && AcceptsAggregations(ds, OrEmpty(q.groupBy), OrEmpty(q.aggregations))
    ensures Output(ds, q).0 == SummaryProjections(ds, OrEmpty(q.groupBy), OrEmpty(q.aggregations))
  {
  }

  lemma {:induction false} AggregateOutputAgrees(q: Query, context: Context, js: seq<Joined>)
    requires Compile(q, context).Ok? && OrEmpty(q.aggregations) != []
    ensures Distinct(OrEmpty(q.groupBy))
    ensures AcceptsAggregations(Datasets(q.dataset).value, OrEmpty(q.groupBy), OrEmpty(q.aggregations))
    ensures OutputRows(Compile(q, context).value.sql, js) == SummaryRows(Datasets(q.dataset).value, q, js)
  {
    var ds := Datasets(q.dataset).value;
    CompiledOutput(q, context);
    AggregateOutput(ds, q);
    SummaryAggregates(ds, OrEmpty(q.groupBy), OrEmpty(q.aggregations));
    OutputNamesAgree(ds, q);
    GroupedRowsAgree(ds, q, js);
  }

  lemma {:induction false} AggregatePagesAgree(q: Query, context: Context, db: Database)
    requires Compile(q, context).Ok? && Sound(db) && OrEmpty(q.aggregations) != []
    ensures var p := Compile(q, context).value; Evaluate(p.sql, p.params, db) == Interpret(q, context, db)
  {
    AggregateOutputAgrees(q, context, Chosen(Datasets(q.dataset).value, context, q, db));
    PageFromRows(q, context, db);
  }

  /** For every accepted query, actor and database, the emitted statement with its parameters
      returns exactly the page that the structured query means. */
  lemma {:induction false} CompilerPreservesMeaning(q: Query, context: Context, db: Database)
    requires Compile(q, context).Ok? && Sound(db)
    ensures var p := Compile(q, context).value; Evaluate(p.sql, p.params, db) == Interpret(q, context, db)
  {
    if OrEmpty(q.aggregations) == [] { ListPagesAgree(q, context, db); } else { AggregatePagesAgree(q, context, db); }
  }
}
