/** What an accepted query cannot do: reach rows outside the actor's scope, put a value into the
    statement text, or list attendance over more than 366 days. */
module QueryCompilerSafety {
  import opened Wrappers
  import opened Sql
  import opened DynamicQuery
  import opened QueryMeaning
  import opened QueryCompilerCorrect

  // -------------------------------------------------------------------- placeholders

  lemma {:induction false} PlaceholdersAddOne(ts: seq<Test>, t: Test)
    ensures AllPlaceholders(ts + [t]) == AllPlaceholders(ts) + TestPlaceholders(t)
  {
    assert (ts + [t])[..|ts|] == ts;
  }

  lemma {:induction false} PlaceholdersAppend(ts: seq<Test>, us: seq<Test>)
    ensures AllPlaceholders(ts + us) == AllPlaceholders(ts) + AllPlaceholders(us)
  {
    if us == [] {
      assert ts + us == ts;
    } else {
      var k := |us| - 1;
      PlaceholdersAppend(ts, us[..k]);
      PlaceholdersAddOne(ts + us[..k], us[k]);
      PlaceholdersAddOne(us[..k], us[k]);
      AppendIsAssociative(ts, us[..k], [us[k]]);
      AppendIsAssociative(AllPlaceholders(ts), AllPlaceholders(us[..k]), TestPlaceholders(us[k]));
      assert us == us[..k] + [us[k]];
    }
  }

  lemma {:induction false} AppendIsAssociative<T>(a: seq<T>, b: seq<T>, c: seq<T>)
    ensures (a + b) + c == a + (b + c)
  {
  }

  lemma {:induction false} ClausePlaceholders(ds: Dataset, f: Filter, n: nat)
    requires AcceptsFilter(ds, f)
    ensures TestPlaceholders(FilterClause(ds, f, n).test) == Range(n + 1, |FilterClause(ds, f, n).args|)
  {
  }

  lemma {:induction false} RangesJoin(from: nat, a: nat, b: nat)
    ensures Range(from, a) + Range(from + a, b) == Range(from, a + b)
  {
  }

  /** The clauses spell the placeholders of their own arguments, in order, after the first `n`. */
  ghost predicate Numbered(c: Clauses, n: nat) {
    AllPlaceholders(c.tests) == Range(n + 1, |c.args|)
  }

  lemma {:induction false} NumberedAppend(init: Clauses, last: Clause, n: nat)
    requires Numbered(init, n) && TestPlaceholders(last.test) == Range(n + |init.args| + 1, |last.args|)
    ensures Numbered(Clauses(init.tests + [last.test], init.args + last.args), n)
  {
    PlaceholdersAddOne(init.tests, last.test);
    RangesJoin(n + 1, |init.args|, |last.args|);
  }

  lemma {:induction false} OneMoreNumbered(ds: Dataset, fs: seq<Filter>, f: Filter, n: nat)
    requires AcceptsFilters(ds, fs + [f]) && AcceptsFilters(ds, fs) && Numbered(FilterClauses(ds, fs, n), n)
    ensures Numbered(FilterClauses(ds, fs + [f], n), n)
  {
    var init, last := FilterClausesOfLast(ds, fs, f, n);
    ClausePlaceholders(ds, f, n + |init.args|);
    NumberedAppend(init, last, n);
  }

  lemma {:induction false} ClausesPlaceholders(ds: Dataset, fs: seq<Filter>, n: nat)
    requires AcceptsFilters(ds, fs)
    ensures Numbered(FilterClauses(ds, fs, n), n)
    decreases |fs|
  {
    if fs == [] {
      assert Numbered(Clauses([], []), n);
    } else {
      var before, f := fs[..|fs| - 1], fs[|fs| - 1];
      assert before + [f] == fs;
      ClausesPlaceholders(ds, before, n);
      OneMoreNumbered(ds, before, f, n);
    }
  }

  lemma {:induction false} ScopePlaceholders(s: ActorScope)
    requires s.tests != [] && |s.tests| == |s.args| <= 2
    requires forall i :: 0 <= i < |s.tests| ==> s.tests[i].Cmp? && s.tests[i].ph == i + 1
    ensures AllPlaceholders(s.tests) == Range(1, |s.args|)
  {
    var t := s.tests[0];
    assert AllPlaceholders([]) == [] && [] + [t] == [t];
    PlaceholdersAddOne([], t);
    assert AllPlaceholders([t]) == [1];
    if |s.tests| == 1 {
      assert s.tests == [t];
    } else {
      assert s.tests == [t] + [s.tests[1]];
      PlaceholdersAddOne([t], s.tests[1]);
      assert AllPlaceholders(s.tests) == [1, 2];
    }
  }

  lemma {:induction false} RangesOfParts(p: seq<nat>, q: seq<nat>, a: nat, b: nat)
    requires p == Range(1, a) && q == Range(a + 1, b)
    ensures p + q + [a + b + 1, a + b + 2] == Range(1, a + b + 2)
  {
  }

  /** The parts of a statement: the clauses of the scope, those of the filters, and the page. */
  ghost predicate HasParts(sql: Select, params: seq<Param>, s: ActorScope, fs: Clauses) {
    && sql.tests == s.tests + fs.tests && |params| == |s.args| + |fs.args| + 2
    && sql.limit == |s.args| + |fs.args| + 1 && sql.offset == |s.args| + |fs.args| + 2
  }

  lemma {:induction false} StatementHasParts(ds: Dataset, q: Query, s: ActorScope)
    requires IsDataset(ds) && WellFormed(ds, q)
    ensures HasParts(Statement(ds, q, s).0, Statement(ds, q, s).1, s, FilterClauses(ds, OrEmpty(q.filters), |s.args|))
  {
  }

  lemma {:induction false} PlaceholdersOfParts(sql: Select, params: seq<Param>, s: ActorScope, fs: Clauses)
    requires HasParts(sql, params, s, fs)
    requires AllPlaceholders(s.tests) == Range(1, |s.args|) && Numbered(fs, |s.args|)
    ensures Placeholders(sql) == Range(1, |params|)
  {
    PlaceholdersAppend(s.tests, fs.tests);
    RangesOfParts(AllPlaceholders(s.tests), AllPlaceholders(fs.tests), |s.args|, |fs.args|);
  }

  lemma {:induction false} StatementPlaceholders(ds: Dataset, q: Query, s: ActorScope)
    requires IsDataset(ds) && WellFormed(ds, q)
    requires AllPlaceholders(s.tests) == Range(1, |s.args|)
    ensures Placeholders(Statement(ds, q, s).0) == Range(1, |Statement(ds, q, s).1|)
  {
    var fs := FilterClauses(ds, OrEmpty(q.filters), |s.args|);
    ClausesPlaceholders(ds, OrEmpty(q.filters), |s.args|);
    StatementHasParts(ds, q, s);
    PlaceholdersOfParts(Statement(ds, q, s).0, Statement(ds, q, s).1, s, fs);
  }

  lemma {:induction false} ScopeIsNumbered(ds: Dataset, context: Context, q: Query)
    requires ScopeFor(ds, context, q).Ok?
    ensures var s := ScopeFor(ds, context, q).value; AllPlaceholders(s.tests) == Range(1, |s.args|)
  {
    ScopePlaceholders(ScopeFor(ds, context, q).value);
  }

  /** The statement spells `$1` to `$k` in this order, each exactly once, and k parameters are sent. */
  lemma {:induction false} PlaceholdersAreOneToK(q: Query, context: Context)
    requires Compile(q, context).Ok?
    ensures var p := Compile(q, context).value; Placeholders(p.sql) == Range(1, |p.params|)
  {
    var ds := Datasets(q.dataset).value;
    ScopeIsNumbered(ds, context, q);
    StatementPlaceholders(ds, q, ScopeFor(ds, context, q).value);
  }

  // ------------------------------------------------- values stay out of the statement

  /** Equal up to the values sent: the same choices, and lists of the same length. */
  predicate SameValueShape(f: Filter, g: Filter) {
    && f.field == g.field && f.operator == g.operator
    && (f.value.JNull? <==> g.value.JNull?)
    && (f.operator.IsIn? ==> f.value.JArr? && g.value.JArr? && |f.value.items| == |g.value.items|)
  }

  predicate SameShape(q: Query, r: Query) {
    && q.dataset == r.dataset && q.select == r.select && q.sort == r.sort && q.aggregations == r.aggregations
    && q.groupBy == r.groupBy
    && |OrEmpty(q.filters)| == |OrEmpty(r.filters)|
    && forall i :: 0 <= i < |OrEmpty(q.filters)| ==> SameValueShape(OrEmpty(q.filters)[i], OrEmpty(r.filters)[i])
  }

  lemma {:induction false} ClauseOfSameShape(ds: Dataset, f: Filter, g: Filter, n: nat)
    requires AcceptsFilter(ds, f) && AcceptsFilter(ds, g) && SameValueShape(f, g)
    ensures FilterClause(ds, f, n).test == FilterClause(ds, g, n).test
    ensures |FilterClause(ds, f, n).args| == |FilterClause(ds, g, n).args|
  {
  }

  ghost predicate SameShapes(fs: seq<Filter>, gs: seq<Filter>) {
    |fs| == |gs| && forall i :: 0 <= i < |fs| ==> SameValueShape(fs[i], gs[i])
  }

  lemma {:induction false} OneMoreOfSameShape(ds: Dataset, fs: seq<Filter>, gs: seq<Filter>, f: Filter, g: Filter,
          n: nat)
    requires AcceptsFilters(ds, fs + [f]) && AcceptsFilters(ds, gs + [g])
    requires AcceptsFilters(ds, fs) && AcceptsFilters(ds, gs)
    requires AcceptsFilter(ds, f) && AcceptsFilter(ds, g) && SameValueShape(f, g)
    requires FilterClauses(ds, fs, n).tests == FilterClauses(ds, gs, n).tests
    requires |FilterClauses(ds, fs, n).args| == |FilterClauses(ds, gs, n).args|
    ensures FilterClauses(ds, fs + [f], n).tests == FilterClauses(ds, gs + [g], n).tests
    ensures |FilterClauses(ds, fs + [f], n).args| == |FilterClauses(ds, gs + [g], n).args|
  {
    var init, last := FilterClausesOfLast(ds, fs, f, n);
    var init', last' := FilterClausesOfLast(ds, gs, g, n);
    ClauseOfSameShape(ds, f, g, n + |init.args|);
  }

  lemma {:induction false} ClausesOfSameShape(ds: Dataset, fs: seq<Filter>, gs: seq<Filter>, n: nat)
    requires AcceptsFilters(ds, fs) && AcceptsFilters(ds, gs) && SameShapes(fs, gs)
    ensures FilterClauses(ds, fs, n).tests == FilterClauses(ds, gs, n).tests
    ensures |FilterClauses(ds, fs, n).args| == |FilterClauses(ds, gs, n).args|
    decreases |fs|
  {
    if fs == [] {
      assert gs == [];
    } else {
      var k := |fs| - 1;
      assert SameValueShape(fs[k], gs[k]);
      ClausesOfSameShape(ds, fs[..k], gs[..k], n);
      assert fs == fs[..k] + [fs[k]] && gs == gs[..k] + [gs[k]];
      OneMoreOfSameShape(ds, fs[..k], gs[..k], fs[k], gs[k], n);
    }
  }

  lemma {:induction false} ScopeOfSameAudience(ds: Dataset, q: Query, context: Context, r: Query, context': Context)
    requires ScopeFor(ds, context, q).Ok? && ScopeFor(ds, context', r).Ok?
    requires AudienceOf(ds, context, q) == AudienceOf(ds, context', r)
    ensures ScopeFor(ds, context, q).value.tests == ScopeFor(ds, context', r).value.tests
    ensures |ScopeFor(ds, context, q).value.args| == |ScopeFor(ds, context', r).value.args|
  {
  }

  lemma {:induction false} StatementOfSameShape(ds: Dataset, q: Query, r: Query, s: ActorScope, s': ActorScope)
    requires IsDataset(ds) && WellFormed(ds, q) && WellFormed(ds, r) && SameShape(q, r)
    requires s.tests == s'.tests && |s.args| == |s'.args|
    ensures Statement(ds, q, s).0 == Statement(ds, r, s').0
  {
    assert SameShapes(OrEmpty(q.filters), OrEmpty(r.filters));
    ClausesOfSameShape(ds, OrEmpty(q.filters), OrEmpty(r.filters), |s.args|);
  }

  /** Two accepted queries that differ only in values, sent by two actors of the same kind, have the
      same statement: no filter value, identity, limit or offset ever reaches the statement. */
  lemma {:induction false} ValuesStayInParameters(q: Query, context: Context, r: Query, context': Context)
    requires Compile(q, context).Ok? && Compile(r, context').Ok? && SameShape(q, r)
    requires AudienceOf(Datasets(q.dataset).value, context, q) == AudienceOf(Datasets(q.dataset).value, context', r)
    ensures Compile(q, context).value.sql == Compile(r, context').value.sql
  {
    var ds := Datasets(q.dataset).value;
    ScopeOfSameAudience(ds, q, context, r, context');
    StatementOfSameShape(ds, q, r, ScopeFor(ds, context, q).value, ScopeFor(ds, context', r).value);
  }

  // ------------------------------------------------------------------ scope of the rows

  function Keep(rows: seq<Row>, keep: Row -> bool): seq<Row> {
    if rows == [] then [] else (if keep(rows[0]) then [rows[0]] else []) + Keep(rows[1..], keep)
  }

  lemma {:induction false} RelatedAmongKept(b: Row, os: seq<Row>, key: string, keep: Row -> bool)
    requires forall o :: Refers(b, o, key) ==> keep(o)
    ensures Related(b, Keep(os, keep), key) == Related(b, os, key)
  {
    if os != [] {
      RelatedAmongKept(b, os[1..], key, keep);
      if keep(os[0]) {
        assert Keep(os, keep)[1..] == Keep(os[1..], keep);
      } else {
        assert !Refers(b, os[0], key);
        assert Keep(os, keep) == Keep(os[1..], keep);
      }
    }
  }

  lemma {:induction false} PickAppend(ds: Dataset, context: Context, q: Query, js: seq<Joined>, ks: seq<Joined>,
          lower: char -> char)
    ensures Pick(ds, context, q, js + ks, lower) == Pick(ds, context, q, js, lower) + Pick(ds, context, q, ks, lower)
  {
    if js == [] {
      assert js + ks == ks;
    } else {
      assert (js + ks)[1..] == js[1..] + ks;
      PickAppend(ds, context, q, js[1..], ks, lower);
    }
  }

  /** Rows nobody in the audience may see can be removed from the tables before asking. */
  lemma {:induction false} PickAmongKept(
    ds: Dataset, context: Context, q: Query, bs: seq<Row>, f: From, os: seq<Row>, keepBase: Row -> bool,
    keepOther: Row -> bool, lower: char -> char)
    requires forall j :: Visible(AudienceOf(ds, context, q), context, j) ==> keepBase(j.base)
    requires f.Join? ==> forall b, o :: keepBase(b) && Refers(b, o, f.key) ==> keepOther(o)
    ensures Pick(ds, context, q, Records(Keep(bs, keepBase), f, Keep(os, keepOther)), lower) ==
            Pick(ds, context, q, Records(bs, f, os), lower)
  {
    if bs != [] {
      var b, rest := bs[0], Records(bs[1..], f, os);
      PickAmongKept(ds, context, q, bs[1..], f, os, keepBase, keepOther, lower);
      var one := RecordsOf(b, f, os);
      assert Records(bs, f, os) == one + rest;
      PickAppend(ds, context, q, one, rest, lower);
      if keepBase(b) {
        if f.Join? { RelatedAmongKept(b, os, f.key, keepOther); }
        var kept := Keep(bs, keepBase);
        assert kept[1..] == Keep(bs[1..], keepBase);
        assert Records(kept, f, Keep(os, keepOther)) == one + Records(kept[1..], f, Keep(os, keepOther));
        PickAppend(ds, context, q, one, Records(kept[1..], f, Keep(os, keepOther)), lower);
      } else {
        assert Pick(ds, context, q, one, lower) == [];
        assert Keep(bs, keepBase) == Keep(bs[1..], keepBase);
      }
    }
  }

  function RecordsOf(b: Row, f: From, os: seq<Row>): (js: seq<Joined>)
    ensures |js| <= 1 && forall j :: j in js ==> j.base == b
  {
    if f.Scan? then [Joined(b, None)]
    else var r := Related(b, os, f.key); if r.Some? || f.outer then [Joined(b, r)] else []
  }

  predicate InCompany(context: Context, r: Row) {
    Cell(r, "company_id") == Text(context.companyId)
  }

  /** A row of one of the tables that is about the actor. */
  predicate IsOwn(context: Context, table: string, r: Row) {
    InCompany(context, r) && Cell(r, if table == "employees" then "id" else "employee_id") == Text(context.employeeId)
  }

  ghost predicate AgreeOn(d: Database, e: Database, table: string, keep: Row -> bool) {
    Keep(TableRows(d, table), keep) == Keep(TableRows(e, table), keep)
  }

  ghost predicate AgreeInCompany(d: Database, e: Database, context: Context, table: string) {
    AgreeOn(d, e, table, (r: Row) => InCompany(context, r))
  }

  ghost predicate AgreeOnOwn(d: Database, e: Database, context: Context, table: string) {
    AgreeOn(d, e, table, (r: Row) => IsOwn(context, table, r))
  }

  lemma {:induction false} ChosenFromKept(ds: Dataset, context: Context, q: Query, d: Database, e: Database,
          keepBase: Row -> bool, keepOther: Row -> bool)
    requires forall j :: Visible(AudienceOf(ds, context, q), context, j) ==> keepBase(j.base)
    requires ds.from.Join? ==> forall b, o :: keepBase(b) && Refers(b, o, ds.from.key) ==> keepOther(o)
    requires AgreeOn(d, e, ds.from.base, keepBase) && (ds.from.Join? ==> AgreeOn(d, e, ds.from.other, keepOther))
    requires d.lower == e.lower
    ensures Chosen(ds, context, q, d) == Chosen(ds, context, q, e)
  {
    var f := ds.from;
    var os, os' := if f.Join? then TableRows(d, f.other) else [], if f.Join? then TableRows(e, f.other) else [];
    PickAmongKept(ds, context, q, TableRows(d, f.base), f, os, keepBase, keepOther, d.lower);
    PickAmongKept(ds, context, q, TableRows(e, f.base), f, os', keepBase, keepOther, e.lower);
    assert f.Scan? ==> Keep(os, keepOther) == Keep(os', keepOther);
  }

  /** The page depends on the records chosen only. */
  lemma {:induction false} ChosenDecidePage(q: Query, context: Context, d: Database, e: Database)
    requires Compile(q, context).Ok? && Sound(d) && Sound(e)
    requires Chosen(Datasets(q.dataset).value, context, q, d) == Chosen(Datasets(q.dataset).value, context, q, e)
    ensures var p := Compile(q, context).value; Evaluate(p.sql, p.params, d) == Evaluate(p.sql, p.params, e)
  {
    CompilerPreservesMeaning(q, context, d);
    CompilerPreservesMeaning(q, context, e);
  }

  /** No accepted query sees another company: databases that agree on the actor's company give the same page. */
  lemma {:induction false} CompanyIsolation(q: Query, context: Context, d: Database, e: Database)
    requires Compile(q, context).Ok? && Sound(d) && Sound(e) && d.lower == e.lower
    requires forall table :: AgreeInCompany(d, e, context, table)
    ensures var p := Compile(q, context).value; Evaluate(p.sql, p.params, d) == Evaluate(p.sql, p.params, e)
  {
    var ds := Datasets(q.dataset).value;
    var keep := (r: Row) => InCompany(context, r);
    assert AgreeInCompany(d, e, context, ds.from.base);
    if ds.from.Join? { assert AgreeInCompany(d, e, context, ds.from.other); }
    ChosenFromKept(ds, context, q, d, e, keep, keep);
    ChosenDecidePage(q, context, d, e);
  }

  lemma {:induction false} OwnRowsDecideChosen(ds: Dataset, q: Query, context: Context, d: Database, e: Database)
    requires IsDataset(ds) && AudienceOf(ds, context, q).Own? && d.lower == e.lower
    requires forall table :: AgreeOnOwn(d, e, context, table)
    ensures Chosen(ds, context, q, d) == Chosen(ds, context, q, e)
  {
    var f := ds.from;
    var keepBase := (r: Row) => IsOwn(context, f.base, r);
    var other := if f.Join? then f.other else "";
    var keepOther := (r: Row) => IsOwn(context, other, r);
    assert AgreeOnOwn(d, e, context, f.base) && AgreeOnOwn(d, e, context, other);
    ChosenFromKept(ds, context, q, d, e, keepBase, keepOther);
  }

  /** An accepted aggregate query tells nothing about anybody else: databases that agree on the rows
      about the actor give the same page. */
  lemma {:induction false} AggregatesDependOnOwnRows(q: Query, context: Context, d: Database, e: Database)
    requires Compile(q, context).Ok? && Compile(q, context).value.aggregate
    requires Sound(d) && Sound(e) && d.lower == e.lower
    requires forall table :: AgreeOnOwn(d, e, context, table)
    ensures var p := Compile(q, context).value; Evaluate(p.sql, p.params, d) == Evaluate(p.sql, p.params, e)
  {
    OwnRowsDecideChosen(Datasets(q.dataset).value, q, context, d, e);
    ChosenDecidePage(q, context, d, e);
  }

  // ------------------------------------------------------------------ attendance window

  lemma {:induction false} DateRangeIsAFilter(ds: Dataset, fs: seq<Filter>) returns (i: nat)
    requires DateRange(ds, fs).Some?
    ensures i < |fs| && DateRange(ds, fs).value == fs[i] && IsDateRange(ds, fs[i])
    decreases |fs|
  {
    i := |fs| - 1;
    if !IsDateRange(ds, fs[i]) { i := DateRangeIsAFilter(ds, fs[..i]); }
  }

  lemma {:induction false} PickedAreWanted(ds: Dataset, context: Context, q: Query, js: seq<Joined>,
          lower: char -> char, j: Joined)
    requires j in Pick(ds, context, q, js, lower)
    ensures Wanted(ds, context, q, j, lower)
  {
    if j !in Pick(ds, context, q, js[1..], lower) {
      assert j == js[0];
    } else {
      PickedAreWanted(ds, context, q, js[1..], lower, j);
    }
  }

  predicate DayWithin(v: Value, first: int) {
    v.Day? && first <= v.day <= first + 365
  }

  lemma {:induction false} RangeOfFilter(ds: Dataset, f: Filter, j: Joined, lower: char -> char)
    requires AcceptsFilter(ds, f) && f.operator.IsBetween? && ds.fields[f.field].column.ty.DateType?
    requires Holds(ds, f, j, lower)
    ensures var v := FieldValue(ds, f.field, j);
            v.Day? && ParsedDay(f.value.items[0]) <= v.day <= ParsedDay(f.value.items[1])
  {
    assert InRange(FieldValue(ds, f.field, j), Day(ParsedDay(f.value.items[0])), Day(ParsedDay(f.value.items[1])));
  }

  lemma {:induction false} AttendanceRange(q: Query, context: Context) returns (f: Filter)
    requires Compile(q, context).Ok? && q.dataset == "attendance_records"
    ensures f in OrEmpty(q.filters) && AcceptsFilter(Datasets(q.dataset).value, f)
    ensures f.operator.IsBetween? && f.field == "work_date"
    ensures ParsedDay(f.value.items[1]) <= ParsedDay(f.value.items[0]) + 365
  {
    var ds, fs := Datasets(q.dataset).value, OrEmpty(q.filters);
    var i := DateRangeIsAFilter(ds, fs);
    assert AcceptsFilter(ds, fs[i]);
    f := fs[i];
  }

  /** The records of an accepted attendance query lie in one window of 366 calendar days. */
  lemma {:induction false} AttendanceWindow(q: Query, context: Context, db: Database) returns (first: int)
    requires Compile(q, context).Ok? && q.dataset == "attendance_records"
    ensures forall j :: j in Chosen(Datasets(q.dataset).value, context, q, db) ==>
              DayWithin(Cell(j.base, "work_date"), first)
  {
    var ds := Datasets(q.dataset).value;
    var f := AttendanceRange(q, context);
    first := ParsedDay(f.value.items[0]);
    forall j | j in Chosen(ds, context, q, db) ensures DayWithin(Cell(j.base, "work_date"), first) {
      PickedAreWanted(ds, context, q, AllRecords(ds.from, db), db.lower, j);
      assert Holds(ds, f, j, db.lower);
      RangeOfFilter(ds, f, j, db.lower);
    }
  }

  lemma {:induction false} SortedPageMember(keyed: seq<Keyed<OutRow>>, dirs: seq<bool>, limit: nat, offset: nat,
          row: OutRow)
    returns (i: nat)
    requires KeysFit(keyed, dirs) && row in SortedPage(keyed, dirs, limit, offset)
    ensures i < |keyed| && keyed[i].item == row
  {
    SortIsStable(keyed, dirs);
    var sorted := Sort(keyed, dirs);
    assert row in Items(sorted);
    var k :| 0 <= k < |sorted| && sorted[k].item == row;
    assert sorted[k] in keyed;
    i :| 0 <= i < |keyed| && keyed[i] == sorted[k];
  }

  lemma {:induction false} ListPageRow(ds: Dataset, q: Query, js: seq<Joined>, limit: nat, offset: nat, row: OutRow)
    returns (j: Joined)
    requires row in SortedPage(ListRows(ds, q, js), SortDirections(q), limit, offset)
    ensures j in js && row == ListRow(ds, Names(q, ds), j)
  {
    var rows := ListRows(ds, q, js);
    assert |SortFields(q)| == |SortDirections(q)|;
    var i := SortedPageMember(rows, SortDirections(q), limit, offset, row);
    j := js[i];
  }

  /** The page of an accepted list. */
  ghost function ListPage(q: Query, context: Context, db: Database): seq<OutRow>
    requires Compile(q, context).Ok?
  {
    var ds := Datasets(q.dataset).value;
    SortedPage(ListRows(ds, q, Chosen(ds, context, q, db)), SortDirections(q), WholeNumber(q.limit, 20).value,
               WholeNumber(q.offset, 0).value)
  }

  lemma {:induction false} EvaluatesToListPage(q: Query, context: Context, db: Database)
    requires Compile(q, context).Ok? && OrEmpty(q.aggregations) == [] && Sound(db)
    ensures var p := Compile(q, context).value; Evaluate(p.sql, p.params, db) == ListPage(q, context, db)
  {
    CompilerPreservesMeaning(q, context, db);
    assert Interpret(q, context, db) == ListPage(q, context, db);
  }

  lemma {:induction false} ListPageShowsRecord(q: Query, context: Context, db: Database, row: OutRow)
    returns (j: Joined)
    requires Compile(q, context).Ok? && row in ListPage(q, context, db)
    ensures var ds := Datasets(q.dataset).value;
            j in Chosen(ds, context, q, db) && row == ListRow(ds, Names(q, ds), j)
  {
    var ds := Datasets(q.dataset).value;
    var limit, offset := WholeNumber(q.limit, 20).value, WholeNumber(q.offset, 0).value;
    j := ListPageRow(ds, q, Chosen(ds, context, q, db), limit, offset, row);
  }

  /** A row of an accepted list shows one of the chosen records. */
  lemma {:induction false} ListRowShowsRecord(q: Query, context: Context, db: Database, row: OutRow) returns (j: Joined)
    requires Compile(q, context).Ok? && OrEmpty(q.aggregations) == [] && Sound(db)
    requires row in Evaluate(Compile(q, context).value.sql, Compile(q, context).value.params, db)
    ensures var ds := Datasets(q.dataset).value;
            j in Chosen(ds, context, q, db) && row == ListRow(ds, Names(q, ds), j)
  {
    EvaluatesToListPage(q, context, db);
    j := ListPageShowsRecord(q, context, db, row);
  }

  /** Every row that an accepted attendance list returns, if it shows its date, shows one in that window. */
  lemma {:induction false} AttendanceListWindow(q: Query, context: Context, db: Database) returns (first: int)
    requires Compile(q, context).Ok? && q.dataset == "attendance_records" && OrEmpty(q.aggregations) == [] && Sound(db)
    ensures var p := Compile(q, context).value;
            forall row :: row in Evaluate(p.sql, p.params, db) && "work_date" in row ==>
                DayWithin(row["work_date"], first)
  {
    var ds, p := Datasets(q.dataset).value, Compile(q, context).value;
    first := AttendanceWindow(q, context, db);
    forall row | row in Evaluate(p.sql, p.params, db) && "work_date" in row ensures DayWithin(row["work_date"], first) {
      var j := ListRowShowsRecord(q, context, db, row);
      assert row["work_date"] == FieldValue(ds, "work_date", j);
    }
  }
}
