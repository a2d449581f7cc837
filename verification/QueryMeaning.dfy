/** What a structured HRM query means, told on records and field names with ordinary two-valued
    logic: no statement text, no placeholders, no joins and no UNKNOWN. */
module QueryMeaning {
  import opened Wrappers
  import opened Sql
  import opened DynamicQuery
  import Calendar
  import Like

  /** The row of the related table that a base row refers to, if it exists. */
  function Related(b: Row, os: seq<Row>, key: string): Option<Row> {
    if os == [] then None
    else if Refers(b, os[0], key) then Some(os[0])
    else Related(b, os[1..], key)
  }

  predicate Refers(b: Row, o: Row, key: string) {
    !Cell(o, "company_id").Null? && !Cell(o, "id").Null?
    && Cell(o, "company_id") == Cell(b, "company_id") && Cell(o, "id") == Cell(b, key)
  }

  /** `(company_id, id)` identifies the rows of a table. */
  ghost predicate UniqueIds(os: seq<Row>) {
    forall i, j :: 0 <= i < j < |os| ==>
      Cell(os[i], "company_id") != Cell(os[j], "company_id") || Cell(os[i], "id") != Cell(os[j], "id")
  }

  /** One record for each base row: an optional relation leaves a gap, a required one drops the row. */
  function Records(bs: seq<Row>, f: From, os: seq<Row>): seq<Joined> {
    if bs == [] then []
    else
      var rest := Records(bs[1..], f, os);
      if f.Scan? then [Joined(bs[0], None)] + rest
      else
        var r := Related(bs[0], os, f.key);
        if r.Some? || f.outer then [Joined(bs[0], r)] + rest else rest
  }

  function AllRecords(f: From, db: Database): seq<Joined> {
    Records(TableRows(db, f.base), f, if f.Join? then TableRows(db, f.other) else [])
  }

  /** Whose records the actor may see. */
  datatype Audience = Company | Own | Team

  function AudienceOf(ds: Dataset, context: Context, q: Query): Audience {
    match ds.scope
    case ByPermission(_) => Company
    case LeaveScope => Own
    case AttendanceScope =>
      if && Has(context, "attendance.read.self")
         && (AsksForSelf(q, context) || !Has(context, "attendance.read.team") || context.departmentId == "")
      then Own else Team
  }

  predicate Visible(a: Audience, context: Context, j: Joined) {
    && Cell(j.base, "company_id") == Text(context.companyId)
    && (a.Own? ==> Cell(j.base, "employee_id") == Text(context.employeeId))
    && (a.Team? ==> j.other.Some? && Cell(j.other.value, "department_id") == Text(context.departmentId))
  }

  function FieldValue(ds: Dataset, name: string, j: Joined): Value {
    if name in ds.fields then Eval(j, ds.fields[name].column) else Null
  }

  function Denote(v: Json, ty: ColType): Value {
    match ty
    case NumberType => if v.JNum? then Num(v.n) else Null
    case StringType => if v.JStr? then Text(v.s) else Null
    case DateType =>
      if v.JStr? && Calendar.NamesRealDay(v.s) then Day(Calendar.DayNumber(Calendar.Fields(v.s))) else Null
  }

  /** What a filter says of a field's value. */
  ghost predicate Says(f: Filter, v: Value, ty: ColType, lower: char -> char) {
    match f.operator
    case IsIn => f.value.JArr? && !v.Null? && exists i :: 0 <= i < |f.value.items| && v == Denote(f.value.items[i], ty)
    case IsBetween =>
      f.value.JArr? && |f.value.items| == 2 && InRange(v, Denote(f.value.items[0], ty), Denote(f.value.items[1], ty))
    case DoesContain => v.Text? && f.value.JStr? && Like.Contains(Like.Fold(lower, v.s), Like.Fold(lower, f.value.s))
    case Comparing(cmp) => Stands(cmp, v, Denote(f.value, ty))
    case OtherOperator => false
  }

  predicate InRange(v: Value, lo: Value, hi: Value) {
    !v.Null? && !Less(v, lo) && !Less(hi, v)
  }

  /** `eq null` is absence and `ne null` presence; every other comparison is of present values. */
  predicate Stands(cmp: CmpOp, v: Value, w: Value) {
    match cmp
    case Eq => v == w
    case Ne => !v.Null? && v != w
    case Gt => !v.Null? && Less(w, v)
    case Ge => !v.Null? && !Less(v, w)
    case Lt => !v.Null? && Less(v, w)
    case Le => !v.Null? && !Less(w, v)
  }

  ghost predicate Holds(ds: Dataset, f: Filter, j: Joined, lower: char -> char) {
    f.field in ds.fields && Says(f, FieldValue(ds, f.field, j), ds.fields[f.field].column.ty, lower)
  }

  ghost predicate Wanted(ds: Dataset, context: Context, q: Query, j: Joined, lower: char -> char) {
    && Visible(AudienceOf(ds, context, q), context, j)
    && forall i :: 0 <= i < |OrEmpty(q.filters)| ==> Holds(ds, OrEmpty(q.filters)[i], j, lower)
  }

  ghost function Pick(ds: Dataset, context: Context, q: Query, js: seq<Joined>, lower: char -> char): seq<Joined> {
    if js == [] then []
    else (if Wanted(ds, context, q, js[0], lower) then [js[0]] else []) + Pick(ds, context, q, js[1..], lower)
  }

  /** The records a query is about. */
  ghost function Chosen(ds: Dataset, context: Context, q: Query, db: Database): seq<Joined> {
    Pick(ds, context, q, AllRecords(ds.from, db), db.lower)
  }

  // ------------------------------------------------------------------------ output

  function FieldValues(ds: Dataset, names: seq<string>, j: Joined): (vs: seq<Value>)
    ensures |vs| == |names|
  {
    seq(|names|, i requires 0 <= i < |names| => FieldValue(ds, names[i], j))
  }

  function ListRow(ds: Dataset, names: seq<string>, j: Joined): OutRow {
    map n | n in names :: FieldValue(ds, n, j)
  }

  function SortFields(q: Query): seq<string> {
    var sort := OrEmpty(q.sort);
    if sort != [] then seq(|sort|, i requires 0 <= i < |sort| => sort[i].field)
    else if OrEmpty(q.aggregations) != [] then OrEmpty(q.groupBy)
    else ["id"]
  }

  function SortDirections(q: Query): seq<bool> {
    var sort := OrEmpty(q.sort);
    if sort != [] then seq(|sort|, i requires 0 <= i < |sort| => sort[i].direction.Descending?)
    else if OrEmpty(q.aggregations) != [] then seq(|OrEmpty(q.groupBy)|, i => false)
    else [false]
  }

  function MemberValues(ds: Dataset, a: Aggregation, members: seq<Joined>): seq<Value> {
    seq(|members|, i requires 0 <= i < |members| =>
      if a.field.Some? then FieldValue(ds, a.field.value, members[i]) else Null)
  }

  function AggregateValue(ds: Dataset, a: Aggregation, members: seq<Joined>): Value
    requires a.fn.Some?
  {
    Aggregate(Agg(a.fn.value, a.field.None?), MemberValues(ds, a, members))
  }

  function IndexOf(names: seq<string>, n: string): (i: nat)
    requires n in names
    ensures i < |names| && names[i] == n
  {
    if names[0] == n then 0 else 1 + IndexOf(names[1..], n)
  }

  function SharedCells(groupBy: seq<string>, key: seq<Value>): OutRow
    requires Distinct(groupBy) && |key| == |groupBy|
  {
    map n | n in groupBy :: key[IndexOf(groupBy, n)]
  }

  lemma {:induction false} AliasesDistinct(ds: Dataset, groupBy: seq<string>, as_: seq<Aggregation>)
    requires AcceptsAggregations(ds, groupBy, as_)
    ensures forall i, j :: 0 <= i < j < |as_| ==> as_[i].alias != as_[j].alias
    ensures forall i, j :: 0 <= i < |groupBy| && 0 <= j < |as_| ==> groupBy[i] != as_[j].alias
  {
    forall i, j | 0 <= i < j < |as_| ensures as_[i].alias != as_[j].alias {
      assert AcceptsAggregation(ds, groupBy, as_[..j], as_[j]) && as_[..j][i] == as_[i];
    }
    forall i, j | 0 <= i < |groupBy| && 0 <= j < |as_| ensures groupBy[i] != as_[j].alias {
      assert AcceptsAggregation(ds, groupBy, as_[..j], as_[j]) && groupBy[i] in groupBy;
    }
  }

  function AggregateValues(ds: Dataset, groupBy: seq<string>, as_: seq<Aggregation>, members: seq<Joined>)
    : (vs: seq<Value>)
    requires AcceptsAggregations(ds, groupBy, as_)
    ensures |vs| == |as_| && forall i :: 0 <= i < |as_| ==>
              as_[i].fn.Some? && vs[i] == AggregateValue(ds, as_[i], members)
  {
    assert forall i :: 0 <= i < |as_| ==> AcceptsAggregation(ds, groupBy, as_[..i], as_[i]);
    seq(|as_|, i requires 0 <= i < |as_| => AggregateValue(ds, as_[i], members))
  }

  function AggregateCells(ds: Dataset, groupBy: seq<string>, as_: seq<Aggregation>, members: seq<Joined>): OutRow
    requires AcceptsAggregations(ds, groupBy, as_)
  {
    var names := AliasNames(as_);
    map n | n in names :: AggregateValues(ds, groupBy, as_, members)[IndexOf(names, n)]
  }

  /** One output row for a group: the values the members share, and their aggregates. */
  function GroupSummary(ds: Dataset, groupBy: seq<string>, as_: seq<Aggregation>, g: Keyed<seq<Joined>>): OutRow
    requires Distinct(groupBy) && AcceptsAggregations(ds, groupBy, as_) && |g.key| == |groupBy|
  {
    SharedCells(groupBy, g.key) + AggregateCells(ds, groupBy, as_, g.item)
  }

  function GroupsOf(ds: Dataset, groupBy: seq<string>, js: seq<Joined>): (gs: seq<Keyed<seq<Joined>>>)
    ensures forall g :: 0 <= g < |gs| ==> |gs[g].key| == |groupBy|
  {
    if groupBy == [] then [Keyed([], js)]
    else
      var rows := seq(|js|, i requires 0 <= i < |js| => Keyed(FieldValues(ds, groupBy, js[i]), js[i]));
      KeyLengths(rows, |groupBy|);
      Groups(rows)
  }

  lemma {:induction false} KeyLengths<T>(rows: seq<Keyed<T>>, n: nat)
    requires forall i :: 0 <= i < |rows| ==> |rows[i].key| == n
    ensures forall i :: 0 <= i < |Keys(rows)| ==> |Keys(rows)[i]| == n
  {
    if rows != [] { KeyLengths(rows[..|rows| - 1], n); }
  }

  /** The rows of a list, keyed by the fields they are sorted on. */
  function ListRows(ds: Dataset, q: Query, js: seq<Joined>): (rows: seq<Keyed<OutRow>>)
    ensures |rows| == |js|
  {
    seq(|js|, i requires 0 <= i < |js| =>
      Keyed(FieldValues(ds, SortFields(q), js[i]), ListRow(ds, Names(q, ds), js[i])))
  }

  /** The rows of an aggregate query, keyed by the output cells they are sorted on. */
  function SummaryRows(ds: Dataset, q: Query, js: seq<Joined>): seq<Keyed<OutRow>>
    requires Distinct(OrEmpty(q.groupBy)) && AcceptsAggregations(ds, OrEmpty(q.groupBy), OrEmpty(q.aggregations))
  {
    var gs := GroupsOf(ds, OrEmpty(q.groupBy), js);
    seq(|gs|, i requires 0 <= i < |gs| =>
      var out := GroupSummary(ds, OrEmpty(q.groupBy), OrEmpty(q.aggregations), gs[i]);
      Keyed(NamedCells(out, SortFields(q)), out))
  }

  /** The rows a query asks for, before they are sorted and paged. */
  function MeantRows(ds: Dataset, q: Query, js: seq<Joined>): seq<Keyed<OutRow>>
    requires Distinct(OrEmpty(q.groupBy)) && AcceptsAggregations(ds, OrEmpty(q.groupBy), OrEmpty(q.aggregations))
  {
    if OrEmpty(q.aggregations) != [] then SummaryRows(ds, q, js) else ListRows(ds, q, js)
  }

  /** The page of rows a query asks for. */
  ghost function Interpret(q: Query, context: Context, db: Database): seq<OutRow>
    requires Compile(q, context).Ok?
  {
    var ds := Datasets(q.dataset).value;
    SortedPage(MeantRows(ds, q, Chosen(ds, context, q, db)), SortDirections(q), WholeNumber(q.limit, 20).value,
               WholeNumber(q.offset, 0).value)
  }
}
