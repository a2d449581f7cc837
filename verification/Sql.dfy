/** The fragment of PostgreSQL the HRM query compiler targets: one table or one two-table join,
    a conjunction of tests with `$n` placeholders under three-valued logic, grouping with
    aggregates, ORDER BY with NULLs last (ASC) or first (DESC), LIMIT and OFFSET.
    Rows that compare equal keep the order of the tables: the one fixed tie-break of the model. */
module Sql {
  import opened Wrappers
  import Calendar
  import Strings
  import Like

  datatype Value = Null | Num(n: real) | Text(s: string) | Day(day: int)

  datatype ColType = StringType | NumberType | DateType

  type Row = map<string, Value>

  datatype Database = Database(tables: map<string, seq<Row>>, lower: char -> char)

  /** What the driver sends for a placeholder; the column beside it decides how it is read. */
  datatype Param = TextParam(s: string) | NumParam(n: real)

  /** A column of the base table or of the joined one. */
  datatype Column = Column(joined: bool, name: string, ty: ColType)

  datatype Joined = Joined(base: Row, other: Option<Row>)

  function Cell(r: Row, name: string): Value {
    if name in r then r[name] else Null
  }

  function Eval(j: Joined, c: Column): Value {
    if !c.joined then Cell(j.base, c.name)
    else if j.other.Some? then Cell(j.other.value, c.name)
    else Null
  }

  function TableRows(db: Database, name: string): seq<Row> {
    if name in db.tables then db.tables[name] else []
  }

  // ------------------------------------------------------------- order on values

  function Rank(v: Value): nat {
    match v case Null => 0 case Num(_) => 1 case Text(_) => 2 case Day(_) => 3
  }

  /** A strict total order; within one column only values of one type (or NULL) meet. */
  predicate Less(v: Value, w: Value) {
    match (v, w)
    case (Num(a), Num(b)) => a < b
    case (Text(a), Text(b)) => Strings.Less(a, b)
    case (Day(a), Day(b)) => a < b
    case _ => Rank(v) < Rank(w)
  }

  lemma {:induction false} LessIsStrictTotalOrder(u: Value, v: Value, w: Value)
    ensures !Less(u, u)
    ensures Less(u, v) && Less(v, w) ==> Less(u, w)
    ensures Less(u, v) || u == v || Less(v, u)
    ensures !(Less(u, v) && Less(v, u))
  {
    if u.Text? && v.Text? {
      Strings.LessIsStrictTotalOrder(u.s, v.s, if w.Text? then w.s else "");
      Strings.LessIsStrictTotalOrder(u.s, v.s, u.s);
    }
    if u.Text? { Strings.LessIsStrictTotalOrder(u.s, u.s, u.s); }
  }

  // ------------------------------------------------------------ three-valued tests

  datatype Truth = True | False | Unknown

  function Known(b: bool): Truth { if b then True else False }

  function And(a: Truth, b: Truth): Truth {
    if a.False? || b.False? then False else if a.True? && b.True? then True else Unknown
  }

  function Or(a: Truth, b: Truth): Truth {
    if a.True? || b.True? then True else if a.False? && b.False? then False else Unknown
  }

  datatype CmpOp = Eq | Ne | Gt | Ge | Lt | Le

  function Compare(op: CmpOp, v: Value, w: Value): Truth {
    if v.Null? || w.Null? then Unknown
    else match op
      case Eq => Known(v == w)
      case Ne => Known(v != w)
      case Gt => Known(Less(w, v))
      case Ge => Known(!Less(v, w))
      case Lt => Known(Less(v, w))
      case Le => Known(!Less(w, v))
  }

  /** One conjunct of the WHERE clause; numbers are placeholders. */
  datatype Test =
    | Cmp(op: CmpOp, col: Column, ph: nat)
    | In(col: Column, phs: seq<nat>)
    | Between(col: Column, lo: nat, hi: nat)
    | ILike(col: Column, ph: nat)
    | IsNull(col: Column)
    | IsNotNull(col: Column)

  function Bind(p: Param, ty: ColType): Value {
    match ty
    case StringType => if p.TextParam? then Text(p.s) else Null
    case NumberType => if p.NumParam? then Num(p.n) else Null
    case DateType =>
      if p.TextParam? && Calendar.NamesRealDay(p.s) then Day(Calendar.DayNumber(Calendar.Fields(p.s))) else Null
  }

  function Arg(params: seq<Param>, ph: nat, ty: ColType): Value {
    if 1 <= ph <= |params| then Bind(params[ph - 1], ty) else Null
  }

  function AnyEqual(v: Value, phs: seq<nat>, ty: ColType, params: seq<Param>): Truth {
    if phs == [] then False
    else Or(Compare(Eq, v, Arg(params, phs[0], ty)), AnyEqual(v, phs[1..], ty, params))
  }

  function EvalTest(t: Test, j: Joined, params: seq<Param>, lower: char -> char): Truth {
    var v := Eval(j, t.col);
    match t
    case Cmp(op, col, ph) => Compare(op, v, Arg(params, ph, col.ty))
    case In(col, phs) => AnyEqual(v, phs, col.ty, params)
    case Between(col, lo, hi) => And(Compare(Ge, v, Arg(params, lo, col.ty)), Compare(Le, v, Arg(params, hi, col.ty)))
    case ILike(col, ph) =>
      var p := Arg(params, ph, StringType);
      if v.Text? && p.Text? then Known(Like.ILike(lower, p.s, v.s)) else Unknown
    case IsNull(_) => Known(v.Null?)
    case IsNotNull(_) => Known(!v.Null?)
  }

  function Conjunction(ts: seq<Test>, j: Joined, params: seq<Param>, lower: char -> char): Truth {
    if ts == [] then True
    else And(EvalTest(ts[0], j, params, lower), Conjunction(ts[1..], j, params, lower))
  }

  /** A row passes a WHERE conjunction when every conjunct is true: false and unknown both drop it. */
  lemma {:induction false} ConjunctionTrueIff(ts: seq<Test>, j: Joined, params: seq<Param>, lower: char -> char)
    ensures Conjunction(ts, j, params, lower).True? <==>
            forall i :: 0 <= i < |ts| ==> EvalTest(ts[i], j, params, lower).True?
  {
    if ts != [] {
      ConjunctionTrueIff(ts[1..], j, params, lower);
      if forall i :: 0 <= i < |ts[1..]| ==> EvalTest(ts[1..][i], j, params, lower).True? {
        forall i | 1 <= i < |ts| ensures EvalTest(ts[i], j, params, lower).True? { assert ts[i] == ts[1..][i - 1]; }
      }
    }
  }

  function Where(ts: seq<Test>, js: seq<Joined>, params: seq<Param>, lower: char -> char): seq<Joined> {
    if js == [] then []
    else (if Conjunction(ts, js[0], params, lower).True? then [js[0]] else [])
         + Where(ts, js[1..], params, lower)
  }

  // ------------------------------------------------------------------------ FROM

  /** `base` alone, or `base [LEFT] JOIN other ON other.company_id = base.company_id AND other.id = base.key`. */
  datatype From = Scan(base: string) | Join(base: string, outer: bool, other: string, key: string)

  function JoinCondition(b: Row, o: Row, key: string): Truth {
    And(Compare(Eq, Cell(o, "company_id"), Cell(b, "company_id")), Compare(Eq, Cell(o, "id"), Cell(b, key)))
  }

  function Matching(b: Row, os: seq<Row>, key: string): seq<Joined> {
    if os == [] then []
    else (if JoinCondition(b, os[0], key).True? then [Joined(b, Some(os[0]))] else []) + Matching(b, os[1..], key)
  }

  function JoinRow(b: Row, f: From, os: seq<Row>): seq<Joined>
    requires f.Join?
  {
    var m := Matching(b, os, f.key);
    if m == [] && f.outer then [Joined(b, None)] else m
  }

  function JoinRows(bs: seq<Row>, f: From, os: seq<Row>): seq<Joined>
    requires f.Join?
  {
    if bs == [] then [] else JoinRow(bs[0], f, os) + JoinRows(bs[1..], f, os)
  }

  function FromRows(f: From, db: Database): seq<Joined> {
    var bs := TableRows(db, f.base);
    if f.Scan? then seq(|bs|, i requires 0 <= i < |bs| => Joined(bs[i], None))
    else JoinRows(bs, f, TableRows(db, f.other))
  }

  // -------------------------------------------------- output rows, groups, order, page

  datatype AggFn = Count | Sum | Avg | Min | Max

  datatype How = Plain | Agg(fn: AggFn, star: bool)

  datatype Label = Label(alias: string, how: How)

  type OutRow = map<string, Value>

  datatype Keyed<T> = Keyed(key: seq<Value>, item: T)

  function NumbersOf(vs: seq<Value>): seq<real> {
    if vs == [] then [] else (if vs[0].Num? then [vs[0].n] else []) + NumbersOf(vs[1..])
  }

  function NonNull(vs: seq<Value>): nat {
    if vs == [] then 0 else (if vs[0].Null? then 0 else 1) + NonNull(vs[1..])
  }

  function Total(ns: seq<real>): real {
    if ns == [] then 0.0 else ns[0] + Total(ns[1..])
  }

  function Extreme(ns: seq<real>, greatest: bool): real
    requires ns != []
  {
    if |ns| == 1 then ns[0]
    else var r := Extreme(ns[1..], greatest);
         if (ns[0] < r) == greatest then r else ns[0]
  }

  /** Aggregates ignore NULL; over no values COUNT is 0 and the others are NULL. */
  function Aggregate(how: How, vs: seq<Value>): Value
    requires how.Agg?
  {
    var ns := NumbersOf(vs);
    match how.fn
    case Count => Num((if how.star then |vs| else NonNull(vs)) as real)
    case Sum => if ns == [] then Null else Num(Total(ns))
    case Avg => if ns == [] then Null else Num(Total(ns) / |ns| as real)
    case Min => if ns == [] then Null else Num(Extreme(ns, false))
    case Max => if ns == [] then Null else Num(Extreme(ns, true))
  }

  /** The keys of the rows, each once, in order of first appearance. */
  function Keys<T>(rows: seq<Keyed<T>>): (ks: seq<seq<Value>>)
    ensures forall i, j :: 0 <= i < j < |ks| ==> ks[i] != ks[j]
    ensures forall i :: 0 <= i < |rows| ==> rows[i].key in ks
  {
    if rows == [] then []
    else
      var n := |rows| - 1;
      var ks := Keys(rows[..n]);
      assert forall i :: 0 <= i < n ==> rows[..n][i].key in ks;
      if rows[n].key in ks then ks else ks + [rows[n].key]
  }

  /** The items of the rows that carry key k, in order. */
  function ItemsAt<T>(rows: seq<Keyed<T>>, k: seq<Value>): seq<T> {
    if rows == [] then []
    else (if rows[0].key == k then [rows[0].item] else []) + ItemsAt(rows[1..], k)
  }

  /** GROUP BY: one group for each key, holding the rows with that key. */
  function Groups<T>(rows: seq<Keyed<T>>): seq<Keyed<seq<T>>> {
    var ks := Keys(rows);
    seq(|ks|, i requires 0 <= i < |ks| => Keyed(ks[i], ItemsAt(rows, ks[i])))
  }

  lemma {:induction false} ItemsAtAppend<T>(rows: seq<Keyed<T>>, r: Keyed<T>, k: seq<Value>)
    ensures ItemsAt(rows + [r], k) == ItemsAt(rows, k) + (if r.key == k then [r.item] else [])
  {
    if rows == [] {
      assert [r][1..] == [];
    } else {
      assert (rows + [r])[1..] == rows[1..] + [r];
      ItemsAtAppend(rows[1..], r, k);
    }
  }

  function CellsAt<T>(items: seq<seq<T>>, i: nat): seq<T>
    requires forall k :: 0 <= k < |items| ==> i < |items[k]|
  {
    seq(|items|, k requires 0 <= k < |items| => items[k][i])
  }

  function GroupCell(l: Label, vs: seq<Value>): Value {
    if l.how.Agg? then Aggregate(l.how, vs) else if vs == [] then Null else vs[0]
  }

  /** The row that holds vals[i] under names[i], a later name overriding an equal earlier one. */
  function RowOf<K, V>(names: seq<K>, vals: seq<V>): map<K, V>
    requires |names| == |vals|
  {
    if names == [] then map[]
    else var n := |names| - 1; RowOf(names[..n], vals[..n])[names[n] := vals[n]]
  }

  /** A row is what its cells say: names[i] holds vals[i] and nothing else is there. */
  ghost predicate HasCells<K(!new), V>(row: map<K, V>, names: seq<K>, vals: seq<V>) {
    && |names| == |vals|
    && (forall a :: a in row <==> a in names)
    && (forall i :: 0 <= i < |names| ==> names[i] in row && row[names[i]] == vals[i])
  }

  lemma {:induction false} RowOfHasCells<K(!new), V>(names: seq<K>, vals: seq<V>)
    requires |names| == |vals| && forall i, j :: 0 <= i < j < |names| ==> names[i] != names[j]
    ensures HasCells(RowOf(names, vals), names, vals)
  {
    if names != [] {
      var n := |names| - 1;
      RowOfHasCells(names[..n], vals[..n]);
      assert names == names[..n] + [names[n]];
      forall i | 0 <= i < n ensures RowOf(names, vals)[names[i]] == vals[i] { assert names[..n][i] == names[i]; }
    }
  }

  lemma {:induction false} CellsDetermineRow<K(!new), V>(row: map<K, V>, other: map<K, V>, names: seq<K>, vals: seq<V>)
    requires HasCells(row, names, vals) && HasCells(other, names, vals)
    ensures row == other
  {
    forall a | a in row ensures a in other && row[a] == other[a] {
      var i :| 0 <= i < |names| && names[i] == a;
    }
  }

  lemma {:induction false} CellsConcatenate<K(!new), V>(left: map<K, V>, right: map<K, V>, ns: seq<K>, vs: seq<V>,
          ms: seq<K>, ws: seq<V>)
    requires HasCells(left, ns, vs) && HasCells(right, ms, ws)
    requires forall i, j :: 0 <= i < |ns| && 0 <= j < |ms| ==> ns[i] != ms[j]
    ensures HasCells(left + right, ns + ms, vs + ws)
  {
    forall i | 0 <= i < |ns + ms| ensures (ns + ms)[i] in left + right && (left + right)[(ns + ms)[i]] == (vs + ws)[i] {
      if i < |ns| {
        assert (ns + ms)[i] == ns[i] && ns[i] !in ms;
      } else {
        assert (ns + ms)[i] == ms[i - |ns|];
      }
    }
  }

  function Aliases(ls: seq<Label>): (names: seq<string>)
    ensures |names| == |ls|
  {
    seq(|ls|, i requires 0 <= i < |ls| => ls[i].alias)
  }

  function GroupCells(ls: seq<Label>, items: seq<seq<Value>>): (vs: seq<Value>)
    requires forall k :: 0 <= k < |items| ==> |items[k]| == |ls|
    ensures |vs| == |ls|
  {
    seq(|ls|, i requires 0 <= i < |ls| => GroupCell(ls[i], CellsAt(items, i)))
  }

  /** The output row of one group, whose items hold one value for each label. */
  function GroupRow(ls: seq<Label>, items: seq<seq<Value>>): OutRow
    requires forall k :: 0 <= k < |items| ==> |items[k]| == |ls|
  {
    RowOf(Aliases(ls), GroupCells(ls, items))
  }

  /** The output row of one table row. */
  function PlainRow(ls: seq<Label>, vs: seq<Value>): OutRow
    requires |vs| == |ls|
  {
    RowOf(Aliases(ls), vs)
  }

  predicate CellBefore(v: Value, w: Value, desc: bool) {
    if desc then !w.Null? && (v.Null? || Less(w, v)) else !v.Null? && (w.Null? || Less(v, w))
  }

  /** Lexicographic comparison of ORDER BY keys. */
  predicate Before(k: seq<Value>, l: seq<Value>, desc: seq<bool>)
    decreases |desc|
  {
    && desc != [] && k != [] && l != []
    && (CellBefore(k[0], l[0], desc[0]) || (!CellBefore(l[0], k[0], desc[0]) && Before(k[1..], l[1..], desc[1..])))
  }

  lemma {:induction false} CellBeforeOrder(u: Value, v: Value, w: Value, d: bool)
    ensures !CellBefore(u, u, d)
    ensures CellBefore(u, v, d) ==> !CellBefore(v, u, d)
    ensures !CellBefore(u, v, d) && !CellBefore(v, u, d) ==> u == v
    ensures CellBefore(u, v, d) && CellBefore(v, w, d) ==> CellBefore(u, w, d)
  {
    LessIsStrictTotalOrder(u, v, w);
    LessIsStrictTotalOrder(w, v, u);
  }

  /** Not-before is transitive, which is what insertion needs to keep a list sorted. */
  lemma {:induction false} NotBeforeTransitive(a: seq<Value>, b: seq<Value>, c: seq<Value>, desc: seq<bool>)
    requires |a| == |b| == |c| == |desc|
    requires !Before(b, a, desc) && !Before(c, b, desc)
    ensures !Before(c, a, desc)
    decreases |desc|
  {
    if desc != [] {
      CellBeforeOrder(a[0], b[0], c[0], desc[0]);
      CellBeforeOrder(c[0], a[0], b[0], desc[0]);
      CellBeforeOrder(b[0], c[0], a[0], desc[0]);
      if !Before(b[1..], a[1..], desc[1..]) && !Before(c[1..], b[1..], desc[1..]) {
        NotBeforeTransitive(a[1..], b[1..], c[1..], desc[1..]);
      }
    }
  }

  lemma {:induction false} BeforeAsymmetric(a: seq<Value>, b: seq<Value>, desc: seq<bool>)
    requires |a| == |b| == |desc|
    requires Before(a, b, desc)
    ensures !Before(b, a, desc)
    ensures a != b
    decreases |desc|
  {
    CellBeforeOrder(a[0], b[0], a[0], desc[0]);
    if !CellBefore(a[0], b[0], desc[0]) { BeforeAsymmetric(a[1..], b[1..], desc[1..]); }
  }

  /** Puts r behind every row it does not come before. */
  function Insert<T>(rows: seq<Keyed<T>>, r: Keyed<T>, desc: seq<bool>): seq<Keyed<T>> {
    if rows == [] then [r]
    else
      var n := |rows| - 1;
      if Before(r.key, rows[n].key, desc) then Insert(rows[..n], r, desc) + [rows[n]] else rows + [r]
  }

  function Sort<T>(rows: seq<Keyed<T>>, desc: seq<bool>): seq<Keyed<T>> {
    if rows == [] then []
    else Insert(Sort(rows[..|rows| - 1], desc), rows[|rows| - 1], desc)
  }

  ghost predicate KeysFit<T>(rows: seq<Keyed<T>>, desc: seq<bool>) {
    forall i :: 0 <= i < |rows| ==> |rows[i].key| == |desc|
  }

  ghost predicate Sorted<T>(rows: seq<Keyed<T>>, desc: seq<bool>) {
    forall i, j :: 0 <= i < j < |rows| ==> !Before(rows[j].key, rows[i].key, desc)
  }

  lemma {:induction false} InsertMembers<T>(rows: seq<Keyed<T>>, r: Keyed<T>, desc: seq<bool>, x: Keyed<T>)
    ensures x in Insert(rows, r, desc) <==> x in rows || x == r
  {
    if rows != [] {
      var n := |rows| - 1;
      InsertMembers(rows[..n], r, desc, x);
      assert rows == rows[..n] + [rows[n]];
    }
  }

  lemma {:induction false} InsertKeepsSorted<T>(rows: seq<Keyed<T>>, r: Keyed<T>, desc: seq<bool>)
    requires KeysFit(rows, desc) && |r.key| == |desc| && Sorted(rows, desc)
    ensures KeysFit(Insert(rows, r, desc), desc) && Sorted(Insert(rows, r, desc), desc)
  {
    if rows != [] {
      var n := |rows| - 1;
      if Before(r.key, rows[n].key, desc) {
        InsertKeepsSorted(rows[..n], r, desc);
        BeforeAsymmetric(r.key, rows[n].key, desc);
        var front := Insert(rows[..n], r, desc);
        forall i | 0 <= i < |front| ensures !Before(rows[n].key, front[i].key, desc) {
          InsertMembers(rows[..n], r, desc, front[i]);
          if front[i] != r {
            var m :| 0 <= m < n && rows[..n][m] == front[i];
            assert rows[m] == front[i];
          }
        }
      } else {
        forall i | 0 <= i < |rows| ensures !Before(r.key, rows[i].key, desc) {
          if i < n { NotBeforeTransitive(rows[i].key, rows[n].key, r.key, desc); }
        }
      }
    }
  }

  lemma {:induction false} InsertItemsAt<T>(rows: seq<Keyed<T>>, r: Keyed<T>, desc: seq<bool>, k: seq<Value>)
    requires KeysFit(rows, desc) && |r.key| == |desc|
    ensures ItemsAt(Insert(rows, r, desc), k) == ItemsAt(rows + [r], k)
  {
    ItemsAtAppend(rows, r, k);
    if rows != [] {
      var n := |rows| - 1;
      if Before(r.key, rows[n].key, desc) {
        BeforeAsymmetric(r.key, rows[n].key, desc);
        InsertItemsAt(rows[..n], r, desc, k);
        ItemsAtAppend(Insert(rows[..n], r, desc), rows[n], k);
        ItemsAtAppend(rows[..n], r, k);
        ItemsAtAppend(rows[..n], rows[n], k);
        assert rows == rows[..n] + [rows[n]];
      }
    }
  }

  /** ORDER BY sorts, loses and invents nothing, and is stable: for every key, the rows that
      carry it come out in the order in which they went in. */
  lemma {:induction false} SortIsStable<T>(rows: seq<Keyed<T>>, desc: seq<bool>)
    requires KeysFit(rows, desc)
    ensures KeysFit(Sort(rows, desc), desc) && Sorted(Sort(rows, desc), desc)
    ensures forall k :: ItemsAt(Sort(rows, desc), k) == ItemsAt(rows, k)
    ensures forall x :: x in Sort(rows, desc) <==> x in rows
  {
    if rows != [] {
      var n := |rows| - 1;
      var init, last := Sort(rows[..n], desc), rows[n];
      SortIsStable(rows[..n], desc);
      InsertKeepsSorted(init, last, desc);
      assert rows == rows[..n] + [last];
      forall x ensures x in Sort(rows, desc) <==> x in rows {
        InsertMembers(init, last, desc, x);
      }
      forall k ensures ItemsAt(Sort(rows, desc), k) == ItemsAt(rows, k) {
        InsertItemsAt(init, last, desc, k);
        ItemsAtAppend(init, last, k);
        ItemsAtAppend(rows[..n], last, k);
      }
    }
  }

  /** LIMIT and OFFSET. */
  function Page<T>(rows: seq<T>, limit: nat, offset: nat): seq<T> {
    if offset >= |rows| then []
    else if offset + limit >= |rows| then rows[offset..]
    else rows[offset..offset + limit]
  }

  function Items<T>(rows: seq<Keyed<T>>): seq<T> {
    seq(|rows|, i requires 0 <= i < |rows| => rows[i].item)
  }

  /** The part of a query after its rows are chosen: sort, then cut out the page. */
  function SortedPage(rows: seq<Keyed<OutRow>>, desc: seq<bool>, limit: nat, offset: nat): seq<OutRow> {
    Page(Items(Sort(rows, desc)), limit, offset)
  }

  function NamedCells(row: OutRow, names: seq<string>): seq<Value> {
    seq(|names|, i requires 0 <= i < |names| => Cell(row, names[i]))
  }

  /** Grouped rows keyed by the output columns they are sorted on.  Without GROUP BY an
      aggregate query has exactly one group, even over no rows. */
  function GroupedRows(ls: seq<Label>, grouped: bool, rows: seq<Keyed<seq<Value>>>,
          orderNames: seq<string>): seq<Keyed<OutRow>>
    requires forall i :: 0 <= i < |rows| ==> |rows[i].item| == |ls|
  {
    GroupItemsFit(rows, |ls|);
    var gs := if grouped then Groups(rows) else [Keyed([], Items(rows))];
    seq(|gs|, i requires 0 <= i < |gs| =>
      var out := GroupRow(ls, gs[i].item);
      Keyed(NamedCells(out, orderNames), out))
  }

  lemma {:induction false} GroupItemsFit(rows: seq<Keyed<seq<Value>>>, n: nat)
    requires forall i :: 0 <= i < |rows| ==> |rows[i].item| == n
    ensures forall g, k :: 0 <= g < |Groups(rows)| && 0 <= k < |Groups(rows)[g].item| ==> |Groups(rows)[g].item[k]| == n
  {
    forall g | 0 <= g < |Groups(rows)|
      ensures forall k :: 0 <= k < |Groups(rows)[g].item| ==> |Groups(rows)[g].item[k]| == n
    {
      ItemsAtFit(rows, Keys(rows)[g], n);
    }
  }

  lemma {:induction false} ItemsAtFit(rows: seq<Keyed<seq<Value>>>, key: seq<Value>, n: nat)
    requires forall i :: 0 <= i < |rows| ==> |rows[i].item| == n
    ensures forall k :: 0 <= k < |ItemsAt(rows, key)| ==> |ItemsAt(rows, key)[k]| == n
  {
    if rows != [] { ItemsAtFit(rows[1..], key, n); }
  }

  // ------------------------------------------------------------------ SELECT itself

  datatype Projection = Projection(output: Label, column: Option<Column>)

  datatype OrderKey = ByColumn(col: Column, desc: bool) | ByOutput(name: string, desc: bool)

  datatype Select = Select(
    projections: seq<Projection>, from: From, tests: seq<Test>, groupBy: seq<Column>,
    orderBy: seq<OrderKey>, limit: nat, offset: nat)

  function Labels(ps: seq<Projection>): (ls: seq<Label>)
    ensures |ls| == |ps|
  {
    seq(|ps|, i requires 0 <= i < |ps| => ps[i].output)
  }

  function Directions(os: seq<OrderKey>): (ds: seq<bool>)
    ensures |ds| == |os|
  {
    seq(|os|, i requires 0 <= i < |os| => os[i].desc)
  }

  function OutputNames(os: seq<OrderKey>): seq<string> {
    seq(|os|, i requires 0 <= i < |os| => if os[i].ByOutput? then os[i].name else "")
  }

  function ProjectedCells(j: Joined, ps: seq<Projection>): (vs: seq<Value>)
    ensures |vs| == |ps|
  {
    seq(|ps|, i requires 0 <= i < |ps| => if ps[i].column.Some? then Eval(j, ps[i].column.value) else Null)
  }

  function OrderCells(j: Joined, os: seq<OrderKey>): (vs: seq<Value>)
    ensures |vs| == |os|
  {
    seq(|os|, i requires 0 <= i < |os| => if os[i].ByColumn? then Eval(j, os[i].col) else Null)
  }

  function ColumnCells(j: Joined, cs: seq<Column>): (vs: seq<Value>)
    ensures |vs| == |cs|
  {
    seq(|cs|, i requires 0 <= i < |cs| => Eval(j, cs[i]))
  }

  predicate Aggregates(ps: seq<Projection>) {
    exists i :: 0 <= i < |ps| && ps[i].output.how.Agg?
  }

  function PageNumber(params: seq<Param>, ph: nat): nat {
    if 1 <= ph <= |params| && params[ph - 1].NumParam? && params[ph - 1].n >= 0.0 then params[ph - 1].n.Floor else 0
  }

  /** The rows kept, each with its GROUP BY cells and its projected cells. */
  function CellRows(cs: seq<Column>, ps: seq<Projection>, rows: seq<Joined>): (r: seq<Keyed<seq<Value>>>)
    ensures |r| == |rows| && forall i :: 0 <= i < |r| ==> |r[i].item| == |ps|
  {
    seq(|rows|, i requires 0 <= i < |rows| => Keyed(ColumnCells(rows[i], cs), ProjectedCells(rows[i], ps)))
  }

  /** One output row per row kept, keyed by its ORDER BY cells. */
  function PlainRows(q: Select, rows: seq<Joined>): (r: seq<Keyed<OutRow>>)
    ensures |r| == |rows|
  {
    seq(|rows|, i requires 0 <= i < |rows| =>
      Keyed(OrderCells(rows[i], q.orderBy), PlainRow(Labels(q.projections), ProjectedCells(rows[i], q.projections))))
  }

  function OutputRows(q: Select, rows: seq<Joined>): seq<Keyed<OutRow>> {
    if Aggregates(q.projections)
    then GroupedRows(Labels(q.projections), q.groupBy != [], CellRows(q.groupBy, q.projections, rows),
                     OutputNames(q.orderBy))
    else PlainRows(q, rows)
  }

  /** What the database answers to a statement with its bound parameters. */
  function Evaluate(q: Select, params: seq<Param>, db: Database): seq<OutRow> {
    SortedPage(OutputRows(q, Where(q.tests, FromRows(q.from, db), params, db.lower)), Directions(q.orderBy),
               PageNumber(params, q.limit), PageNumber(params, q.offset))
  }

  // -------------------------------------------------------- placeholders of a statement

  function TestPlaceholders(t: Test): seq<nat> {
    match t
    case Cmp(_, _, ph) => [ph]
    case In(_, phs) => phs
    case Between(_, lo, hi) => [lo, hi]
    case ILike(_, ph) => [ph]
    case IsNull(_) => []
    case IsNotNull(_) => []
  }

  function AllPlaceholders(ts: seq<Test>): seq<nat> {
    if ts == [] then [] else AllPlaceholders(ts[..|ts| - 1]) + TestPlaceholders(ts[|ts| - 1])
  }

  /** Every placeholder of a statement, in the order in which its text spells them. */
  function Placeholders(q: Select): seq<nat> {
    AllPlaceholders(q.tests) + [q.limit, q.offset]
  }
}
