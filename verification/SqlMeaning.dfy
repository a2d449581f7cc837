/** What ordering, paging and aggregating mean, told by positions, first differences and bounds. */
module SqlMeaning {
  import Strings
  import opened Sql

  // ------------------------------------------------------------------------- paging

  function Smaller(a: nat, b: nat): nat { if a <= b then a else b }

  /** A page is the stretch of the rows from `offset` on, `limit` long or as long as there are rows. */
  lemma {:induction false} PageIsWindow<T>(rows: seq<T>, limit: nat, offset: nat)
    ensures var page := Page(rows, limit, offset);
            && |page| == Smaller(limit, if |rows| <= offset then 0 else |rows| - offset)
            && forall i :: 0 <= i < |page| ==> offset + i < |rows| && page[i] == rows[offset + i]
  {
  }

  /** Row `i` of the answer is row `offset + i` of the sorted rows. */
  lemma {:induction false} AnswerIsWindow(rows: seq<Keyed<OutRow>>, desc: seq<bool>, limit: nat, offset: nat)
    requires KeysFit(rows, desc)
    ensures var sorted, answer := Sort(rows, desc), SortedPage(rows, desc, limit, offset);
            && |sorted| == |rows| && Sorted(sorted, desc)
            && |answer| == Smaller(limit, if |rows| <= offset then 0 else |rows| - offset)
            && forall i :: 0 <= i < |answer| ==> offset + i < |rows| && answer[i] == sorted[offset + i].item
  {
    SortIsStable(rows, desc);
    SortKeepsLength(rows, desc);
    PageIsWindow(Items(Sort(rows, desc)), limit, offset);
  }

  lemma {:induction false} SortKeepsLength<T>(rows: seq<Keyed<T>>, desc: seq<bool>)
    ensures |Sort(rows, desc)| == |rows| && multiset(Sort(rows, desc)) == multiset(rows)
  {
    if rows != [] {
      var n := |rows| - 1;
      SortKeepsLength(rows[..n], desc);
      InsertAddsOne(Sort(rows[..n], desc), rows[n], desc);
      assert rows == rows[..n] + [rows[n]];
    }
  }

  lemma {:induction false} InsertAddsOne<T>(rows: seq<Keyed<T>>, r: Keyed<T>, desc: seq<bool>)
    ensures |Insert(rows, r, desc)| == |rows| + 1 && multiset(Insert(rows, r, desc)) == multiset(rows) + multiset{r}
  {
    if rows != [] {
      var n := |rows| - 1;
      InsertAddsOne(rows[..n], r, desc);
      assert rows == rows[..n] + [rows[n]];
    }
  }

  // ------------------------------------------------------------------------- order

  /** Texts are ordered by their first difference, a text that another one continues coming before it. */
  predicate TextBefore(s: string, t: string) {
    (s <= t && s != t) || exists i :: 0 <= i < |s| && i < |t| && DiffersFirst(s, t, i) && s[i] < t[i]
  }

  predicate DiffersFirst(s: string, t: string, i: nat) {
    i < |s| && i < |t| && s[i] != t[i] && forall j :: 0 <= j < i ==> s[j] == t[j]
  }

  lemma {:induction false} LessIsTextBefore(s: string, t: string)
    ensures Strings.Less(s, t) <==> TextBefore(s, t)
  {
    if s != "" && t != "" {
      if s[0] == t[0] {
        LessIsTextBefore(s[1..], t[1..]);
        SkipFirst(s, t);
      } else {
        assert DiffersFirst(s, t, 0);
      }
    }
  }

  lemma {:induction false} SkipFirst(s: string, t: string)
    requires s != "" && t != "" && s[0] == t[0]
    ensures TextBefore(s, t) <==> TextBefore(s[1..], t[1..])
  {
    assert s == [s[0]] + s[1..] && t == [t[0]] + t[1..];
    forall i | 1 <= i < |s| && i < |t| ensures DiffersFirst(s, t, i) <==> DiffersFirst(s[1..], t[1..], i - 1) {
      assert forall j :: 1 <= j < |s| ==> s[j] == s[1..][j - 1];
      assert forall j :: 1 <= j < |t| ==> t[j] == t[1..][j - 1];
      if DiffersFirst(s[1..], t[1..], i - 1) {
        forall j | 0 <= j < i ensures s[j] == t[j] {
          if j > 0 { assert s[1..][j - 1] == t[1..][j - 1]; }
        }
      }
    }
    if i :| 0 <= i < |s| && i < |t| && DiffersFirst(s, t, i) && s[i] < t[i] {
      assert DiffersFirst(s[1..], t[1..], i - 1);
    }
    if i :| 0 <= i < |s[1..]| && i < |t[1..]| && DiffersFirst(s[1..], t[1..], i) && s[1..][i] < t[1..][i] {
      assert DiffersFirst(s, t, i + 1);
    }
  }

  /** `v` comes before `w` in ascending order: numbers and days by size, texts as above, NULL last. */
  predicate Ascends(v: Value, w: Value) {
    || (v.Num? && w.Num? && v.n < w.n)
    || (v.Day? && w.Day? && v.day < w.day)
    || (v.Text? && w.Text? && TextBefore(v.s, w.s))
    || (!v.Null? && w.Null?)
  }

  predicate SameKind(v: Value, w: Value) {
    v.Null? || w.Null? || (v.Num? && w.Num?) || (v.Text? && w.Text?) || (v.Day? && w.Day?)
  }

  /** Descending order is the reverse of ascending order, so that NULL comes first. */
  lemma {:induction false} CellOrder(v: Value, w: Value)
    requires SameKind(v, w)
    ensures CellBefore(v, w, false) <==> Ascends(v, w)
    ensures CellBefore(v, w, true) <==> Ascends(w, v)
  {
    if v.Text? && w.Text? {
      LessIsTextBefore(v.s, w.s);
      LessIsTextBefore(w.s, v.s);
    }
  }

  /** The first key on which two rows differ decides. */
  lemma {:induction false} KeyOrder(k: seq<Value>, l: seq<Value>, desc: seq<bool>)
    requires |k| == |l| == |desc|
    ensures Before(k, l, desc) <==> exists i :: Decides(k, l, desc, i)
    decreases |desc|
  {
    if desc != [] {
      CellBeforeOrder(k[0], l[0], k[0], desc[0]);
      CellBeforeOrder(l[0], k[0], l[0], desc[0]);
      KeyOrder(k[1..], l[1..], desc[1..]);
      DecidesLater(k, l, desc);
      if CellBefore(k[0], l[0], desc[0]) { assert Decides(k, l, desc, 0); }
    }
  }

  predicate Decides(k: seq<Value>, l: seq<Value>, desc: seq<bool>, i: int)
    requires |k| == |l| == |desc|
  {
    0 <= i < |desc| && CellBefore(k[i], l[i], desc[i]) && forall j :: 0 <= j < i ==> k[j] == l[j]
  }

  lemma {:induction false} DecidesLater(k: seq<Value>, l: seq<Value>, desc: seq<bool>)
    requires |k| == |l| == |desc| && desc != []
    ensures (exists i :: i > 0 && Decides(k, l, desc, i)) <==>
            k[0] == l[0] && exists i :: Decides(k[1..], l[1..], desc[1..], i)
  {
    if i :| i > 0 && Decides(k, l, desc, i) { assert Decides(k[1..], l[1..], desc[1..], i - 1); }
    if k[0] == l[0] {
      if i :| Decides(k[1..], l[1..], desc[1..], i) {
        forall j | 0 <= j < i + 1 ensures k[j] == l[j] {
          if j > 0 { assert k[1..][j - 1] == l[1..][j - 1]; }
        }
        assert Decides(k, l, desc, i + 1);
      }
    }
  }

  // -------------------------------------------------------------- three-valued logic

  /** False is below unknown, and unknown below true. */
  function Level(t: Truth): nat {
    match t case False => 0 case Unknown => 1 case True => 2
  }

  /** AND gives the lesser truth value, OR the greater one; a comparison is unknown exactly when it meets a NULL. */
  lemma {:induction false} TruthTables(a: Truth, b: Truth, op: CmpOp, v: Value, w: Value)
    ensures Level(And(a, b)) == Smaller(Level(a), Level(b))
    ensures Level(a) + Level(b) == Level(And(a, b)) + Level(Or(a, b))
    ensures Compare(op, v, w) == Unknown <==> v == Null || w == Null
  {
  }

  // --------------------------------------------------------------------- aggregates

  lemma {:induction false} NumbersAre(vs: seq<Value>, n: real)
    ensures multiset(NumbersOf(vs))[n] == multiset(vs)[Num(n)]
  {
    if vs != [] {
      assert vs == [vs[0]] + vs[1..];
      NumbersAre(vs[1..], n);
    }
  }

  lemma {:induction false} NonNullCounts(vs: seq<Value>)
    ensures NonNull(vs) + multiset(vs)[Null] == |vs|
  {
    if vs != [] {
      assert vs == [vs[0]] + vs[1..];
      NonNullCounts(vs[1..]);
    }
  }

  lemma {:induction false} TotalAdds(ms: seq<real>, ns: seq<real>)
    ensures Total(ms + ns) == Total(ms) + Total(ns) && Total([]) == 0.0 && forall n :: Total([n]) == n
  {
    if ms == [] {
      assert ms + ns == ns;
    } else {
      assert (ms + ns)[1..] == ms[1..] + ns;
      TotalAdds(ms[1..], ns);
    }
    forall n ensures Total([n]) == n { assert [n][1..] == []; }
  }

  lemma {:induction false} ExtremeIs(ns: seq<real>, greatest: bool)
    requires ns != []
    ensures Extreme(ns, greatest) in ns
    ensures forall n :: n in ns ==> if greatest then n <= Extreme(ns, greatest) else Extreme(ns, greatest) <= n
  {
    if |ns| > 1 {
      ExtremeIs(ns[1..], greatest);
      assert ns == [ns[0]] + ns[1..];
    }
  }

  function CountOf(vs: seq<Value>): Value { Aggregate(Agg(Count, false), vs) }

  function CountAll(vs: seq<Value>): Value { Aggregate(Agg(Count, true), vs) }

  /** COUNT(*) counts the rows, COUNT of a column those that are not NULL. */
  lemma {:induction false} CountMeans(vs: seq<Value>)
    ensures CountAll(vs) == Num(|vs| as real) && CountOf(vs) == Num((|vs| - multiset(vs)[Null]) as real)
  {
    NonNullCounts(vs);
  }

  /** The other aggregates are of the numbers among the values, and NULL when there are none: the sum, and the
      sum divided by how many there are, */
  lemma {:induction false} SumAndAverageMean(vs: seq<Value>, star: bool)
    ensures var ns := NumbersOf(vs);
            var sum, avg := Aggregate(Agg(Sum, star), vs), Aggregate(Agg(Avg, star), vs);
            if ns == [] then sum == avg == Null
            else sum == Num(Total(ns)) && avg == Num(Total(ns) / |ns| as real)
  {
  }

  /** the least of them, and the greatest. */
  lemma {:induction false} LeastAndGreatestMean(vs: seq<Value>, star: bool)
    ensures var ns := NumbersOf(vs);
            var min, max := Aggregate(Agg(Min, star), vs), Aggregate(Agg(Max, star), vs);
            if ns == [] then min == max == Null
            else min.Num? && max.Num? && min.n in ns && max.n in ns && forall n :: n in ns ==> min.n <= n <= max.n
  {
    var ns := NumbersOf(vs);
    if ns != [] {
      ExtremeIs(ns, false);
      ExtremeIs(ns, true);
    }
  }
}
