/** `canonicalize` over an object graph: JavaScript values may share sub-objects and may be cyclic,
    so a payload is a value that points into a heap of arrays and objects. */
module PayloadGraph {
  import opened Wrappers
  import opened CanonicalJson
  import Strings

  datatype Value =
    | Null
    | Bool(b: bool)
    | Number(finite: bool, text: string)
    | Str(s: string)
    | Other               // undefined, a function, a symbol or a big integer
    | Ref(id: nat)

  datatype Entry = Entry(key: string, value: Value)

  datatype Node =
    | Array(items: seq<Value>)
    | Object(entries: seq<Entry>)
    | Exotic              // an instance of a class: a Date, a Map, ...

  datatype Refusal = NotFinite | Cycle | NotJson | ReservedKey | NotAnObject | EmptyPayload

  type Heap = map<nat, Node>

  predicate ValidValue(g: Heap, v: Value) {
    match v
    case Ref(id) => id in g
    case Number(finite, text) => finite ==> NumberText(text)
    case _ => true
  }

  predicate DistinctEntries(es: seq<Entry>) {
    forall i, j :: 0 <= i < j < |es| ==> es[i].key != es[j].key
  }

  predicate ValidNode(g: Heap, n: Node) {
    match n
    case Array(items) => forall v :: v in items ==> ValidValue(g, v)
    case Object(entries) => DistinctEntries(entries) && forall e :: e in entries ==> ValidValue(g, e.value)
    case Exotic => true
  }

  /** No dangling reference; an object has one value per key. */
  predicate ValidHeap(g: Heap) {
    forall id :: id in g ==> ValidNode(g, g[id])
  }

  predicate Reserved(key: string) {
    key == "__proto__" || key == "constructor" || key == "prototype"
  }

  // ------------------------------------------------------------------ sorted keys

  function InsertEntry(es: seq<Entry>, e: Entry): seq<Entry> {
    if es == [] || Strings.Less(e.key, es[0].key) then [e] + es else [es[0]] + InsertEntry(es[1..], e)
  }

  /** The entries in the order of `Object.keys(value).sort()`. */
  function SortEntries(es: seq<Entry>): seq<Entry> {
    if es == [] then [] else InsertEntry(SortEntries(es[1..]), es[0])
  }

  predicate Ascending(es: seq<Entry>) {
    forall i, j :: 0 <= i < j < |es| ==> Strings.Less(es[i].key, es[j].key)
  }

  lemma {:induction false} InsertEntryAscends(es: seq<Entry>, e: Entry)
    requires Ascending(es) && forall x :: x in es ==> x.key != e.key
    ensures Ascending(InsertEntry(es, e))
    ensures forall x :: x in InsertEntry(es, e) <==> x in es || x == e
  {
    if es != [] && !Strings.Less(e.key, es[0].key) {
      Strings.LessIsStrictTotalOrder(e.key, es[0].key, "");
      InsertEntryAscends(es[1..], e);
      assert es == [es[0]] + es[1..];
      var t := InsertEntry(es[1..], e);
      forall j | 0 <= j < |t| ensures Strings.Less(es[0].key, t[j].key) { assert t[j] in t; }
    } else if es != [] {
      forall j | 0 <= j < |es| ensures Strings.Less(e.key, es[j].key) {
        Strings.LessIsStrictTotalOrder(e.key, es[0].key, es[j].key);
      }
    }
  }

  lemma {:induction false} SortEntriesAscends(es: seq<Entry>)
    requires DistinctEntries(es)
    ensures Ascending(SortEntries(es))
    ensures forall x :: x in SortEntries(es) <==> x in es
  {
    if es != [] {
      SortEntriesAscends(es[1..]);
      assert es == [es[0]] + es[1..];
      forall x | x in es[1..] ensures x.key != es[0].key {
        var i :| 0 <= i < |es[1..]| && es[1..][i] == x;
        assert es[i + 1] == x;
      }
      InsertEntryAscends(SortEntries(es[1..]), es[0]);
    }
  }

  // ----------------------------------------------------------------- specification

  /** `canonical[key] = value` for a new key: an index key joins the index keys in numeric order, any
      other key is enumerated last. */
  function SetKey(fs: seq<Field>, f: Field): seq<Field> {
    if IndexKey(f.key) then Insert(fs, f) else fs + [f]
  }

  /** The canonical form of `v`, met below the arrays and objects of `path`. */
  function Canonicalize(g: Heap, v: Value, path: set<nat>): Result<Json, Refusal>
    requires ValidHeap(g) && ValidValue(g, v) && path <= g.Keys
    decreases |g.Keys - path|, 1, 0
  {
    match v
    case Null => Ok(JNull)
    case Bool(b) => Ok(JBool(b))
    case Str(s) => Ok(JStr(s))
    case Number(finite, text) => if finite then Ok(JNum(text)) else Err(NotFinite)
    case Other => Err(NotJson)
    case Ref(id) =>
      match g[id]
      case Exotic => Err(NotJson)
      case Array(items) =>
        if id in path then Err(Cycle) else
        PathGrows(g, id, path);
        CanonicalizeItems(g, items, [], path + {id})
      case Object(entries) =>
        if id in path then Err(Cycle) else
        PathGrows(g, id, path);
        SortEntriesAscends(entries);
        CanonicalizeEntries(g, SortEntries(entries), [], path + {id})
  }

  function CanonicalizeItems(g: Heap, items: seq<Value>, done: seq<Json>, path: set<nat>): Result<Json, Refusal>
    requires ValidHeap(g) && (forall v :: v in items ==> ValidValue(g, v)) && path <= g.Keys
    decreases |g.Keys - path|, 2, |items|
  {
    if items == [] then Ok(JArr(done)) else
    match Canonicalize(g, items[0], path)
    case Err(e) => Err(e)
    case Ok(c) => CanonicalizeItems(g, items[1..], done + [c], path)
  }

  function CanonicalizeEntries(g: Heap, entries: seq<Entry>, done: seq<Field>, path: set<nat>): Result<Json, Refusal>
    requires ValidHeap(g) && (forall e :: e in entries ==> ValidValue(g, e.value)) && path <= g.Keys
    decreases |g.Keys - path|, 2, |entries|
  {
    if entries == [] then Ok(JObj(done)) else
    if Reserved(entries[0].key) then Err(ReservedKey) else
    match Canonicalize(g, entries[0].value, path)
    case Err(e) => Err(e)
    case Ok(c) => CanonicalizeEntries(g, entries[1..], SetKey(done, Field(entries[0].key, c)), path)
  }

  lemma {:induction false} PathGrows(g: Heap, id: nat, path: set<nat>)
    requires id in g && id !in path
    ensures |g.Keys - (path + {id})| < |g.Keys - path|
  {
    assert g.Keys - path == (g.Keys - (path + {id})) + {id};
  }

  /** `canonicalPayload`: only a non-empty plain object is a payload. */
  function CanonicalPayload(g: Heap, v: Value): Result<Json, Refusal>
    requires ValidHeap(g) && ValidValue(g, v)
  {
    if !(v.Ref? && g[v.id].Object?) then Err(NotAnObject) else
    match Canonicalize(g, v, {})
    case Err(e) => Err(e)
    case Ok(c) => if c == JObj([]) then Err(EmptyPayload) else Ok(c)
  }

  // ---------------------------------------------------------------- the algorithm

  /** The set of arrays and objects being visited, shared by all recursive calls. */
  class Visitor {
    var seen: set<nat>

    constructor ()
      ensures seen == {}
    {
      seen := {};
    }

    method Visit(g: Heap, v: Value) returns (r: Result<Json, Refusal>)
      requires ValidHeap(g) && ValidValue(g, v) && seen <= g.Keys
      modifies this
      ensures r == Canonicalize(g, v, old(seen))
      ensures r.Ok? ==> seen == old(seen)
      decreases |g.Keys - seen|, 1
    {
      match v {
        case Null => return Ok(JNull);
        case Bool(b) => return Ok(JBool(b));
        case Str(s) => return Ok(JStr(s));
        case Number(finite, text) => return if finite then Ok(JNum(text)) else Err(NotFinite);
        case Other => return Err(NotJson);
        case Ref(id) =>
          match g[id] {
            case Exotic => return Err(NotJson);
            case Array(items) =>
              if id in seen { return Err(Cycle); }
              PathGrows(g, id, seen);
              r := VisitItems(g, id, items);
            case Object(entries) =>
              if id in seen { return Err(Cycle); }
              PathGrows(g, id, seen);
              r := VisitEntries(g, id, entries);
          }
      }
    }

    method VisitItems(g: Heap, id: nat, items: seq<Value>) returns (r: Result<Json, Refusal>)
      requires ValidHeap(g) && id in g && id !in seen && seen <= g.Keys
      requires forall v :: v in items ==> ValidValue(g, v)
      modifies this
      ensures r == CanonicalizeItems(g, items, [], old(seen) + {id})
      ensures r.Ok? ==> seen == old(seen)
      decreases |g.Keys - seen|, 0
    {
      PathGrows(g, id, seen);
      seen := seen + {id};
      var canonical: seq<Json> := [];
      var i := 0;
      while i < |items|
        invariant 0 <= i <= |items| && seen == old(seen) + {id}
        invariant CanonicalizeItems(g, items, [], seen) == CanonicalizeItems(g, items[i..], canonical, seen)
      {
        var c := Visit(g, items[i]);
        if c.Err? { return c; }
        canonical := canonical + [c.value];
        i := i + 1;
        assert items[i - 1..][1..] == items[i..];
      }
      seen := seen - {id};
      return Ok(JArr(canonical));
    }

    method VisitEntries(g: Heap, id: nat, entries: seq<Entry>) returns (r: Result<Json, Refusal>)
      requires ValidHeap(g) && id in g && id !in seen && seen <= g.Keys
      requires DistinctEntries(entries) && forall e :: e in entries ==> ValidValue(g, e.value)
      modifies this
      ensures forall e :: e in SortEntries(entries) ==> ValidValue(g, e.value)
      ensures r == CanonicalizeEntries(g, SortEntries(entries), [], old(seen) + {id})
      ensures r.Ok? ==> seen == old(seen)
      decreases |g.Keys - seen|, 0
    {
      PathGrows(g, id, seen);
      SortEntriesAscends(entries);
      seen := seen + {id};
      var canonical: seq<Field> := [];
      var sorted := SortEntries(entries);
      var i := 0;
      while i < |sorted|
        invariant 0 <= i <= |sorted| && seen == old(seen) + {id}
        invariant CanonicalizeEntries(g, sorted, [], seen) == CanonicalizeEntries(g, sorted[i..], canonical, seen)
      {
        if Reserved(sorted[i].key) { return Err(ReservedKey); }
        var c := Visit(g, sorted[i].value);
        if c.Err? { return c; }
        canonical := SetKey(canonical, Field(sorted[i].key, c.value));
        i := i + 1;
        assert sorted[i - 1..][1..] == sorted[i..];
      }
      seen := seen - {id};
      return Ok(JObj(canonical));
    }
  }

  // ------------------------------------------------- what is accepted: walks in the heap

  /** Values held directly by an array or object. */
  function Children(n: Node): seq<Value> {
    match n
    case Array(items) => items
    case Object(entries) => seq(|entries|, i requires 0 <= i < |entries| => entries[i].value)
    case Exotic => []
  }

  predicate Leaf(v: Value) {
    !v.Other? && (v.Number? ==> v.finite)
  }

  predicate CleanNode(n: Node) {
    && !n.Exotic?
    && (forall v :: v in Children(n) ==> Leaf(v))
    && (n.Object? ==> forall e :: e in n.entries ==> !Reserved(e.key))
  }

  /** `p` follows references downwards, starting at the array or object `v` refers to. */
  predicate Walk(g: Heap, v: Value, p: seq<nat>)
    decreases |p|
  {
    p != [] && v == Ref(p[0]) && p[0] in g &&
    (|p| > 1 ==> exists c :: c in Children(g[p[0]]) && Walk(g, c, p[1..]))
  }

  predicate NoRepeats(p: seq<nat>) {
    forall i, j :: 0 <= i < j < |p| ==> p[i] != p[j]
  }

  predicate AcceptableWalk(g: Heap, p: seq<nat>, path: set<nat>)
    requires p != []
  {
    NoRepeats(p) && (forall id :: id in p ==> id !in path) && p[|p| - 1] in g && CleanNode(g[p[|p| - 1]])
  }

  /** Every walk from `v` avoids `path`, never comes back to where it was and ends in clean data. */
  ghost predicate Acceptable(g: Heap, v: Value, path: set<nat>) {
    && Leaf(v)
    && forall p :: Walk(g, v, p) ==> AcceptableWalk(g, p, path)
  }

  lemma {:induction false} ItemsOk(g: Heap, items: seq<Value>, done: seq<Json>, path: set<nat>)
    requires ValidHeap(g) && (forall v :: v in items ==> ValidValue(g, v)) && path <= g.Keys
    ensures CanonicalizeItems(g, items, done, path).Ok? <==> forall v :: v in items ==> Canonicalize(g, v, path).Ok?
    decreases |items|
  {
    if items != [] {
      assert items == [items[0]] + items[1..] && items[0] in items;
      var c := Canonicalize(g, items[0], path);
      if c.Ok? { ItemsOk(g, items[1..], done + [c.value], path); }
    }
  }

  lemma {:induction false} EntriesOk(g: Heap, entries: seq<Entry>, done: seq<Field>, path: set<nat>)
    requires ValidHeap(g) && (forall e :: e in entries ==> ValidValue(g, e.value)) && path <= g.Keys
    ensures CanonicalizeEntries(g, entries, done, path).Ok? <==>
            forall e :: e in entries ==> !Reserved(e.key) && Canonicalize(g, e.value, path).Ok?
    decreases |entries|
  {
    if entries != [] {
      assert entries == [entries[0]] + entries[1..];
      var c := Canonicalize(g, entries[0].value, path);
      if c.Ok? { EntriesOk(g, entries[1..], SetKey(done, Field(entries[0].key, c.value)), path); }
    }
  }

  lemma {:induction false} ChildrenAreValid(g: Heap, id: nat)
    requires ValidHeap(g) && id in g
    ensures forall c :: c in Children(g[id]) ==> ValidValue(g, c)
  {
    assert ValidNode(g, g[id]);
  }

  predicate AllowedKeys(n: Node) {
    n.Object? ==> forall e :: e in n.entries ==> !Reserved(e.key)
  }

  /** An array or object is accepted exactly when it is not on the path, its keys are allowed and
      every child is accepted below it. */
  lemma {:induction false} NodeOk(g: Heap, id: nat, path: set<nat>)
    requires ValidHeap(g) && id in g && path <= g.Keys
    ensures (forall c :: c in Children(g[id]) ==> ValidValue(g, c))
    ensures Canonicalize(g, Ref(id), path).Ok? <==>
            && id !in path && !g[id].Exotic? && AllowedKeys(g[id])
            && forall c :: c in Children(g[id]) ==> Canonicalize(g, c, path + {id}).Ok?
  {
    ChildrenAreValid(g, id);
    if id !in path && !g[id].Exotic? {
      match g[id] {
        case Array(items) => ItemsOk(g, items, [], path + {id});
        case Object(entries) =>
          SortEntriesAscends(entries);
          EntriesOk(g, SortEntries(entries), [], path + {id});
          var cs := Children(g[id]);
          if forall c :: c in cs ==> Canonicalize(g, c, path + {id}).Ok? {
            forall e | e in entries ensures Canonicalize(g, e.value, path + {id}).Ok? {
              var i :| 0 <= i < |entries| && entries[i] == e;
              assert cs[i] == e.value;
            }
          }
      }
    }
  }

  lemma {:induction false} AcceptedWalks(g: Heap, v: Value, path: set<nat>, p: seq<nat>)
    requires ValidHeap(g) && ValidValue(g, v) && path <= g.Keys && Canonicalize(g, v, path).Ok? && Walk(g, v, p)
    ensures AcceptableWalk(g, p, path)
    decreases |p|
  {
    var id := p[0];
    NodeOk(g, id, path);
    assert p == [id] + p[1..];
    if |p| > 1 {
      var c :| c in Children(g[id]) && Walk(g, c, p[1..]);
      AcceptedWalks(g, c, path + {id}, p[1..]);
      assert p[|p| - 1] == p[1..][|p| - 2];
      forall j | 1 <= j < |p| ensures p[j] != id { assert p[j] == p[1..][j - 1] && p[1..][j - 1] in p[1..]; }
    } else {
      forall c | c in Children(g[id]) ensures Leaf(c) { assert Canonicalize(g, c, path + {id}).Ok?; }
    }
  }

  lemma {:induction false} AcceptableIsAccepted(g: Heap, v: Value, path: set<nat>)
    requires ValidHeap(g) && ValidValue(g, v) && path <= g.Keys && Acceptable(g, v, path)
    ensures Canonicalize(g, v, path).Ok?
    decreases |g.Keys - path|
  {
    if v.Ref? {
      var id := v.id;
      assert Walk(g, v, [id]);
      assert id in [id] && [id][|[id]| - 1] == id;
      PathGrows(g, id, path);
      NodeOk(g, id, path);
      forall c | c in Children(g[id]) ensures Canonicalize(g, c, path + {id}).Ok? {
        forall q | Walk(g, c, q) ensures AcceptableWalk(g, q, path + {id}) { WalkFromParent(g, id, c, path, q); }
        AcceptableIsAccepted(g, c, path + {id});
      }
    }
  }

  lemma {:induction false} WalkFromParent(g: Heap, id: nat, c: Value, path: set<nat>, q: seq<nat>)
    requires id in g && c in Children(g[id]) && Walk(g, c, q) && Acceptable(g, Ref(id), path)
    ensures AcceptableWalk(g, q, path + {id})
  {
    var p := [id] + q;
    assert p[1..] == q;
    assert Walk(g, Ref(id), p);
    assert forall i :: 0 <= i < |q| ==> q[i] == p[i + 1];
    forall k | k in q ensures k !in path + {id} {
      var i :| 0 <= i < |q| && q[i] == k;
      assert p[i + 1] == k && k in p && p[0] != p[i + 1];
    }
    assert p[|p| - 1] == q[|q| - 1];
  }

  /** A payload is canonicalised exactly when no walk in it comes back to an array or object it has
      visited and everything reachable is plain JSON data under allowed keys.  Sharing without a
      cycle is accepted; a reachable cycle never is. */
  lemma {:induction false} AcceptsExactlyTheAcyclic(g: Heap, v: Value)
    requires ValidHeap(g) && ValidValue(g, v)
    ensures Canonicalize(g, v, {}).Ok? <==> Acceptable(g, v, {})
  {
    if Canonicalize(g, v, {}).Ok? {
      forall p | Walk(g, v, p) ensures AcceptableWalk(g, p, {}) { AcceptedWalks(g, v, {}, p); }
    }
    if Acceptable(g, v, {}) { AcceptableIsAccepted(g, v, {}); }
  }

  // --------------------------------------------------------------- what is returned

  /** `c` is `v` written out as a tree, up to the order of object keys. */
  ghost predicate Mirrors(g: Heap, v: Value, c: Json)
    decreases c
  {
    match v
    case Null => c == JNull
    case Bool(b) => c == JBool(b)
    case Number(finite, text) => finite && c == JNum(text)
    case Str(s) => c == JStr(s)
    case Other => false
    case Ref(id) =>
      id in g &&
      match g[id]
      case Exotic => false
      case Array(items) =>
        c.JArr? && |c.items| == |items| && forall i :: 0 <= i < |items| ==> Mirrors(g, items[i], c.items[i])
      case Object(entries) => c.JObj? && MirrorsFields(g, entries, c.fields)
  }

  ghost predicate MirrorsFields(g: Heap, entries: seq<Entry>, fs: seq<Field>)
    decreases fs
  {
    && (forall e :: e in entries ==> HasKey(fs, e.key))
    && (forall i :: 0 <= i < |fs| ==> MirrorsField(g, entries, fs[i]))
  }

  ghost predicate MirrorsField(g: Heap, entries: seq<Entry>, f: Field)
    decreases f
  {
    exists e :: e in entries && e.key == f.key && Mirrors(g, e.value, f.value)
  }

  /** Keys in enumeration order at every depth: nothing left for canonicalisation to do. */
  predicate Canonical(c: Json) {
    match c
    case JNum(text) => NumberText(text)
    case JArr(items) => forall i :: 0 <= i < |items| ==> Canonical(items[i])
    case JObj(fields) => Sorted(fields) && forall i :: 0 <= i < |fields| ==> Canonical(fields[i].value)
    case _ => true
  }

  lemma {:induction false} CanonicalIsFixed(c: Json)
    requires Canonical(c)
    ensures WellFormed(c) && Canon(c) == c
    decreases c
  {
    match c {
      case JArr(items) =>
        forall i | 0 <= i < |items| ensures WellFormed(items[i]) && Canon(items[i]) == items[i] {
          CanonicalIsFixed(items[i]);
        }
        assert CanonItems(items) == items;
      case JObj(fields) =>
        forall i | 0 <= i < |fields| ensures WellFormed(fields[i].value) && Canon(fields[i].value) == fields[i].value {
          CanonicalIsFixed(fields[i].value);
        }
        SortedIsDistinct(fields);
        SortedFieldsAreFixed(fields);
      case _ =>
    }
  }

  lemma {:induction false} SortedFieldsAreFixed(fs: seq<Field>)
    requires Sorted(fs) && forall i :: 0 <= i < |fs| ==> Canon(fs[i].value) == fs[i].value
    ensures CanonFields(fs) == fs
  {
    if fs != [] {
      SortedFieldsAreFixed(fs[1..]);
      assert fs == [fs[0]] + fs[1..];
    }
  }

  lemma {:induction false} AppendIsInsert(fs: seq<Field>, f: Field)
    requires forall i :: 0 <= i < |fs| ==> KeyLess(fs[i].key, f.key)
    ensures Insert(fs, f) == fs + [f]
  {
    if fs != [] {
      KeyOrder(fs[0].key, f.key, f.key);
      AppendIsInsert(fs[1..], f);
      assert fs == [fs[0]] + fs[1..];
    }
  }

  /** Inserting keys in code-unit order, an object enumerates them in `KeyLess` order. */
  lemma {:induction false} SetKeyIsInsert(fs: seq<Field>, f: Field)
    requires forall i :: 0 <= i < |fs| ==> Strings.Less(fs[i].key, f.key)
    ensures SetKey(fs, f) == Insert(fs, f) && !HasKey(fs, f.key)
  {
    if !IndexKey(f.key) { AppendIsInsert(fs, f); }
    forall i | 0 <= i < |fs| ensures fs[i].key != f.key { Strings.LessIsStrictTotalOrder(f.key, f.key, f.key); }
  }

  ghost predicate FromEntries(g: Heap, es: seq<Entry>, f: Field) {
    Canonical(f.value) && MirrorsField(g, es, f)
  }

  lemma {:induction false} CanonicalizeMirrors(g: Heap, v: Value, path: set<nat>)
    requires ValidHeap(g) && ValidValue(g, v) && path <= g.Keys && Canonicalize(g, v, path).Ok?
    ensures Mirrors(g, v, Canonicalize(g, v, path).value) && Canonical(Canonicalize(g, v, path).value)
    decreases |g.Keys - path|, 1, 0
  {
    if v.Ref? {
      var id := v.id;
      PathGrows(g, id, path);
      match g[id] {
        case Array(items) => ItemsMirror(g, items, [], items, path + {id});
        case Object(entries) =>
          SortEntriesAscends(entries);
          EntriesMirror(g, entries, SortEntries(entries), 0, [], path + {id});
      }
    }
  }

  lemma {:induction false} ItemsMirror(g: Heap, all: seq<Value>, done: seq<Json>, rest: seq<Value>, path: set<nat>)
    requires ValidHeap(g) && (forall v :: v in rest ==> ValidValue(g, v)) && path <= g.Keys
    requires |all| == |done| + |rest| && all[|done|..] == rest
    requires forall i :: 0 <= i < |done| ==> Mirrors(g, all[i], done[i]) && Canonical(done[i])
    requires CanonicalizeItems(g, rest, done, path).Ok?
    ensures var c := CanonicalizeItems(g, rest, done, path).value;
            && c.JArr? && |c.items| == |all| && Canonical(c)
            && forall i :: 0 <= i < |all| ==> Mirrors(g, all[i], c.items[i])
    decreases |g.Keys - path|, 2, |rest|
  {
    if rest != [] {
      CanonicalizeMirrors(g, rest[0], path);
      assert all[|done|] == rest[0];
      ItemsMirror(g, all, done + [Canonicalize(g, rest[0], path).value], rest[1..], path);
    }
  }

  /** `done` is the canonical object of the entries `before`. */
  ghost predicate Collected(g: Heap, before: seq<Entry>, done: seq<Field>) {
    && Sorted(done) && (forall i :: 0 <= i < |done| ==> FromEntries(g, before, done[i]))
    && forall e :: e in before ==> HasKey(done, e.key)
  }

  ghost predicate SameEntries(es: seq<Entry>, others: seq<Entry>) {
    forall e :: e in es <==> e in others
  }

  lemma {:induction false} EntriesMirror(g: Heap, all: seq<Entry>, sorted: seq<Entry>, n: nat, done: seq<Field>,
          path: set<nat>)
    requires ValidHeap(g) && path <= g.Keys && n <= |sorted| && forall e :: e in sorted ==> ValidValue(g, e.value)
    requires Ascending(sorted) && SameEntries(all, sorted) && Collected(g, sorted[..n], done)
    requires CanonicalizeEntries(g, sorted[n..], done, path).Ok?
    ensures var c := CanonicalizeEntries(g, sorted[n..], done, path).value;
            c.JObj? && Canonical(c) && MirrorsFields(g, all, c.fields)
    decreases |g.Keys - path|, 2, |sorted| - n
  {
    if n == |sorted| {
      assert sorted[..n] == sorted;
      DoneMirrors(g, all, sorted, done);
    } else {
      var e := sorted[n];
      NextEntry(g, sorted[n..], done, path);
      CanonicalizeMirrors(g, e.value, path);
      var f := Field(e.key, Canonicalize(g, e.value, path).value);
      EntriesStep(g, sorted, n, done, f);
      assert sorted[n..][1..] == sorted[n + 1..];
      EntriesMirror(g, all, sorted, n + 1, SetKey(done, f), path);
    }
  }

  lemma {:induction false} NextEntry(g: Heap, rest: seq<Entry>, done: seq<Field>, path: set<nat>)
    requires ValidHeap(g) && (forall e :: e in rest ==> ValidValue(g, e.value)) && path <= g.Keys
    requires rest != [] && CanonicalizeEntries(g, rest, done, path).Ok?
    ensures Canonicalize(g, rest[0].value, path).Ok?
    ensures CanonicalizeEntries(g, rest, done, path) ==
            var f := Field(rest[0].key, Canonicalize(g, rest[0].value, path).value);
            CanonicalizeEntries(g, rest[1..], SetKey(done, f), path)
  {
  }

  lemma {:induction false} DoneMirrors(g: Heap, all: seq<Entry>, before: seq<Entry>, done: seq<Field>)
    requires SameEntries(all, before) && Collected(g, before, done)
    ensures Canonical(JObj(done)) && MirrorsFields(g, all, done)
  {
    forall i | 0 <= i < |done| ensures MirrorsField(g, all, done[i]) && Canonical(done[i].value) {
      assert FromEntries(g, before, done[i]);
      var e :| e in before && e.key == done[i].key && Mirrors(g, e.value, done[i].value);
      assert e in all;
    }
  }

  lemma {:induction false} DoneKeysAreLess(g: Heap, sorted: seq<Entry>, n: nat, done: seq<Field>)
    requires n < |sorted| && Ascending(sorted) && Collected(g, sorted[..n], done)
    ensures forall i :: 0 <= i < |done| ==> Strings.Less(done[i].key, sorted[n].key)
  {
    forall i | 0 <= i < |done| ensures Strings.Less(done[i].key, sorted[n].key) {
      assert FromEntries(g, sorted[..n], done[i]);
      var e :| e in sorted[..n] && e.key == done[i].key && Mirrors(g, e.value, done[i].value);
    }
  }

  lemma {:induction false} FromMoreEntries(g: Heap, before: seq<Entry>, e: Entry, f: Field)
    requires FromEntries(g, before, f)
    ensures FromEntries(g, before + [e], f)
  {
    var x :| x in before && x.key == f.key && Mirrors(g, x.value, f.value);
    assert x in before + [e];
  }

  lemma {:induction false} CollectedStep(g: Heap, before: seq<Entry>, e: Entry, done: seq<Field>, f: Field)
    requires Collected(g, before, done) && forall i :: 0 <= i < |done| ==> Strings.Less(done[i].key, f.key)
    requires f.key == e.key && Canonical(f.value) && Mirrors(g, e.value, f.value)
    ensures Collected(g, before + [e], SetKey(done, f))
  {
    SetKeyIsInsert(done, f);
    InsertKeepsSorted(done, f);
    InsertMembers(done, f);
    var next := SetKey(done, f);
    forall i | 0 <= i < |next| ensures FromEntries(g, before + [e], next[i]) {
      if next[i] == f {
        assert e in before + [e];
      } else {
        FromMoreEntries(g, before, e, next[i]);
      }
    }
    forall x | x in before + [e] ensures HasKey(next, x.key) { InsertHasKeys(done, f, x.key); }
  }

  lemma {:induction false} EntriesStep(g: Heap, sorted: seq<Entry>, n: nat, done: seq<Field>, f: Field)
    requires n < |sorted| && Ascending(sorted) && Collected(g, sorted[..n], done)
    requires f.key == sorted[n].key && Canonical(f.value) && Mirrors(g, sorted[n].value, f.value)
    ensures Collected(g, sorted[..n + 1], SetKey(done, f))
  {
    DoneKeysAreLess(g, sorted, n, done);
    CollectedStep(g, sorted[..n], sorted[n], done, f);
    assert sorted[..n + 1] == sorted[..n] + [sorted[n]];
  }

  /** What is returned is the payload itself, written out as a tree with its keys in canonical order:
      canonicalising it again changes nothing. */
  lemma {:induction false} ReturnsCanonicalForm(g: Heap, v: Value)
    requires ValidHeap(g) && ValidValue(g, v) && Canonicalize(g, v, {}).Ok?
    ensures var c := Canonicalize(g, v, {}).value;
            Mirrors(g, v, c) && WellFormed(c) && Canon(c) == c
  {
    CanonicalizeMirrors(g, v, {});
    CanonicalIsFixed(Canonicalize(g, v, {}).value);
  }

  /** Trees that mirror one value are equal up to key order. */
  lemma {:induction false} MirrorsOfOneValue(g: Heap, v: Value, c: Json, d: Json)
    requires ValidHeap(g) && Mirrors(g, v, c) && Mirrors(g, v, d)
    ensures Same(c, d)
    decreases c
  {
    if v.Ref? {
      match g[v.id] {
        case Array(items) =>
          forall i | 0 <= i < |items| ensures Same(c.items[i], d.items[i]) {
            MirrorsOfOneValue(g, items[i], c.items[i], d.items[i]);
          }
        case Object(entries) =>
          assert ValidNode(g, g[v.id]);
          MirrorsHaveKeys(g, entries, c.fields, d.fields);
          MirrorsHaveKeys(g, entries, d.fields, c.fields);
          forall i, j | 0 <= i < |c.fields| && 0 <= j < |d.fields| && c.fields[i].key == d.fields[j].key
            ensures Same(c.fields[i].value, d.fields[j].value)
          {
            assert MirrorsField(g, entries, c.fields[i]) && MirrorsField(g, entries, d.fields[j]);
            var e :| e in entries && e.key == c.fields[i].key && Mirrors(g, e.value, c.fields[i].value);
            var e' :| e' in entries && e'.key == d.fields[j].key && Mirrors(g, e'.value, d.fields[j].value);
            assert e == e';
            MirrorsOfOneValue(g, e.value, c.fields[i].value, d.fields[j].value);
          }
      }
    }
  }

  lemma {:induction false} MirrorsHaveKeys(g: Heap, entries: seq<Entry>, fs: seq<Field>, gs: seq<Field>)
    requires MirrorsFields(g, entries, fs) && MirrorsFields(g, entries, gs)
    ensures forall k :: HasKey(fs, k) ==> HasKey(gs, k)
  {
    forall k | HasKey(fs, k) ensures HasKey(gs, k) {
      var i :| 0 <= i < |fs| && fs[i].key == k;
      assert MirrorsField(g, entries, fs[i]);
    }
  }

  /** Exactly the non-empty plain objects of acyclic JSON data are payloads. */
  lemma {:induction false} PayloadsAccepted(g: Heap, v: Value)
    requires ValidHeap(g) && ValidValue(g, v)
    ensures CanonicalPayload(g, v).Ok? <==>
            v.Ref? && g[v.id].Object? && g[v.id].entries != [] && Acceptable(g, v, {})
  {
    AcceptsExactlyTheAcyclic(g, v);
    if v.Ref? && g[v.id].Object? && Canonicalize(g, v, {}).Ok? {
      ReturnsCanonicalForm(g, v);
      var c, entries := Canonicalize(g, v, {}).value, g[v.id].entries;
      if entries != [] { assert entries[0] in entries && HasKey(c.fields, entries[0].key); }
      if c.fields != [] { assert MirrorsField(g, entries, c.fields[0]); }
    }
  }

  /** Two accepted payloads, in whatever heaps, have the same canonical text exactly when they are
      the same JSON data up to the order of object keys. */
  lemma {:induction false} PayloadTextEqualIffSameData(g: Heap, v: Value, h: Heap, w: Value)
    requires ValidHeap(g) && ValidValue(g, v) && CanonicalPayload(g, v).Ok?
    requires ValidHeap(h) && ValidValue(h, w) && CanonicalPayload(h, w).Ok?
    ensures Stringify(CanonicalPayload(g, v).value) == Stringify(CanonicalPayload(h, w).value) <==>
            exists j :: WellFormed(j) && Mirrors(g, v, j) && Mirrors(h, w, j)
  {
    ReturnsCanonicalForm(g, v);
    ReturnsCanonicalForm(h, w);
    var c, d := CanonicalPayload(g, v).value, CanonicalPayload(h, w).value;
    if Stringify(c) == Stringify(d) { TextDeterminesValue(c, d, "", ""); }
    if j :| WellFormed(j) && Mirrors(g, v, j) && Mirrors(h, w, j) {
      MirrorsOfOneValue(g, v, c, j);
      MirrorsOfOneValue(h, w, d, j);
      CanonEqualIffSame(c, j);
      CanonEqualIffSame(d, j);
      assert c == d;
      assert exists j :: WellFormed(j) && Mirrors(g, v, j) && Mirrors(h, w, j);
    }
  }

  /** An array that holds one accepted value twice is accepted: sharing is not a cycle. */
  lemma {:induction false} SharingIsAccepted(g: Heap, id: nat, v: Value)
    requires ValidHeap(g) && id in g && g[id] == Array([v, v]) && ValidValue(g, v) && Canonicalize(g, v, {id}).Ok?
    ensures Canonicalize(g, Ref(id), {}) == Ok(JArr([Canonicalize(g, v, {id}).value, Canonicalize(g, v, {id}).value]))
  {
    assert ValidNode(g, g[id]);
    var c := Canonicalize(g, v, {id}).value;
    PathGrows(g, id, {});
    assert {} + {id} == {id};
    assert [v, v][1..] == [v] && [v][1..] == [] && [] + [c] == [c] && [c] + [c] == [c, c];
    assert CanonicalizeItems(g, [v], [c], {id}) == Ok(JArr([c, c]));
  }
}
