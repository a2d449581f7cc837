/** `canonicalPayload` of data that was written out as JSON and parsed again: trees, in whatever heap
    they live. */
module PayloadTrees {
  import opened Wrappers
  import opened CanonicalJson
  import opened PayloadGraph

  /** JSON data as a database column holds it. */
  type Data = j: Json | WellFormed(j) witness JNull

  // --------------------------------------------------------- payloads that mirror a tree

  predicate CleanTree(j: Json)
    decreases j
  {
    match j
    case JArr(items) => forall i :: 0 <= i < |items| ==> CleanTree(items[i])
    case JObj(fields) => forall i :: 0 <= i < |fields| ==> !Reserved(fields[i].key) && CleanTree(fields[i].value)
    case _ => true
  }

  /** What becomes of the payload that is written out as `j`. */
  function TreePayload(j: Json): Result<Json, Refusal> {
    if !j.JObj? then Err(NotAnObject)
    else if !CleanTree(j) then Err(ReservedKey)
    else if j.fields == [] then Err(EmptyPayload)
    else Ok(Canon(j))
  }

  lemma {:induction false} CanonOfItem(items: seq<Json>, i: nat)
    requires i < |items|
    ensures Canon(items[i]) < Canon(JArr(items))
  {
    assert CanonItems(items)[i] == Canon(items[i]);
  }

  lemma {:induction false} CanonOfField(fields: seq<Field>, i: nat)
    requires DistinctKeys(fields) && i < |fields|
    ensures Canon(fields[i].value) < Canon(JObj(fields))
  {
    var k, cs := fields[i].key, CanonFields(fields);
    CanonFieldsSorted(fields);
    LookupFinds(fields, k);
    LookupFinds(cs, k);
    var m :| 0 <= m < |cs| && cs[m].key == k;
    SortedIsDistinct(cs);
    assert cs[m].value == Canon(fields[i].value);
  }

  /** Everything on the path is written out as something larger than `j`, key order aside. */
  ghost predicate Above(g: Heap, path: set<nat>, j: Json) {
    forall id :: id in path ==> LargerMirror(g, id, j)
  }

  ghost predicate LargerMirror(g: Heap, id: nat, j: Json) {
    exists d :: WellFormed(d) && Mirrors(g, Ref(id), d) && Canon(j) < Canon(d)
  }

  /** So `j` cannot be one of them: a walk in a tree never comes back. */
  lemma {:induction false} NeverBack(g: Heap, id: nat, path: set<nat>, j: Json)
    requires ValidHeap(g) && Above(g, path, j) && WellFormed(j) && Mirrors(g, Ref(id), j)
    ensures id !in path
  {
    if id in path {
      var d :| WellFormed(d) && Mirrors(g, Ref(id), d) && Canon(j) < Canon(d);
      MirrorsOfOneValue(g, Ref(id), j, d);
      CanonEqualIffSame(j, d);
    }
  }

  lemma {:induction false} AboveChild(g: Heap, id: nat, path: set<nat>, j: Json, child: Json)
    requires Above(g, path, j) && WellFormed(j) && Mirrors(g, Ref(id), j) && Canon(child) < Canon(j)
    ensures Above(g, path + {id}, child)
  {
    forall x | x in path + {id} ensures LargerMirror(g, x, child) {
      if x in path {
        var d :| WellFormed(d) && Mirrors(g, Ref(x), d) && Canon(j) < Canon(d);
        assert Canon(child) < Canon(d);
      }
    }
  }

  predicate OkOrReserved(r: Result<Json, Refusal>) {
    r.Ok? || r.error == ReservedKey
  }

  lemma {:induction false} ItemsOkOrReserved(g: Heap, items: seq<Value>, done: seq<Json>, path: set<nat>)
    requires ValidHeap(g) && (forall v :: v in items ==> ValidValue(g, v)) && path <= g.Keys
    requires forall v :: v in items ==> OkOrReserved(Canonicalize(g, v, path))
    ensures OkOrReserved(CanonicalizeItems(g, items, done, path))
    decreases |items|
  {
    if items != [] && Canonicalize(g, items[0], path).Ok? {
      ItemsOkOrReserved(g, items[1..], done + [Canonicalize(g, items[0], path).value], path);
    }
  }

  lemma {:induction false} EntriesOkOrReserved(g: Heap, es: seq<Entry>, done: seq<Field>, path: set<nat>)
    requires ValidHeap(g) && (forall e :: e in es ==> ValidValue(g, e.value)) && path <= g.Keys
    requires forall e :: e in es ==> OkOrReserved(Canonicalize(g, e.value, path))
    ensures OkOrReserved(CanonicalizeEntries(g, es, done, path))
    decreases |es|
  {
    if es != [] && Canonicalize(g, es[0].value, path).Ok? {
      var f := Field(es[0].key, Canonicalize(g, es[0].value, path).value);
      EntriesOkOrReserved(g, es[1..], SetKey(done, f), path);
    }
  }

  /** A value that is written out as a tree is refused for its reserved keys only. */
  ghost predicate Decided(g: Heap, v: Value, path: set<nat>, j: Json)
    requires ValidHeap(g) && ValidValue(g, v) && path <= g.Keys
  {
    var r := Canonicalize(g, v, path);
    OkOrReserved(r) && (r.Ok? <==> CleanTree(j))
  }

  lemma {:induction false} TreeIsDecided(g: Heap, v: Value, path: set<nat>, j: Json)
    requires ValidHeap(g) && ValidValue(g, v) && path <= g.Keys
    requires WellFormed(j) && Mirrors(g, v, j) && Above(g, path, j)
    ensures Decided(g, v, path, j)
    decreases j
  {
    if v.Ref? {
      NeverBack(g, v.id, path, j);
      NodeOk(g, v.id, path);
      match g[v.id] {
        case Array(items) =>
          forall i | 0 <= i < |items| ensures Decided(g, items[i], path + {v.id}, j.items[i]) {
            CanonOfItem(j.items, i);
            AboveChild(g, v.id, path, j, j.items[i]);
            TreeIsDecided(g, items[i], path + {v.id}, j.items[i]);
          }
          ArrayIsDecided(g, v.id, path, j);
        case Object(entries) =>
          forall i, e | 0 <= i < |j.fields| && e in entries && e.key == j.fields[i].key
            ensures Decided(g, e.value, path + {v.id}, j.fields[i].value)
          {
            FieldMirrors(g, entries, j.fields, i, e);
            CanonOfField(j.fields, i);
            AboveChild(g, v.id, path, j, j.fields[i].value);
            TreeIsDecided(g, e.value, path + {v.id}, j.fields[i].value);
          }
          ObjectIsDecided(g, v.id, path, j);
      }
    }
  }

  lemma {:induction false} FieldMirrors(g: Heap, entries: seq<Entry>, fs: seq<Field>, i: nat, e: Entry)
    requires DistinctEntries(entries) && MirrorsFields(g, entries, fs) && i < |fs| && e in entries && e.key == fs[i].key
    ensures Mirrors(g, e.value, fs[i].value)
  {
    assert MirrorsField(g, entries, fs[i]);
    var e' :| e' in entries && e'.key == fs[i].key && Mirrors(g, e'.value, fs[i].value);
    assert e' == e;
  }

  lemma {:induction false} ArrayIsDecided(g: Heap, id: nat, path: set<nat>, j: Json)
    requires ValidHeap(g) && id in g && g[id].Array? && path <= g.Keys && id !in path && ValidNode(g, g[id])
    requires Mirrors(g, Ref(id), j)
    requires forall i :: 0 <= i < |g[id].items| ==> Decided(g, g[id].items[i], path + {id}, j.items[i])
    ensures Decided(g, Ref(id), path, j)
  {
    var items := g[id].items;
    NodeOk(g, id, path);
    ItemsOkOrReserved(g, items, [], path + {id});
    assert forall i :: 0 <= i < |items| ==> items[i] in Children(g[id]);
  }

  lemma {:induction false} ObjectIsDecided(g: Heap, id: nat, path: set<nat>, j: Json)
    requires ValidHeap(g) && id in g && g[id].Object? && path <= g.Keys && id !in path && ValidNode(g, g[id])
    requires Mirrors(g, Ref(id), j)
    requires forall i, e :: 0 <= i < |j.fields| && e in g[id].entries && e.key == j.fields[i].key ==>
               Decided(g, e.value, path + {id}, j.fields[i].value)
    ensures Decided(g, Ref(id), path, j)
  {
    var entries := g[id].entries;
    NodeOk(g, id, path);
    SortEntriesAscends(entries);
    forall e | e in entries ensures OkOrReserved(Canonicalize(g, e.value, path + {id})) {
      var i :| 0 <= i < |j.fields| && j.fields[i].key == e.key;
    }
    EntriesOkOrReserved(g, SortEntries(entries), [], path + {id});
    ChildrenOfObject(g, id, path, j);
  }

  lemma {:induction false} ChildrenOfObject(g: Heap, id: nat, path: set<nat>, j: Json)
    requires ValidHeap(g) && id in g && g[id].Object? && path <= g.Keys && ValidNode(g, g[id])
    requires Mirrors(g, Ref(id), j)
    requires forall i, e :: 0 <= i < |j.fields| && e in g[id].entries && e.key == j.fields[i].key ==>
               Decided(g, e.value, path + {id}, j.fields[i].value)
    ensures forall c :: c in Children(g[id]) ==> ValidValue(g, c)
    ensures AllowedKeys(g[id]) && (forall c :: c in Children(g[id]) ==> Canonicalize(g, c, path + {id}).Ok?)
            <==> CleanTree(j)
  {
    var entries := g[id].entries;
    ChildrenAreValid(g, id);
    if CleanTree(j) {
      forall m | 0 <= m < |entries|
        ensures !Reserved(entries[m].key) && Canonicalize(g, entries[m].value, path + {id}).Ok?
      {
        assert entries[m] in entries;
        var i :| 0 <= i < |j.fields| && j.fields[i].key == entries[m].key;
      }
    }
    if AllowedKeys(g[id]) && forall c :: c in Children(g[id]) ==> Canonicalize(g, c, path + {id}).Ok? {
      forall i | 0 <= i < |j.fields| ensures !Reserved(j.fields[i].key) && CleanTree(j.fields[i].value) {
        assert MirrorsField(g, entries, j.fields[i]);
        var e :| e in entries && e.key == j.fields[i].key && Mirrors(g, e.value, j.fields[i].value);
        var m :| 0 <= m < |entries| && entries[m] == e;
        assert Children(g[id])[m] == e.value;
      }
    }
  }

  /** Whatever heap it lives in, a payload that is written out as the tree `j` gets what `j` gives,
      result or refusal: sharing and the order of keys make no difference. */
  lemma {:induction false} TreeDecidesPayload(g: Heap, v: Value, j: Json)
    requires ValidHeap(g) && ValidValue(g, v) && WellFormed(j) && Mirrors(g, v, j)
    ensures CanonicalPayload(g, v) == TreePayload(j)
  {
    TreeIsDecided(g, v, {}, j);
    if v.Ref? && g[v.id].Object? && CleanTree(j) {
      ReturnsCanonicalForm(g, v);
      var c := Canonicalize(g, v, {}).value;
      MirrorsOfOneValue(g, v, c, j);
      CanonEqualIffSame(c, j);
      CanonFieldsSorted(j.fields);
    }
  }

  // ------------------------------------------------------------------ parsed JSON

  /** A heap with the value just built in it; addresses from `next` on are free. */
  datatype Loaded<V> = Loaded(heap: Heap, value: V, next: nat)

  /** `JSON.parse`: a fresh array or object for every one in the text, children first. */
  function Load(h: Heap, next: nat, j: Json): Loaded<Value>
    decreases j, 1
  {
    match j
    case JNull => Loaded(h, Null, next)
    case JBool(b) => Loaded(h, Bool(b), next)
    case JNum(text) => Loaded(h, Number(true, text), next)
    case JStr(s) => Loaded(h, Str(s), next)
    case JArr(items) =>
      var l := LoadItems(h, next, items);
      Loaded(l.heap[l.next := Array(l.value)], Ref(l.next), l.next + 1)
    case JObj(fields) =>
      var l := LoadFields(h, next, fields);
      Loaded(l.heap[l.next := Object(l.value)], Ref(l.next), l.next + 1)
  }

  function LoadItems(h: Heap, next: nat, items: seq<Json>): Loaded<seq<Value>>
    decreases items, 0
  {
    if items == [] then Loaded(h, [], next) else
    var first := Load(h, next, items[0]);
    var rest := LoadItems(first.heap, first.next, items[1..]);
    rest.(value := [first.value] + rest.value)
  }

  function LoadFields(h: Heap, next: nat, fields: seq<Field>): Loaded<seq<Entry>>
    decreases fields, 0
  {
    if fields == [] then Loaded(h, [], next) else
    var first := Load(h, next, fields[0].value);
    var rest := LoadFields(first.heap, first.next, fields[1..]);
    rest.(value := [Entry(fields[0].key, first.value)] + rest.value)
  }

  ghost predicate Extends(h: Heap, g: Heap) {
    forall id :: id in h ==> id in g && g[id] == h[id]
  }

  ghost predicate Below(h: Heap, next: nat) {
    forall id :: id in h ==> id < next
  }

  lemma {:induction false} MirrorsExtend(h: Heap, g: Heap, v: Value, j: Json)
    requires Extends(h, g) && Mirrors(h, v, j)
    ensures Mirrors(g, v, j)
    decreases j
  {
    if v.Ref? && g[v.id].Array? {
      var items := g[v.id].items;
      forall i | 0 <= i < |items| ensures Mirrors(g, items[i], j.items[i]) {
        MirrorsExtend(h, g, items[i], j.items[i]);
      }
    } else if v.Ref? {
      var entries := g[v.id].entries;
      forall i | 0 <= i < |j.fields| ensures MirrorsField(g, entries, j.fields[i]) {
        assert MirrorsField(h, entries, j.fields[i]);
        var e :| e in entries && e.key == j.fields[i].key && Mirrors(h, e.value, j.fields[i].value);
        MirrorsExtend(h, g, e.value, j.fields[i].value);
      }
    }
  }

  /** The heap grew and stayed valid. */
  ghost predicate Grown(h: Heap, g: Heap, next: nat) {
    ValidHeap(g) && Extends(h, g) && Below(g, next)
  }

  lemma {:induction false} LoadedTree(h: Heap, next: nat, j: Json)
    requires ValidHeap(h) && Below(h, next) && WellFormed(j)
    ensures var l := Load(h, next, j);
            Grown(h, l.heap, l.next) && ValidValue(l.heap, l.value) && Mirrors(l.heap, l.value, j)
    decreases j, 1
  {
    match j {
      case JArr(items) =>
        LoadedItems(h, next, items);
        var l := LoadItems(h, next, items);
        AddedNode(l.heap, l.next, Array(l.value));
        MirrorsArray(l.heap, l.next, l.value, items);
      case JObj(fields) =>
        LoadedFields(h, next, fields);
        var l := LoadFields(h, next, fields);
        AddedNode(l.heap, l.next, Object(l.value));
        MirrorsObject(l.heap, l.next, l.value, fields);
      case _ =>
    }
  }

  lemma {:induction false} AddedNode(h: Heap, next: nat, n: Node)
    requires ValidHeap(h) && Below(h, next) && ValidNode(h, n)
    ensures Grown(h, h[next := n], next + 1)
  {
    forall id | id in h ensures ValidNode(h[next := n], h[id]) { assert ValidNode(h, h[id]); }
  }

  ghost predicate ItemsLoaded(g: Heap, vs: seq<Value>, items: seq<Json>) {
    |vs| == |items| && forall i :: 0 <= i < |items| ==> ValidValue(g, vs[i]) && Mirrors(g, vs[i], items[i])
  }

  ghost predicate FieldsLoaded(g: Heap, es: seq<Entry>, fields: seq<Field>) {
    |es| == |fields| && forall i :: 0 <= i < |fields| ==>
      es[i].key == fields[i].key && ValidValue(g, es[i].value) && Mirrors(g, es[i].value, fields[i].value)
  }

  lemma {:induction false} MirrorsArray(h: Heap, next: nat, vs: seq<Value>, items: seq<Json>)
    requires Below(h, next) && ItemsLoaded(h, vs, items)
    ensures Mirrors(h[next := Array(vs)], Ref(next), JArr(items))
  {
    var g := h[next := Array(vs)];
    forall i | 0 <= i < |items| ensures Mirrors(g, vs[i], items[i]) { MirrorsExtend(h, g, vs[i], items[i]); }
  }

  lemma {:induction false} MirrorsObject(h: Heap, next: nat, es: seq<Entry>, fields: seq<Field>)
    requires Below(h, next) && FieldsLoaded(h, es, fields)
    ensures Mirrors(h[next := Object(es)], Ref(next), JObj(fields))
  {
    var g := h[next := Object(es)];
    forall e | e in es ensures HasKey(fields, e.key) {
      var i :| 0 <= i < |es| && es[i] == e;
      assert fields[i].key == e.key;
    }
    forall i | 0 <= i < |fields| ensures MirrorsField(g, es, fields[i]) {
      MirrorsExtend(h, g, es[i].value, fields[i].value);
      assert es[i] in es;
    }
  }

  lemma {:induction false} LoadedItems(h: Heap, next: nat, items: seq<Json>)
    requires ValidHeap(h) && Below(h, next) && forall i :: 0 <= i < |items| ==> WellFormed(items[i])
    ensures var l := LoadItems(h, next, items);
            Grown(h, l.heap, l.next) && ItemsLoaded(l.heap, l.value, items) && ValidNode(l.heap, Array(l.value))
    decreases items, 0
  {
    if items != [] {
      LoadedTree(h, next, items[0]);
      var first := Load(h, next, items[0]);
      LoadedItems(first.heap, first.next, items[1..]);
      var rest := LoadItems(first.heap, first.next, items[1..]);
      MirrorsExtend(first.heap, rest.heap, first.value, items[0]);
      ItemsLoadedCons(rest.heap, first.value, rest.value, items);
    }
  }

  lemma {:induction false} ItemsLoadedCons(g: Heap, v: Value, vs: seq<Value>, items: seq<Json>)
    requires items != [] && ValidValue(g, v) && Mirrors(g, v, items[0]) && ItemsLoaded(g, vs, items[1..])
    ensures ItemsLoaded(g, [v] + vs, items)
  {
    forall i | 1 <= i < |items| ensures ValidValue(g, ([v] + vs)[i]) && Mirrors(g, ([v] + vs)[i], items[i]) {
      assert ([v] + vs)[i] == vs[i - 1] && items[i] == items[1..][i - 1];
    }
  }

  lemma {:induction false} LoadedFields(h: Heap, next: nat, fields: seq<Field>)
    requires ValidHeap(h) && Below(h, next)
    requires DistinctKeys(fields) && forall i :: 0 <= i < |fields| ==> WellFormed(fields[i].value)
    ensures var l := LoadFields(h, next, fields);
            Grown(h, l.heap, l.next) && FieldsLoaded(l.heap, l.value, fields) && ValidNode(l.heap, Object(l.value))
    decreases fields, 0
  {
    if fields != [] {
      var f := fields[0];
      LoadedTree(h, next, f.value);
      var first := Load(h, next, f.value);
      LoadedFields(first.heap, first.next, fields[1..]);
      var rest := LoadFields(first.heap, first.next, fields[1..]);
      MirrorsExtend(first.heap, rest.heap, first.value, f.value);
      FieldsLoadedCons(rest.heap, first.value, rest.value, fields);
    }
  }

  lemma {:induction false} FieldsLoadedCons(g: Heap, v: Value, es: seq<Entry>, fields: seq<Field>)
    requires fields != [] && DistinctKeys(fields)
    requires ValidValue(g, v) && Mirrors(g, v, fields[0].value) && FieldsLoaded(g, es, fields[1..])
    ensures FieldsLoaded(g, [Entry(fields[0].key, v)] + es, fields)
    ensures ValidNode(g, Object([Entry(fields[0].key, v)] + es))
  {
    var all := [Entry(fields[0].key, v)] + es;
    forall i | 1 <= i < |fields|
      ensures all[i].key == fields[i].key && ValidValue(g, all[i].value) && Mirrors(g, all[i].value, fields[i].value)
    {
      assert all[i] == es[i - 1] && fields[i] == fields[1..][i - 1];
    }
    assert FieldsLoaded(g, all, fields);
  }

  /** `canonicalPayload` of an object that was just parsed. */
  function ParsedPayload(j: Data): Result<Json, Refusal> {
    LoadedTree(map[], 0, j);
    var l := Load(map[], 0, j);
    CanonicalPayload(l.heap, l.value)
  }

  /** It accepts exactly the non-empty objects without reserved keys and returns their canonical form. */
  lemma {:induction false} ParsedPayloadIsTree(j: Data)
    ensures ParsedPayload(j) == TreePayload(j)
  {
    LoadedTree(map[], 0, j);
    var l := Load(map[], 0, j);
    TreeDecidesPayload(l.heap, l.value, j);
  }

  /** The canonical form of a payload, which JSON can hold. */
  function PayloadData(g: Heap, v: Value): (j: Data)
    requires ValidHeap(g) && ValidValue(g, v) && CanonicalPayload(g, v).Ok?
    ensures CanonicalPayload(g, v) == Ok(j)
  {
    ReturnsCanonicalForm(g, v);
    CanonicalPayload(g, v).value
  }

  /** However storage arranges the keys of a canonical payload, canonicalising what is read back
      gives the canonical payload again. */
  lemma {:induction false} ReadBack(g: Heap, v: Value, stored: Data)
    requires ValidHeap(g) && ValidValue(g, v) && CanonicalPayload(g, v).Ok?
    requires Same(CanonicalPayload(g, v).value, stored)
    ensures ParsedPayload(stored) == CanonicalPayload(g, v)
  {
    ReturnsCanonicalForm(g, v);
    var c := CanonicalPayload(g, v).value;
    TreeDecidesPayload(g, v, c);
    SameIsClean(c, stored);
    CanonEqualIffSame(c, stored);
    assert HasKey(c.fields, c.fields[0].key);
    ParsedPayloadIsTree(stored);
  }

  lemma {:induction false} SameIsClean(v: Json, w: Json)
    requires CleanTree(v) && Same(v, w)
    ensures CleanTree(w)
    decreases v
  {
    match v {
      case JArr(items) =>
        forall i | 0 <= i < |items| ensures CleanTree(w.items[i]) { SameIsClean(items[i], w.items[i]); }
      case JObj(fields) =>
        forall j | 0 <= j < |w.fields| ensures !Reserved(w.fields[j].key) && CleanTree(w.fields[j].value) {
          assert HasKey(w.fields, w.fields[j].key);
          var i :| 0 <= i < |fields| && fields[i].key == w.fields[j].key;
          SameIsClean(fields[i].value, w.fields[j].value);
        }
      case _ =>
    }
  }

  /** A canonical payload canonicalised once more is itself. */
  lemma {:induction false} OnceMore(g: Heap, v: Value)
    requires ValidHeap(g) && ValidValue(g, v) && CanonicalPayload(g, v).Ok?
    ensures ParsedPayload(PayloadData(g, v)) == CanonicalPayload(g, v)
  {
    SameReflexive(PayloadData(g, v));
    ReadBack(g, v, PayloadData(g, v));
  }
}
