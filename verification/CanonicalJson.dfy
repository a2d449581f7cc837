/** Canonical JSON of the confirmation service: objects rebuilt in sorted key order and printed by
    `JSON.stringify`.  A finite number is written as its shortest decimal text, as JavaScript
    prints it, so numbers are represented by that text. */
module CanonicalJson {
  import opened Wrappers
  import Strings

  datatype Field = Field(key: string, value: Json)

  datatype Json =
    | JNull
    | JBool(b: bool)
    | JNum(text: string)
    | JStr(s: string)
    | JArr(items: seq<Json>)
    | JObj(fields: seq<Field>)

  predicate NumberChar(c: char) {
    '0' <= c <= '9' || c == '-' || c == '+' || c == '.' || c == 'e'
  }

  predicate NumberText(s: string) {
    s != "" && ('0' <= s[0] <= '9' || s[0] == '-') && forall i :: 0 <= i < |s| ==> NumberChar(s[i])
  }

  predicate DistinctKeys(fs: seq<Field>) {
    forall i, j :: 0 <= i < j < |fs| ==> fs[i].key != fs[j].key
  }

  /** Object keys are distinct and numbers are number texts, at every depth. */
  predicate WellFormed(j: Json) {
    match j
    case JNum(text) => NumberText(text)
    case JArr(items) => forall i :: 0 <= i < |items| ==> WellFormed(items[i])
    case JObj(fields) => DistinctKeys(fields) && forall i :: 0 <= i < |fields| ==> WellFormed(fields[i].value)
    case _ => true
  }

  // ------------------------------------------------------------------- key order

  /** A canonical array index, which JavaScript enumerates before other keys (below 2^32 - 1). */
  predicate IndexKey(k: string) {
    && k != "" && |k| <= 10 && (forall i :: 0 <= i < |k| ==> '0' <= k[i] <= '9')
    && (k[0] == '0' ==> k == "0")
    && (|k| == 10 ==> Strings.Less(k, "4294967295"))
  }

  /** The order in which an object enumerates keys that were inserted in sorted order: index keys
      numerically (by length, then digit by digit), then the others by code units. */
  predicate KeyLess(a: string, b: string) {
    if IndexKey(a) && IndexKey(b) then |a| < |b| || (|a| == |b| && Strings.Less(a, b))
    else if IndexKey(a) || IndexKey(b) then IndexKey(a)
    else Strings.Less(a, b)
  }

  lemma {:induction false} KeyOrder(a: string, b: string, c: string)
    ensures !KeyLess(a, a)
    ensures KeyLess(a, b) && KeyLess(b, c) ==> KeyLess(a, c)
    ensures KeyLess(a, b) || a == b || KeyLess(b, a)
    ensures !(KeyLess(a, b) && KeyLess(b, a))
  {
    Strings.LessIsStrictTotalOrder(a, b, c);
    Strings.LessIsStrictTotalOrder(a, b, a);
  }

  predicate Sorted(fs: seq<Field>) {
    forall i, j :: 0 <= i < j < |fs| ==> KeyLess(fs[i].key, fs[j].key)
  }

  function Insert(fs: seq<Field>, f: Field): seq<Field> {
    if fs == [] then [f]
    else if KeyLess(f.key, fs[0].key) then [f] + fs
    else [fs[0]] + Insert(fs[1..], f)
  }

  /** Lookup, the meaning of an object up to key order. */
  function Lookup(fs: seq<Field>, k: string): Option<Json> {
    if fs == [] then None else if fs[0].key == k then Some(fs[0].value) else Lookup(fs[1..], k)
  }

  predicate HasKey(fs: seq<Field>, k: string) {
    exists i :: 0 <= i < |fs| && fs[i].key == k
  }

  lemma {:induction false} LookupFinds(fs: seq<Field>, k: string)
    ensures Lookup(fs, k).Some? <==> HasKey(fs, k)
    ensures DistinctKeys(fs) ==> forall i :: 0 <= i < |fs| && fs[i].key == k ==> Lookup(fs, k) == Some(fs[i].value)
  {
    if fs != [] {
      LookupFinds(fs[1..], k);
      if HasKey(fs, k) && fs[0].key != k {
        var i :| 0 <= i < |fs| && fs[i].key == k;
        assert fs[1..][i - 1].key == k;
      }
      if HasKey(fs[1..], k) {
        var i :| 0 <= i < |fs[1..]| && fs[1..][i].key == k;
        assert fs[i + 1].key == k;
      }
      if DistinctKeys(fs) {
        forall i | 0 <= i < |fs| && fs[i].key == k ensures Lookup(fs, k) == Some(fs[i].value) {
          if i > 0 { assert fs[0].key != fs[i].key && fs[1..][i - 1] == fs[i]; }
        }
      }
    }
  }

  lemma {:induction false} HasKeyOfCons(f: Field, fs: seq<Field>, k: string)
    ensures HasKey([f] + fs, k) <==> f.key == k || HasKey(fs, k)
  {
    assert ([f] + fs)[0] == f;
    if HasKey(fs, k) { var i :| 0 <= i < |fs| && fs[i].key == k; assert ([f] + fs)[i + 1].key == k; }
    if HasKey([f] + fs, k) {
      var i :| 0 <= i < |[f] + fs| && ([f] + fs)[i].key == k;
      if i > 0 { assert fs[i - 1].key == k; }
    }
  }

  lemma {:induction false} InsertHasKeys(fs: seq<Field>, f: Field, k: string)
    ensures HasKey(Insert(fs, f), k) <==> HasKey(fs, k) || k == f.key
  {
    if fs == [] || KeyLess(f.key, fs[0].key) {
      HasKeyOfCons(f, fs, k);
      assert Insert(fs, f) == [f] + fs;
    } else {
      InsertHasKeys(fs[1..], f, k);
      HasKeyOfCons(fs[0], Insert(fs[1..], f), k);
      HasKeyOfCons(fs[0], fs[1..], k);
      assert fs == [fs[0]] + fs[1..];
    }
  }

  lemma {:induction false} InsertMembers(fs: seq<Field>, f: Field)
    ensures forall i :: 0 <= i < |Insert(fs, f)| ==> Insert(fs, f)[i] == f || Insert(fs, f)[i] in fs
    ensures |Insert(fs, f)| == |fs| + 1
  {
    if fs != [] && !KeyLess(f.key, fs[0].key) {
      InsertMembers(fs[1..], f);
      var t := Insert(fs[1..], f);
      forall j | 1 <= j < |t| + 1 ensures ([fs[0]] + t)[j] == f || ([fs[0]] + t)[j] in fs {
        assert ([fs[0]] + t)[j] == t[j - 1];
        if t[j - 1] in fs[1..] { assert t[j - 1] in fs; }
      }
    }
  }

  lemma {:induction false} InsertKeepsSorted(fs: seq<Field>, f: Field)
    requires Sorted(fs) && !HasKey(fs, f.key)
    ensures Sorted(Insert(fs, f))
    ensures forall k :: HasKey(Insert(fs, f), k) <==> HasKey(fs, k) || k == f.key
    ensures forall i :: 0 <= i < |Insert(fs, f)| ==> Insert(fs, f)[i] == f || Insert(fs, f)[i] in fs
    ensures |Insert(fs, f)| == |fs| + 1
  {
    InsertMembers(fs, f);
    forall k ensures HasKey(Insert(fs, f), k) <==> HasKey(fs, k) || k == f.key { InsertHasKeys(fs, f, k); }
    InsertSorts(fs, f);
  }

  lemma {:induction false} InsertSorts(fs: seq<Field>, f: Field)
    requires Sorted(fs) && !HasKey(fs, f.key)
    ensures Sorted(Insert(fs, f))
  {
    if fs != [] {
      KeyOrder(f.key, fs[0].key, f.key);
      assert fs[0].key != f.key;
      if KeyLess(f.key, fs[0].key) {
        forall j | 0 <= j < |fs| ensures KeyLess(f.key, fs[j].key) {
          if j > 0 { KeyOrder(f.key, fs[0].key, fs[j].key); }
        }
      } else {
        assert fs == [fs[0]] + fs[1..];
        HasKeyOfCons(fs[0], fs[1..], f.key);
        InsertSorts(fs[1..], f);
        InsertMembers(fs[1..], f);
        var t := Insert(fs[1..], f);
        forall j | 0 <= j < |t| ensures KeyLess(fs[0].key, t[j].key) {
          if t[j] != f { var m :| 0 <= m < |fs[1..]| && fs[1..][m] == t[j]; assert fs[m + 1] == t[j]; }
        }
      }
    }
  }

  lemma {:induction false} SortedIsDistinct(fs: seq<Field>)
    requires Sorted(fs)
    ensures DistinctKeys(fs)
  {
    forall i, j | 0 <= i < j < |fs| ensures fs[i].key != fs[j].key { KeyOrder(fs[i].key, fs[j].key, fs[i].key); }
  }

  /** Sorted objects with the same lookups are the same object. */
  lemma {:induction false} SortedIsUnique(fs: seq<Field>, gs: seq<Field>)
    requires Sorted(fs) && Sorted(gs)
    requires forall k :: Lookup(fs, k) == Lookup(gs, k)
    ensures fs == gs
  {
    if fs == [] {
      assert gs != [] ==> Lookup(gs, gs[0].key) == Lookup(fs, gs[0].key);
    } else {
      assert Lookup(fs, fs[0].key) == Lookup(gs, fs[0].key);
      LookupFinds(gs, fs[0].key);
      assert gs != [];
      assert Lookup(fs, gs[0].key) == Lookup(gs, gs[0].key);
      LookupFinds(fs, gs[0].key);
      FirstKeyIsLeast(fs, gs[0].key);
      FirstKeyIsLeast(gs, fs[0].key);
      KeyOrder(fs[0].key, gs[0].key, fs[0].key);
      assert fs[0] == gs[0];
      forall k ensures Lookup(fs[1..], k) == Lookup(gs[1..], k) {
        assert Lookup(fs, k) == Lookup(gs, k);
        if k == fs[0].key {
          SortedIsDistinct(fs);
          SortedIsDistinct(gs);
          LookupFinds(fs[1..], k);
          LookupFinds(gs[1..], k);
        }
      }
      SortedIsUnique(fs[1..], gs[1..]);
    }
  }

  lemma {:induction false} FirstKeyIsLeast(fs: seq<Field>, k: string)
    requires Sorted(fs) && HasKey(fs, k)
    ensures k == fs[0].key || KeyLess(fs[0].key, k)
  {
  }

  // --------------------------------------------------------------- canonical values

  function Canon(j: Json): Json
    decreases j, 1
  {
    match j
    case JArr(items) => JArr(CanonItems(items))
    case JObj(fields) => JObj(CanonFields(fields))
    case _ => j
  }

  function CanonItems(items: seq<Json>): (r: seq<Json>)
    ensures |r| == |items|
    decreases items, 0
  {
    seq(|items|, i requires 0 <= i < |items| => Canon(items[i]))
  }

  function CanonFields(fields: seq<Field>): seq<Field>
    decreases fields, 0
  {
    if fields == [] then []
    else Insert(CanonFields(fields[1..]), Field(fields[0].key, Canon(fields[0].value)))
  }

  /** Equal up to the order of object keys, at every depth. */
  ghost predicate Same(v: Json, w: Json)
    decreases v
  {
    match v
    case JArr(items) => w.JArr? && |items| == |w.items| && forall i :: 0 <= i < |items| ==> Same(items[i], w.items[i])
    case JObj(fields) =>
      && w.JObj?
      && (forall k :: HasKey(fields, k) <==> HasKey(w.fields, k))
      && forall i, j :: 0 <= i < |fields| && 0 <= j < |w.fields| && fields[i].key == w.fields[j].key ==>
           Same(fields[i].value, w.fields[j].value)
    case _ => v == w
  }

  lemma {:induction false} CanonFieldsSorted(fields: seq<Field>)
    requires DistinctKeys(fields)
    ensures Sorted(CanonFields(fields)) && |CanonFields(fields)| == |fields|
    ensures forall k :: HasKey(CanonFields(fields), k) <==> HasKey(fields, k)
    ensures forall k :: Lookup(CanonFields(fields), k) ==
              match Lookup(fields, k) case None => None case Some(v) => Some(Canon(v))
  {
    if fields != [] {
      var f, rest := Field(fields[0].key, Canon(fields[0].value)), CanonFields(fields[1..]);
      CanonFieldsSorted(fields[1..]);
      assert fields == [fields[0]] + fields[1..];
      assert forall i :: 0 <= i < |fields[1..]| ==> fields[1..][i].key == fields[i + 1].key;
      InsertKeepsSorted(rest, f);
      forall k ensures HasKey(CanonFields(fields), k) <==> HasKey(fields, k) {
        HasKeyOfCons(fields[0], fields[1..], k);
      }
      forall k
        ensures Lookup(CanonFields(fields), k) ==
                match Lookup(fields, k) case None => None case Some(v) => Some(Canon(v))
      {
        InsertLookup(rest, f, k);
      }
    }
  }

  lemma {:induction false} InsertLookup(fs: seq<Field>, f: Field, k: string)
    requires Sorted(fs) && !HasKey(fs, f.key)
    ensures Lookup(Insert(fs, f), k) == if k == f.key then Some(f.value) else Lookup(fs, k)
  {
    if fs != [] {
      if KeyLess(f.key, fs[0].key) {
        assert ([f] + fs)[1..] == fs;
      } else {
        assert fs[0].key != f.key;
        assert fs == [fs[0]] + fs[1..];
        HasKeyOfCons(fs[0], fs[1..], f.key);
        InsertLookup(fs[1..], f, k);
        assert ([fs[0]] + Insert(fs[1..], f))[1..] == Insert(fs[1..], f);
      }
    } else {
      assert [f][1..] == [];
    }
  }

  /** Canonical values are equal exactly when the originals are equal up to key order. */
  lemma {:induction false} CanonEqualIffSame(v: Json, w: Json)
    requires WellFormed(v) && WellFormed(w)
    ensures Canon(v) == Canon(w) <==> Same(v, w)
    decreases v
  {
    match v {
      case JArr(items) =>
        if w.JArr? && |items| == |w.items| {
          forall i | 0 <= i < |items| ensures Canon(items[i]) == Canon(w.items[i]) <==> Same(items[i], w.items[i]) {
            CanonEqualIffSame(items[i], w.items[i]);
          }
          if Canon(v) == Canon(w) {
            forall i | 0 <= i < |items| ensures Same(items[i], w.items[i]) {
              assert CanonItems(items)[i] == CanonItems(w.items)[i];
            }
          }
          if Same(v, w) {
            assert CanonItems(items) == CanonItems(w.items);
          }
        }
      case JObj(fields) =>
        if w.JObj? {
          CanonFieldsSorted(fields);
          CanonFieldsSorted(w.fields);
          forall i, j | 0 <= i < |fields| && 0 <= j < |w.fields|
            ensures Canon(fields[i].value) == Canon(w.fields[j].value) <==> Same(fields[i].value, w.fields[j].value)
          {
            CanonEqualIffSame(fields[i].value, w.fields[j].value);
          }
          if Canon(v) == Canon(w) { EqualCanonIsSame(fields, w.fields); }
          if Same(v, w) { SameHasEqualCanon(fields, w.fields); }
        }
      case _ =>
    }
  }

  lemma {:induction false} EqualCanonIsSame(fs: seq<Field>, gs: seq<Field>)
    requires DistinctKeys(fs) && DistinctKeys(gs) && CanonFields(fs) == CanonFields(gs)
    requires forall i, j :: 0 <= i < |fs| && 0 <= j < |gs| ==>
               (Canon(fs[i].value) == Canon(gs[j].value) <==> Same(fs[i].value, gs[j].value))
    ensures forall k :: HasKey(fs, k) <==> HasKey(gs, k)
    ensures forall i, j :: 0 <= i < |fs| && 0 <= j < |gs| && fs[i].key == gs[j].key ==> Same(fs[i].value, gs[j].value)
  {
    CanonFieldsSorted(fs);
    CanonFieldsSorted(gs);
    forall k ensures HasKey(fs, k) <==> HasKey(gs, k) { assert HasKey(CanonFields(fs), k) <==> HasKey(fs, k); }
    forall i, j | 0 <= i < |fs| && 0 <= j < |gs| && fs[i].key == gs[j].key ensures Same(fs[i].value, gs[j].value) {
      var k := fs[i].key;
      LookupFinds(fs, k);
      LookupFinds(gs, k);
      assert Lookup(CanonFields(fs), k) == Some(Canon(fs[i].value));
      assert Lookup(CanonFields(gs), k) == Some(Canon(gs[j].value));
    }
  }

  lemma {:induction false} SameHasEqualCanon(fs: seq<Field>, gs: seq<Field>)
    requires DistinctKeys(fs) && DistinctKeys(gs)
    requires forall k :: HasKey(fs, k) <==> HasKey(gs, k)
    requires forall i, j :: 0 <= i < |fs| && 0 <= j < |gs| && fs[i].key == gs[j].key ==>
               Canon(fs[i].value) == Canon(gs[j].value)
    ensures CanonFields(fs) == CanonFields(gs)
  {
    CanonFieldsSorted(fs);
    CanonFieldsSorted(gs);
    forall k ensures Lookup(CanonFields(fs), k) == Lookup(CanonFields(gs), k) {
      LookupFinds(fs, k);
      LookupFinds(gs, k);
      if HasKey(fs, k) {
        var i :| 0 <= i < |fs| && fs[i].key == k;
        assert HasKey(gs, k);
        var j :| 0 <= j < |gs| && gs[j].key == k;
      }
    }
    SortedIsUnique(CanonFields(fs), CanonFields(gs));
  }

  lemma {:induction false} SameReflexive(v: Json)
    requires WellFormed(v)
    ensures Same(v, v)
  {
    CanonEqualIffSame(v, v);
  }

  /** A canonical value is well formed and equal to its original up to key order. */
  lemma {:induction false} CanonIsSame(v: Json)
    requires WellFormed(v)
    ensures WellFormed(Canon(v)) && Same(v, Canon(v))
    decreases v
  {
    match v {
      case JArr(items) =>
        forall i | 0 <= i < |items| ensures WellFormed(Canon(items[i])) && Same(items[i], Canon(items[i])) {
          CanonIsSame(items[i]);
        }
      case JObj(fields) =>
        CanonFieldsSorted(fields);
        SortedIsDistinct(CanonFields(fields));
        forall i | 0 <= i < |fields|
          ensures WellFormed(Canon(fields[i].value)) && Same(fields[i].value, Canon(fields[i].value))
        {
          CanonIsSame(fields[i].value);
        }
        var cs := CanonFields(fields);
        forall j | 0 <= j < |cs|
          ensures WellFormed(cs[j].value)
          ensures forall i :: 0 <= i < |fields| && fields[i].key == cs[j].key ==> Same(fields[i].value, cs[j].value)
        {
          var k := cs[j].key;
          LookupFinds(cs, k);
          LookupFinds(fields, k);
          assert HasKey(cs, k);
          var i :| 0 <= i < |fields| && fields[i].key == k;
          assert cs[j].value == Canon(fields[i].value);
        }
      case _ =>
    }
  }

  /** Canonicalising twice is canonicalising once. */
  lemma {:induction false} CanonIdempotent(v: Json)
    requires WellFormed(v)
    ensures Canon(Canon(v)) == Canon(v)
  {
    CanonIsSame(v);
    CanonEqualIffSame(v, Canon(v));
  }

  // ------------------------------------------------------------------ canonical text

  function Hex(n: nat): char
    requires n < 16
  {
    if n < 10 then '0' + n as char else 'a' + (n - 10) as char
  }

  function ShortEscape(c: char): Option<char> {
    if c == '"' || c == '\\' then Some(c)
    else if c == 8 as char then Some('b')
    else if c == 9 as char then Some('t')
    else if c == 10 as char then Some('n')
    else if c == 12 as char then Some('f')
    else if c == 13 as char then Some('r')
    else None
  }

  function Escaped(c: char): string {
    match ShortEscape(c)
    case Some(letter) => ['\\', letter]
    case None => if c < ' ' then ['\\', 'u', '0', '0', Hex(c as int / 16), Hex(c as int % 16)] else [c]
  }

  /** The characters of a string literal and its closing quote, followed by `rest`. */
  function WriteChars(s: string, rest: string): string {
    if s == "" then ['"'] + rest else Escaped(s[0]) + WriteChars(s[1..], rest)
  }

  /** `JSON.stringify(v)` followed by `rest`. */
  function Write(v: Json, rest: string): string
    decreases v
  {
    match v
    case JNull => "null" + rest
    case JBool(b) => (if b then "true" else "false") + rest
    case JNum(text) => text + rest
    case JStr(s) => ['"'] + WriteChars(s, rest)
    case JArr(items) => ['['] + WriteItems(items, true, rest)
    case JObj(fields) => ['{'] + WriteFields(fields, true, rest)
  }

  function WriteItems(items: seq<Json>, first: bool, rest: string): string
    decreases items
  {
    if items == [] then [']'] + rest
    else (if first then "" else ",") + Write(items[0], WriteItems(items[1..], false, rest))
  }

  function WriteFields(fields: seq<Field>, first: bool, rest: string): string
    decreases fields
  {
    if fields == [] then ['}'] + rest
    else (if first then "" else ",") + ['"'] +
         WriteChars(fields[0].key, [':'] + Write(fields[0].value, WriteFields(fields[1..], false, rest)))
  }

  function Stringify(v: Json): string { Write(v, "") }

  lemma {:induction false} HexInjective(m: nat, n: nat)
    requires m < 16 && n < 16 && Hex(m) == Hex(n)
    ensures m == n
  {
  }

  lemma {:induction false} EscapedPrefixFree(a: char, b: char, s: string, t: string)
    requires Escaped(a) + s == Escaped(b) + t
    ensures a == b && s == t
  {
    var x, y := Escaped(a) + s, Escaped(b) + t;
    assert x[0] == Escaped(a)[0] && y[0] == Escaped(b)[0];
    if |Escaped(a)| > 1 {
      assert x[1] == Escaped(a)[1] && y[1] == Escaped(b)[1];
      if |Escaped(a)| > 2 {
        assert x[4] == Hex(a as int / 16) && y[4] == Hex(b as int / 16);
        assert x[5] == Hex(a as int % 16) && y[5] == Hex(b as int % 16);
        HexInjective(a as int / 16, b as int / 16);
        HexInjective(a as int % 16, b as int % 16);
      }
    }
    assert a == b;
    assert s == x[|Escaped(a)|..] && t == y[|Escaped(b)|..];
  }

  lemma {:induction false} CharsPrefixFree(s: string, t: string, r: string, q: string)
    requires WriteChars(s, r) == WriteChars(t, q)
    ensures s == t && r == q
  {
    var x, y := WriteChars(s, r), WriteChars(t, q);
    assert s != "" ==> x[0] == Escaped(s[0])[0] && x[0] != '"';
    assert t != "" ==> y[0] == Escaped(t[0])[0] && y[0] != '"';
    assert s == "" ==> x[0] == '"';
    assert t == "" ==> y[0] == '"';
    if s != "" {
      EscapedPrefixFree(s[0], t[0], WriteChars(s[1..], r), WriteChars(t[1..], q));
      CharsPrefixFree(s[1..], t[1..], r, q);
      assert s == [s[0]] + s[1..] && t == [t[0]] + t[1..];
    } else {
      assert r == x[1..] && q == y[1..];
    }
  }

  /** A number ends where the next character cannot continue it. */
  predicate EndsNumber(rest: string) {
    rest == "" || !NumberChar(rest[0])
  }

  lemma {:induction false} NumberPrefixFree(s: string, t: string, r: string, q: string)
    requires NumberText(s) && NumberText(t) && EndsNumber(r) && EndsNumber(q) && s + r == t + q
    ensures s == t && r == q
  {
    var x, y := s + r, t + q;
    assert |s| < |x| ==> !NumberChar(x[|s|]);
    assert |t| < |y| ==> !NumberChar(y[|t|]);
    assert forall i :: 0 <= i < |t| ==> NumberChar(y[i]);
    assert forall i :: 0 <= i < |s| ==> NumberChar(x[i]);
    assert |s| == |t|;
    assert s == x[..|s|] && t == y[..|t|] && r == x[|s|..] && q == y[|t|..];
  }

  /** The first character of a text tells the kind of value it is. */
  function Kind(v: Json): nat {
    match v
    case JNull => 0
    case JBool(b) => if b then 1 else 2
    case JNum(_) => 3
    case JStr(_) => 4
    case JArr(_) => 5
    case JObj(_) => 6
  }

  function KindOf(c: char): nat {
    if c == 'n' then 0 else if c == 't' then 1 else if c == 'f' then 2 else if c == '"' then 4
    else if c == '[' then 5 else if c == '{' then 6 else 3
  }

  lemma {:induction false} FirstCharTellsKind(v: Json, rest: string)
    requires WellFormed(v)
    ensures Write(v, rest) != "" && KindOf(Write(v, rest)[0]) == Kind(v)
    ensures Write(v, rest)[0] != ']'
  {
    if v.JNum? { assert (v.text + rest)[0] == v.text[0]; }
  }

  lemma {:induction false} ItemsEndNumber(items: seq<Json>, rest: string)
    ensures EndsNumber(WriteItems(items, false, rest))
  {
  }

  lemma {:induction false} FieldsEndNumber(fields: seq<Field>, rest: string)
    ensures EndsNumber(WriteFields(fields, false, rest))
  {
  }

  /** JSON text is a prefix code: what was written can be read off the text. */
  lemma {:induction false} TextDeterminesValue(v: Json, w: Json, r: string, q: string)
    requires WellFormed(v) && WellFormed(w) && EndsNumber(r) && EndsNumber(q)
    requires Write(v, r) == Write(w, q)
    ensures v == w && r == q
    decreases v
  {
    FirstCharTellsKind(v, r);
    FirstCharTellsKind(w, q);
    match v {
      case JNum(text) => NumberPrefixFree(text, w.text, r, q);
      case JStr(s) =>
        assert WriteChars(s, r) == Write(v, r)[1..] && WriteChars(w.s, q) == Write(w, q)[1..];
        CharsPrefixFree(s, w.s, r, q);
      case JArr(items) =>
        assert WriteItems(items, true, r) == Write(v, r)[1..] && WriteItems(w.items, true, q) == Write(w, q)[1..];
        ItemsTextDetermines(items, w.items, true, r, q);
      case JObj(fields) =>
        assert WriteFields(fields, true, r) == Write(v, r)[1..] && WriteFields(w.fields, true, q) == Write(w, q)[1..];
        FieldsTextDetermines(fields, w.fields, true, r, q);
      case JNull => assert r == Write(v, r)[4..] && q == Write(w, q)[4..];
      case JBool(b) =>
        var n := if b then 4 else 5;
        assert r == Write(v, r)[n..] && q == Write(w, q)[n..];
    }
  }

  lemma {:induction false} ItemsTextDetermines(vs: seq<Json>, ws: seq<Json>, first: bool, r: string, q: string)
    requires (forall i :: 0 <= i < |vs| ==> WellFormed(vs[i])) && (forall i :: 0 <= i < |ws| ==> WellFormed(ws[i]))
    requires EndsNumber(r) && EndsNumber(q) && WriteItems(vs, first, r) == WriteItems(ws, first, q)
    ensures vs == ws && r == q
    decreases vs
  {
    var x, y := WriteItems(vs, first, r), WriteItems(ws, first, q);
    ItemsStart(vs, first, r);
    ItemsStart(ws, first, q);
    if vs == [] {
      assert r == x[1..] && q == y[1..];
    } else {
      var n := if first then 0 else 1;
      var r', q' := WriteItems(vs[1..], false, r), WriteItems(ws[1..], false, q);
      assert Write(vs[0], r') == x[n..] && Write(ws[0], q') == y[n..];
      ItemsEndNumber(vs[1..], r);
      ItemsEndNumber(ws[1..], q);
      TextDeterminesValue(vs[0], ws[0], r', q');
      ItemsTextDetermines(vs[1..], ws[1..], false, r, q);
      assert vs == [vs[0]] + vs[1..] && ws == [ws[0]] + ws[1..];
    }
  }

  lemma {:induction false} ItemsStart(vs: seq<Json>, first: bool, r: string)
    requires forall i :: 0 <= i < |vs| ==> WellFormed(vs[i])
    ensures WriteItems(vs, first, r) != "" && (WriteItems(vs, first, r)[0] == ']' <==> vs == [])
  {
    if vs != [] {
      FirstCharTellsKind(vs[0], WriteItems(vs[1..], false, r));
    }
  }

  lemma {:induction false} FieldsTextDetermines(fs: seq<Field>, gs: seq<Field>, first: bool, r: string, q: string)
    requires forall i :: 0 <= i < |fs| ==> WellFormed(fs[i].value)
    requires forall i :: 0 <= i < |gs| ==> WellFormed(gs[i].value)
    requires EndsNumber(r) && EndsNumber(q) && WriteFields(fs, first, r) == WriteFields(gs, first, q)
    ensures fs == gs && r == q
    decreases fs
  {
    var x, y := WriteFields(fs, first, r), WriteFields(gs, first, q);
    assert (x[0] == '}' <==> fs == []) && (y[0] == '}' <==> gs == []);
    if fs == [] {
      assert r == x[1..] && q == y[1..];
    } else {
      var n := if first then 1 else 2;
      var r', q' := WriteFields(fs[1..], false, r), WriteFields(gs[1..], false, q);
      var a, b := [':'] + Write(fs[0].value, r'), [':'] + Write(gs[0].value, q');
      assert WriteChars(fs[0].key, a) == x[n..] && WriteChars(gs[0].key, b) == y[n..];
      CharsPrefixFree(fs[0].key, gs[0].key, a, b);
      assert Write(fs[0].value, r') == a[1..] && Write(gs[0].value, q') == b[1..];
      FieldsEndNumber(fs[1..], r);
      FieldsEndNumber(gs[1..], q);
      TextDeterminesValue(fs[0].value, gs[0].value, r', q');
      FieldsTextDetermines(fs[1..], gs[1..], false, r, q);
      assert fs == [fs[0]] + fs[1..] && gs == [gs[0]] + gs[1..];
    }
  }

  /** Two payloads have the same canonical text exactly when they are equal up to the order of
      object keys at every depth. */
  lemma {:induction false} CanonicalTextEqualIffSame(v: Json, w: Json)
    requires WellFormed(v) && WellFormed(w)
    ensures Stringify(Canon(v)) == Stringify(Canon(w)) <==> Same(v, w)
  {
    CanonIsSame(v);
    CanonIsSame(w);
    CanonEqualIffSame(v, w);
    if Stringify(Canon(v)) == Stringify(Canon(w)) { TextDeterminesValue(Canon(v), Canon(w), "", ""); }
  }
}
