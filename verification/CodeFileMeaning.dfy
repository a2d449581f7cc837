/** The names that the renaming of code-execution files gives, and what one group of a run does, told without
    the functions that compute them. */
module CodeFileMeaning {
  import opened Strings
  import opened CodeFileMigration

  // -------------------------------------------------------------------- extensions

  /** `filename[b..e]` is its last component: only slashes follow, and none is in it. */
  predicate LastComponent(filename: string, b: nat, e: nat) {
    && b <= e <= |filename|
    && (forall i :: e <= i < |filename| ==> filename[i] == '/')
    && (b == 0 || filename[b - 1] == '/')
    && (forall i :: b <= i < e ==> filename[i] != '/')
    && (b == e ==> e == 0)
  }

  /** The last dot of the component is at `d`, and does not begin it. */
  predicate LastDot(filename: string, b: nat, d: nat, e: nat) {
    b < d < e <= |filename| && filename[d] == '.' && forall i :: d < i < e ==> filename[i] != '.'
  }

  predicate TwoDots(filename: string, b: nat, e: nat) {
    e == b + 2 && e <= |filename| && filename[b] == '.' && filename[b + 1] == '.'
  }

  lemma {:induction false} TrailingSlashes(filename: string, e: nat)
    requires e <= |filename| && (forall i :: e <= i < |filename| ==> filename[i] == '/')
    requires e > 0 ==> filename[e - 1] != '/'
    ensures WithoutTrailingSlashes(filename) == filename[..e]
    decreases |filename|
  {
    if e < |filename| {
      var init := filename[..|filename| - 1];
      TrailingSlashes(init, e);
      assert init[..e] == filename[..e];
    } else {
      assert filename[..e] == filename;
    }
  }

  lemma {:induction false} AfterLastIs(s: string, c: char, p: nat)
    requires p <= |s| && (p > 0 ==> s[p - 1] == c) && forall i :: p <= i < |s| ==> s[i] != c
    ensures AfterLast(s, c) == p
  {
  }

  lemma {:induction false} ComponentOf(filename: string, b: nat, e: nat)
    requires LastComponent(filename, b, e)
    ensures Extname(filename) == ExtensionOf(filename[b..e])
  {
    TrailingSlashes(filename, e);
    AfterLastIs(filename[..e], '/', b);
    assert filename[..e][b..] == filename[b..e];
  }

  function ExtensionOf(component: string): string {
    var p := AfterLast(component, '.');
    if p <= 1 || component == ".." then "" else component[p - 1..]
  }

  lemma {:induction false} ExtensionFrom(component: string, d: nat)
    requires 0 < d < |component| && component[d] == '.' && forall i :: d < i < |component| ==> component[i] != '.'
    requires component != ".."
    ensures ExtensionOf(component) == component[d..]
  {
    AfterLastIs(component, '.', d + 1);
  }

  lemma {:induction false} NotTwoDots(filename: string, b: nat, e: nat)
    requires b <= e <= |filename| && !TwoDots(filename, b, e)
    ensures filename[b..e] != ".."
  {
  }

  lemma {:induction false} DotsOf(filename: string, b: nat, d: nat, e: nat)
    requires LastDot(filename, b, d, e) && !TwoDots(filename, b, e)
    ensures ExtensionOf(filename[b..e]) == filename[d..e]
  {
    var component := filename[b..e];
    NotTwoDots(filename, b, e);
    forall i | d - b < i < |component| ensures component[i] != '.' { assert component[i] == filename[b + i]; }
    ExtensionFrom(component, d - b);
    assert component[d - b..] == filename[d..e];
  }

  lemma {:induction false} DottedExtension(filename: string, b: nat, d: nat, e: nat)
    requires LastComponent(filename, b, e) && LastDot(filename, b, d, e) && !TwoDots(filename, b, e)
    ensures Extname(filename) == filename[d..e]
  {
    ComponentOf(filename, b, e);
    DotsOf(filename, b, d, e);
  }

  lemma {:induction false} UndottedExtension(filename: string, b: nat, e: nat)
    requires LastComponent(filename, b, e) && forall d: nat :: !LastDot(filename, b, d, e)
    ensures Extname(filename) == ""
  {
    ComponentOf(filename, b, e);
    var p := AfterLast(filename[b..e], '.');
    if p > 1 {
      assert filename[b..e][p - 1] == filename[b + p - 1];
      forall i | b + p - 1 < i < e ensures filename[i] != '.' { assert filename[b..e][i - b] == filename[i]; }
      assert LastDot(filename, b, b + p - 1, e);
    }
  }

  lemma {:induction false} TwoDotsExtension(filename: string, b: nat, e: nat)
    requires LastComponent(filename, b, e) && TwoDots(filename, b, e)
    ensures Extname(filename) == ""
  {
    ComponentOf(filename, b, e);
    assert filename[b..e] == "..";
  }

  /** Every name has a last component, empty when it has nothing but slashes; its extension runs from the last
      dot in that to its end, unless the dot begins it or it is `..`. */
  lemma {:induction false} ExtensionIs(filename: string, b: nat, e: nat)
    requires LastComponent(filename, b, e)
    ensures forall d: nat :: LastDot(filename, b, d, e) && !TwoDots(filename, b, e) ==>
              Extname(filename) == filename[d..e]
    ensures (forall d: nat :: !LastDot(filename, b, d, e)) || TwoDots(filename, b, e) ==> Extname(filename) == ""
  {
    forall d: nat | LastDot(filename, b, d, e) && !TwoDots(filename, b, e) ensures Extname(filename) == filename[d..e] {
      DottedExtension(filename, b, d, e);
    }
    if forall d: nat :: !LastDot(filename, b, d, e) { UndottedExtension(filename, b, e); }
    if TwoDots(filename, b, e) { TwoDotsExtension(filename, b, e); }
  }

  lemma {:induction false} HasLastComponent(filename: string) returns (b: nat, e: nat)
    ensures LastComponent(filename, b, e)
  {
    if filename == "" {
      b, e := 0, 0;
    } else {
      var n := |filename| - 1;
      b, e := HasLastComponent(filename[..n]);
      if filename[n] != '/' {
        if e < n || (n > 0 && filename[n - 1] == '/') { b := n; }
        e := n + 1;
      }
    }
  }

  // -------------------------------------------------------------------- candidates

  /** The candidate is the name up to its extension, ` (n)` in digits, and the extension. */
  ghost predicate IsCandidate(filename: string, n: nat, candidate: string) {
    exists base, digits :: Splits(filename, n, candidate, base, digits)
  }

  ghost predicate Splits(filename: string, n: nat, candidate: string, base: string, digits: string) {
    && candidate == base + [' ', '('] + digits + [')'] + Extname(filename)
    && base <= filename && |base| + |Extname(filename)| == |filename|
    && digits != "" && (forall i :: 0 <= i < |digits| ==> '0' <= digits[i] <= '9')
    && NumberOf(digits) == n && (n > 0 ==> digits[0] != '0')
  }

  lemma {:induction false} SuffixIsCandidate(filename: string, n: nat)
    ensures IsCandidate(filename, n, SuffixFilename(filename, n))
  {
    var base := filename[..|filename| - |Extname(filename)|];
    DecimalReadsBack(n);
    assert SuffixFilename(filename, n) == base + [' ', '('] + Decimal(n) + [')'] + Extname(filename);
    assert Splits(filename, n, SuffixFilename(filename, n), base, Decimal(n));
  }

  /** An extension is not empty, begins with a dot, holds no slash and ends the name up to its slashes. */
  lemma {:induction false} ExtensionEnds(filename: string, b: nat, e: nat)
    requires LastComponent(filename, b, e) && Extname(filename) != ""
    ensures var ext := Extname(filename);
            |ext| <= e && ext == filename[e - |ext|..e] && ext[0] == '.' && ext[|ext| - 1] != '/'
  {
    ExtensionIs(filename, b, e);
    var d: nat :| LastDot(filename, b, d, e);
  }

  /** The part before ` (n)` and the part after it make up the name exactly when it has no extension or does not
      end with a slash. */
  lemma {:induction false} PartsMakeUpTheName(filename: string, b: nat, e: nat)
    requires LastComponent(filename, b, e)
    ensures var ext := Extname(filename);
            filename[..|filename| - |ext|] + ext == filename <==> ext == "" || filename[|filename| - 1] != '/'
  {
    var ext := Extname(filename);
    if ext != "" {
      ExtensionEnds(filename, b, e);
      var parts := filename[..|filename| - |ext|] + ext;
      assert parts[|filename| - 1] == ext[|ext| - 1];
      if e == |filename| { assert parts == filename; }
    }
  }

  // ------------------------------------------------------------------ names of a group

  /** Some code-execution file of this conversation and tenant has this name. */
  predicate NameInUse(files: seq<File>, key: Key, name: string) {
    exists i :: 0 <= i < |files| && files[i].codeExecution && files[i].conversation == key.conversation
                && files[i].tenant == key.tenant && files[i].name == name
  }

  lemma {:induction false} ScopeNamesAreInUse(files: seq<File>, key: Key, name: string)
    ensures name in ScopeNames(files, key) <==> NameInUse(files, key, name)
  {
  }

  lemma {:induction false} FirstNameIsLeast(filename: string, taken: set<string>) returns (n: nat)
    ensures n >= 1 && NextName(filename, taken) == SuffixFilename(filename, n) && NextName(filename, taken) !in taken
    ensures forall m :: 1 <= m < n ==> SuffixFilename(filename, m) in taken
  {
    n := FreeIndex(filename, taken, 1);
  }

  lemma {:induction false} FreshNameIsLeast(filename: string, taken: set<string>, k: nat, i: nat) returns (n: nat)
    requires i < k
    ensures var names := FreshNames(filename, taken, k);
            && n >= 1 && names[i] == SuffixFilename(filename, n) && names[i] !in taken && names[i] !in names[..i]
            && forall m :: 1 <= m < n ==>
                 SuffixFilename(filename, m) in taken || SuffixFilename(filename, m) in names[..i]
    decreases k
  {
    var name := NextName(filename, taken);
    var names, rest := FreshNames(filename, taken, k), FreshNames(filename, taken + {name}, k - 1);
    FirstFreshName(filename, taken, k);
    if i == 0 {
      n := FirstNameIsLeast(filename, taken);
    } else {
      n := FreshNameIsLeast(filename, taken + {name}, k - 1, i - 1);
      assert names[i] == rest[i - 1] && names[..i] == [name] + rest[..i - 1];
    }
  }

  /** Some code-execution file of the group's conversation and tenant has the name, or a newer file of the group
      has just been given it. */
  ghost predicate Reserved(files: seq<File>, key: Key, earlier: seq<Rename>, name: string) {
    NameInUse(files, key, name) || exists j :: 0 <= j < |earlier| && earlier[j].to == name
  }

  lemma {:induction false} ReservedIff(files: seq<File>, key: Key, rs: seq<Rename>, names: seq<string>, name: string)
    requires |rs| == |names| && forall j :: 0 <= j < |rs| ==> rs[j].to == names[j]
    ensures Reserved(files, key, rs, name) <==> name in ScopeNames(files, key) || name in names
  {
    ScopeNamesAreInUse(files, key, name);
    if name in names {
      var j :| 0 <= j < |names| && names[j] == name;
      assert rs[j].to == name;
    }
  }

  /** Every file of a group gets the first candidate that is not reserved. */
  lemma {:induction false} NewNameIsLeast(found: seq<File>, files: seq<File>, key: Key, i: nat) returns (n: nat)
    requires i < |Renames(found, files, key)|
    ensures var rs := Renames(found, files, key);
            && n >= 1 && rs[i].to == SuffixFilename(key.name, n) && !Reserved(files, key, rs[..i], rs[i].to)
            && forall m :: 1 <= m < n ==> Reserved(files, key, rs[..i], SuffixFilename(key.name, m))
  {
    var rs, taken, k := Renames(found, files, key), ScopeNames(files, key), |Stale(found, key)|;
    var names := FreshNames(key.name, taken, k);
    n := FreshNameIsLeast(key.name, taken, k, i);
    ReservedIff(files, key, rs[..i], names[..i], rs[i].to);
    forall m | 1 <= m < n ensures Reserved(files, key, rs[..i], SuffixFilename(key.name, m)) {
      ReservedIff(files, key, rs[..i], names[..i], SuffixFilename(key.name, m));
    }
  }

  // ---------------------------------------------------------------- order in a group

  /** File `i` was created before file `j`, one without a time at time 0; of two as old, it is the later one. */
  predicate CreatedBefore(files: seq<File>, i: nat, j: nat)
    requires i < |files| && j < |files|
  {
    var s := match files[i].createdAt case None => 0 case Some(ms) => ms;
    var t := match files[j].createdAt case None => 0 case Some(ms) => ms;
    s < t || (s == t && i > j)
  }

  ghost predicate Newer(files: seq<File>, ids: seq<nat>) {
    InFiles(files, ids) && forall a, b :: 0 <= a < b < |ids| ==> CreatedBefore(files, ids[b], ids[a])
  }

  lemma {:induction false} InsertKeepsNewer(files: seq<File>, ids: seq<nat>, id: nat)
    requires id < |files| && Newer(files, ids) && forall x :: x in ids ==> x < id
    ensures Newer(files, InsertByAge(files, ids, id))
    ensures forall x :: x in InsertByAge(files, ids, id) ==> x in ids || x == id
  {
    var n := |ids| - 1;
    if ids != [] && Created(files[ids[n]]) < Created(files[id]) {
      assert ids == ids[..n] + [ids[n]];
      assert forall x :: x in ids[..n] ==> x in ids;
      InsertKeepsNewer(files, ids[..n], id);
      var front := InsertByAge(files, ids[..n], id);
      forall a | 0 <= a < |front| ensures CreatedBefore(files, ids[n], front[a]) {
        assert front[a] in front;
        if front[a] != id { var m :| 0 <= m < n && ids[..n][m] == front[a]; }
      }
    }
    if ids != [] && Created(files[ids[n]]) >= Created(files[id]) {
      forall a | 0 <= a <= n ensures CreatedBefore(files, id, ids[a]) {
        assert ids[a] in ids;
        if a < n { assert CreatedBefore(files, ids[n], ids[a]); }
      }
    }
  }

  lemma {:induction false} SortIsNewer(files: seq<File>, ids: seq<nat>)
    requires InFiles(files, ids) && Ascending(ids)
    ensures Newer(files, NewestFirst(files, ids))
    ensures forall x :: x in NewestFirst(files, ids) ==> x in ids
  {
    if ids != [] {
      var n := |ids| - 1;
      assert ids == ids[..n] + [ids[n]];
      SortIsNewer(files, ids[..n]);
      InsertKeepsNewer(files, NewestFirst(files, ids[..n]), ids[n]);
    }
  }

  /** The files renamed are taken newest first, all created before the one that keeps its name. */
  lemma {:induction false} StaleAreNewestFirst(files: seq<File>, key: Key)
    ensures Newer(files, Ordered(files, key))
    ensures Ordered(files, key) != [] ==> Ordered(files, key) == [Ordered(files, key)[0]] + Stale(files, key)
  {
    SortIsNewer(files, Members(files, key));
  }

  // --------------------------------------------------------------------- one group

  /** Update `i` of the group takes effect: it is before the one that fails, or that one and fails late. */
  predicate TakesEffect(fault: Fault, i: nat) {
    fault == NoFault || (fault.WriteFails? && (i < fault.at || (i == fault.at && fault.applied)))
  }

  /** None of the `n` updates fails, nor the reading before them. */
  predicate AllWell(fault: Fault, n: nat) { fault == NoFault || (fault.WriteFails? && n <= fault.at) }

  lemma {:induction false} WrittenTakeEffect(n: nat, fault: Fault, i: nat)
    requires i < n
    ensures i < Written(n, fault) <==> TakesEffect(fault, i)
  {
  }

  lemma {:induction false} AppliedRenames(files: seq<File>, rs: seq<Rename>, i: nat)
    requires DistinctIds(rs) && i < |files|
    ensures forall j :: 0 <= j < |rs| && rs[j].id == i ==> Applied(files, rs)[i] == files[i].(name := rs[j].to)
    ensures (forall j :: 0 <= j < |rs| ==> rs[j].id != i) ==> Applied(files, rs)[i] == files[i]
  {
    AppliedAt(files, rs, i);
    forall j: nat | j < |rs| && rs[j].id == i ensures Applied(files, rs)[i] == files[i].(name := rs[j].to) {
      assert RenamedBy(files, Applied(files, rs), rs, i, j);
    }
  }

  /** A live group renames exactly the files whose update takes effect. */
  lemma {:induction false} GroupWrites(found: seq<File>, p: Progress, key: Key, fault: Fault, i: nat)
    requires i < |Renames(found, p.files, key)| && |p.files| == |found|
    ensures var rs, q := Renames(found, p.files, key), GroupStep(found, p, key, fault, false);
            && rs[i].id < |q.files|
            && q.files[rs[i].id] == (if TakesEffect(fault, i) then p.files[rs[i].id].(name := rs[i].to)
                                     else p.files[rs[i].id])
  {
    var rs := Renames(found, p.files, key);
    RenamesAreFresh(found, p.files, key, |rs|);
    assert rs[..|rs|] == rs;
    WrittenTakeEffect(|rs|, fault, i);
    PrefixRenames(p.files, rs, Written(|rs|, fault), i);
  }

  lemma {:induction false} PrefixRenames(files: seq<File>, rs: seq<Rename>, w: nat, i: nat)
    requires DistinctIds(rs) && w <= |rs| && i < |rs| && rs[i].id < |files|
    ensures var file := files[rs[i].id];
            Applied(files, rs[..w])[rs[i].id] == if i < w then file.(name := rs[i].to) else file
  {
    AppliedRenames(files, rs[..w], rs[i].id);
    if i < w { assert rs[..w][i] == rs[i]; }
  }

  /** It is counted as renamed or as an error, by whether all went well. */
  lemma {:induction false} GroupCounts(found: seq<File>, p: Progress, key: Key, fault: Fault)
    ensures var rs, q := Renames(found, p.files, key), GroupStep(found, p, key, fault, false);
            && (AllWell(fault, |rs|) ==> q.renamed == p.renamed + |rs| && q.errors == p.errors)
            && (!AllWell(fault, |rs|) ==> q.renamed == p.renamed && q.errors == p.errors + 1)
  {
  }

  /** A dry run counts the renames of every group whose scope can be read. */
  lemma {:induction false} DryGroupCounts(found: seq<File>, p: Progress, key: Key, fault: Fault)
    ensures var q := GroupStep(found, p, key, fault, true);
            && q.files == p.files
            && q.renamed == p.renamed + (if fault.ReadFails? then 0 else |Stale(found, key)|)
            && q.errors == p.errors + (if fault.ReadFails? then 1 else 0)
  {
  }

  lemma {:induction false} CountIsCardinality(files: seq<File>)
    ensures CountCode(files) == |set i | 0 <= i < |files| && files[i].codeExecution|
  {
    if files != [] {
      var n := |files| - 1;
      CountIsCardinality(files[..n]);
      var before := set i | 0 <= i < n && files[..n][i].codeExecution;
      var all := set i | 0 <= i < |files| && files[i].codeExecution;
      assert all == before + if files[n].codeExecution then {n} else {};
    }
  }
}
