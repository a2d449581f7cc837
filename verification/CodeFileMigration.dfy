/** Renaming of code-execution files that share a name within one conversation and tenant, so that
    the unique index on (filename, conversation, context, tenant) can be built.  A file's `_id` is its
    position in the collection; an absent and a null scope field are one value. */
module CodeFileMigration {
  import opened Strings
  import opened Wrappers

  datatype File = File(codeExecution: bool, name: string, conversation: Option<string>, tenant: Option<string>,
                       createdAt: Option<int>)

  datatype Key = Key(name: string, conversation: Option<string>, tenant: Option<string>)

  datatype Rename = Rename(id: nat, to: string)

  // ------------------------------------------------------------------- fresh names

  function WithoutTrailingSlashes(s: string): (t: string)
    ensures t <= s
  {
    if s != "" && s[|s| - 1] == '/' then WithoutTrailingSlashes(s[..|s| - 1]) else s
  }

  /** Position after the last occurrence of `c`, 0 when there is none. */
  function AfterLast(s: string, c: char): (p: nat)
    ensures p <= |s| && (p > 0 ==> s[p - 1] == c) && forall i :: p <= i < |s| ==> s[i] != c
  {
    if s == "" then 0 else if s[|s| - 1] == c then |s| else AfterLast(s[..|s| - 1], c)
  }

  /** `path.extname` on POSIX: from the last dot of the last component, unless it starts it. */
  function Extname(filename: string): (ext: string)
    ensures |ext| <= |filename|
  {
    var t := WithoutTrailingSlashes(filename);
    var component := t[AfterLast(t, '/')..];
    var p := AfterLast(component, '.');
    if p <= 1 || component == ".." then "" else component[p - 1..]
  }

  function SuffixFilename(filename: string, n: nat): string {
    var ext := Extname(filename);
    filename[..|filename| - |ext|] + " (" + Decimal(n) + ")" + ext
  }

  lemma {:induction false} SuffixInjective(filename: string, m: nat, n: nat)
    requires SuffixFilename(filename, m) == SuffixFilename(filename, n)
    ensures m == n
  {
    var ext := Extname(filename);
    var base := filename[..|filename| - |ext|] + " (";
    assert SuffixFilename(filename, m) == base + Decimal(m) + (")" + ext);
    assert SuffixFilename(filename, n) == base + Decimal(n) + (")" + ext);
    assert Decimal(m) == SuffixFilename(filename, m)[|base|..|base| + |Decimal(m)|];
    assert Decimal(n) == SuffixFilename(filename, n)[|base|..|base| + |Decimal(n)|];
    DecimalInjective(m, n);
  }

  /** The first `n` candidates are `n` different names. */
  lemma {:induction false} CandidatesAreMany(filename: string, n: nat) returns (names: set<string>)
    ensures |names| == n && forall x :: x in names ==> exists m :: 1 <= m <= n && x == SuffixFilename(filename, m)
  {
    if n == 0 {
      names := {};
    } else {
      var before := CandidatesAreMany(filename, n - 1);
      if SuffixFilename(filename, n) in before {
        var m :| 1 <= m <= n - 1 && SuffixFilename(filename, n) == SuffixFilename(filename, m);
        SuffixInjective(filename, m, n);
      }
      names := before + {SuffixFilename(filename, n)};
    }
  }

  ghost predicate AllTaken(filename: string, taken: set<string>, n: nat) {
    forall m :: 1 <= m < n ==> SuffixFilename(filename, m) in taken
  }

  /** Pigeonhole: the search for a free name cannot run past |taken| + 1 candidates. */
  lemma {:induction false} SearchIsBounded(filename: string, taken: set<string>, n: nat)
    requires n >= 1 && AllTaken(filename, taken, n)
    ensures n <= |taken| + 1
  {
    var names := CandidatesAreMany(filename, n - 1);
    SubsetIsSmaller(names, taken);
  }

  lemma {:induction false} SubsetIsSmaller<T>(a: set<T>, b: set<T>)
    requires a <= b
    ensures |a| <= |b|
  {
    if a != {} {
      var x :| x in a;
      SubsetIsSmaller(a - {x}, b - {x});
    }
  }

  /** The least n, from `n` on, whose candidate is free. */
  ghost function FreeIndex(filename: string, taken: set<string>, n: nat): (f: nat)
    requires n >= 1 && AllTaken(filename, taken, n)
    ensures n <= f <= |taken| + 1 && SuffixFilename(filename, f) !in taken && AllTaken(filename, taken, f)
    decreases |taken| + 1 - n
  {
    SearchIsBounded(filename, taken, n);
    if SuffixFilename(filename, n) !in taken then n
    else
      SearchIsBounded(filename, taken, n + 1);
      FreeIndex(filename, taken, n + 1)
  }

  ghost function NextName(filename: string, taken: set<string>): string {
    SuffixFilename(filename, FreeIndex(filename, taken, 1))
  }

  method NextAvailableName(filename: string, taken: set<string>) returns (name: string, taken': set<string>)
    ensures name == NextName(filename, taken) && name !in taken
    ensures exists n :: 1 <= n <= |taken| + 1 && name == SuffixFilename(filename, n) && AllTaken(filename, taken, n)
    ensures taken' == taken + {name}
  {
    var n := 1;
    while SuffixFilename(filename, n) in taken
      invariant n >= 1 && AllTaken(filename, taken, n)
      invariant FreeIndex(filename, taken, n) == FreeIndex(filename, taken, 1)
      decreases |taken| + 1 - n
    {
      SearchIsBounded(filename, taken, n);
      SearchIsBounded(filename, taken, n + 1);
      n := n + 1;
    }
    SearchIsBounded(filename, taken, n);
    return SuffixFilename(filename, n), taken + {SuffixFilename(filename, n)};
  }

  /** The names handed out one after the other to `k` files. */
  ghost function FreshNames(filename: string, taken: set<string>, k: nat): (names: seq<string>)
    ensures |names| == k
    decreases k
  {
    if k == 0 then [] else
    var name := NextName(filename, taken);
    [name] + FreshNames(filename, taken + {name}, k - 1)
  }

  lemma {:induction false} FirstFreshName(filename: string, taken: set<string>, k: nat)
    requires k > 0
    ensures FreshNames(filename, taken, k) ==
            [NextName(filename, taken)] + FreshNames(filename, taken + {NextName(filename, taken)}, k - 1)
  {
  }

  /** Names outside `taken`, all different. */
  predicate FreshAndDifferent(names: seq<string>, taken: set<string>) {
    && (forall i :: 0 <= i < |names| ==> names[i] !in taken)
    && forall i, j :: 0 <= i < j < |names| ==> names[i] != names[j]
  }

  lemma {:induction false} FreshCons(name: string, rest: seq<string>, taken: set<string>)
    requires name !in taken && FreshAndDifferent(rest, taken + {name})
    ensures FreshAndDifferent([name] + rest, taken)
  {
    var names := [name] + rest;
    assert forall i :: 1 <= i < |names| ==> names[i] == rest[i - 1];
    assert forall i :: 0 <= i < |rest| ==> rest[i] !in taken && rest[i] != name;
  }

  lemma {:induction false} FreshNamesAreFresh(filename: string, taken: set<string>, k: nat)
    ensures FreshAndDifferent(FreshNames(filename, taken, k), taken)
    decreases k
  {
    if k > 0 {
      var name := NextName(filename, taken);
      FirstFreshName(filename, taken, k);
      FreshNamesAreFresh(filename, taken + {name}, k - 1);
      FreshCons(name, FreshNames(filename, taken + {name}, k - 1), taken);
    }
  }

  // ------------------------------------------------------------------------ groups

  function KeyOf(f: File): Key { Key(f.name, f.conversation, f.tenant) }

  predicate Ascending(ids: seq<nat>) {
    forall i, j :: 0 <= i < j < |ids| ==> ids[i] < ids[j]
  }

  predicate InFiles(files: seq<File>, ids: seq<nat>) {
    forall i :: 0 <= i < |ids| ==> ids[i] < |files|
  }

  predicate Distinct<T(==)>(xs: seq<T>) {
    forall i, j :: 0 <= i < j < |xs| ==> xs[i] != xs[j]
  }

  predicate HasMember(files: seq<File>, key: Key, m: nat) {
    m < |files| && files[m].codeExecution && KeyOf(files[m]) == key
  }

  /** Ids of the code-execution files with this key, in collection order. */
  function Members(files: seq<File>, key: Key): (ms: seq<nat>)
    ensures Ascending(ms) && InFiles(files, ms)
    ensures forall m: nat :: m in ms <==> HasMember(files, key, m)
  {
    if files == [] then [] else
    var n := |files| - 1;
    var before := Members(files[..n], key);
    assert forall m: nat :: m < n ==> (HasMember(files[..n], key, m) <==> HasMember(files, key, m));
    before + (if HasMember(files, key, n) then [n] else [])
  }

  function Created(f: File): int { if f.createdAt.Some? then f.createdAt.value else 0 }

  /** Stable insertion, newest first. */
  function InsertByAge(files: seq<File>, ids: seq<nat>, id: nat): (r: seq<nat>)
    requires id < |files| && InFiles(files, ids)
    ensures InFiles(files, r) && |r| == |ids| + 1
  {
    var n := |ids| - 1;
    if ids == [] || Created(files[ids[n]]) >= Created(files[id]) then ids + [id]
    else InsertByAge(files, ids[..n], id) + [ids[n]]
  }

  /** The ids ordered by the stable sort on creation time, a missing time counting as 0. */
  function NewestFirst(files: seq<File>, ids: seq<nat>): (r: seq<nat>)
    requires InFiles(files, ids)
    ensures InFiles(files, r) && |r| == |ids|
  {
    if ids == [] then [] else
    var n := |ids| - 1;
    InsertByAge(files, NewestFirst(files, ids[..n]), ids[n])
  }

  lemma {:induction false} InsertByAgeMembers(files: seq<File>, ids: seq<nat>, id: nat)
    requires id < |files| && InFiles(files, ids) && Distinct(ids) && id !in ids
    ensures Distinct(InsertByAge(files, ids, id))
    ensures forall x: nat :: x in InsertByAge(files, ids, id) <==> x in ids || x == id
  {
    var n := |ids| - 1;
    if ids != [] {
      assert ids == ids[..n] + [ids[n]];
      if Created(files[ids[n]]) < Created(files[id]) {
        InsertByAgeMembers(files, ids[..n], id);
        var t := InsertByAge(files, ids[..n], id);
        forall i | 0 <= i < |t| ensures t[i] != ids[n] { assert t[i] in t; }
      }
    }
  }

  lemma {:induction false} InsertByAgeFirst(files: seq<File>, ids: seq<nat>, id: nat)
    requires id < |files| && InFiles(files, ids) && ids != []
    requires forall x :: x in ids ==> Created(files[x]) <= Created(files[ids[0]])
    ensures InsertByAge(files, ids, id)[0] == if Created(files[id]) > Created(files[ids[0]]) then id else ids[0]
  {
    var n := |ids| - 1;
    if Created(files[ids[n]]) < Created(files[id]) && n > 0 { InsertByAgeFirst(files, ids[..n], id); }
  }

  /** `i` is older than `j`, or as old and stored later. */
  predicate Older(files: seq<File>, i: nat, j: nat) {
    && i < |files| && j < |files|
    && (Created(files[i]) < Created(files[j]) || (Created(files[i]) == Created(files[j]) && i > j))
  }

  lemma {:induction false} NewestFirstMembers(files: seq<File>, ids: seq<nat>)
    requires InFiles(files, ids) && Ascending(ids)
    ensures Distinct(NewestFirst(files, ids))
    ensures forall x: nat :: x in NewestFirst(files, ids) <==> x in ids
  {
    var n := |ids| - 1;
    if ids != [] {
      assert ids == ids[..n] + [ids[n]];
      NewestFirstMembers(files, ids[..n]);
      InsertByAgeMembers(files, NewestFirst(files, ids[..n]), ids[n]);
    }
  }

  /** Inserting a later id keeps the first one the newest of all. */
  lemma {:induction false} InsertKeepsNewestFirst(files: seq<File>, before: seq<nat>, id: nat)
    requires id < |files| && InFiles(files, before) && before != []
    requires forall x :: x in before ==> x < id && (x != before[0] ==> Older(files, x, before[0]))
    ensures forall x :: (x in before || x == id) && x != InsertByAge(files, before, id)[0] ==>
              Older(files, x, InsertByAge(files, before, id)[0])
  {
    assert before[0] in before;
    forall x | x in before ensures Created(files[x]) <= Created(files[before[0]]) {
      if x != before[0] { assert Older(files, x, before[0]); }
    }
    InsertByAgeFirst(files, before, id);
  }

  lemma {:induction false} FirstIsNewest(files: seq<File>, ids: seq<nat>)
    requires ids != [] && InFiles(files, ids) && Ascending(ids)
    ensures forall x :: x in ids && x != NewestFirst(files, ids)[0] ==> Older(files, x, NewestFirst(files, ids)[0])
  {
    var n := |ids| - 1;
    assert ids == ids[..n] + [ids[n]];
    if n > 0 {
      FirstIsNewest(files, ids[..n]);
      NewestFirstMembers(files, ids[..n]);
      InsertKeepsNewestFirst(files, NewestFirst(files, ids[..n]), ids[n]);
    }
  }

  function Ordered(files: seq<File>, key: Key): (r: seq<nat>)
    ensures InFiles(files, r) && |r| == |Members(files, key)|
  {
    NewestFirst(files, Members(files, key))
  }

  /** All but the newest file of the group. */
  function Stale(files: seq<File>, key: Key): (r: seq<nat>)
    ensures InFiles(files, r)
  {
    if Ordered(files, key) == [] then [] else Ordered(files, key)[1..]
  }

  /** The file that keeps its name: the newest code-execution file with its key. */
  ghost predicate Newest(files: seq<File>, i: nat) {
    && i < |files| && files[i].codeExecution
    && forall j: nat :: j != i && HasMember(files, KeyOf(files[i]), j) ==> Older(files, j, i)
  }

  /** A group is its newest file and the stale ones, each once. */
  lemma {:induction false} GroupIsNewestAndStale(files: seq<File>, key: Key)
    ensures Distinct(Stale(files, key))
    ensures forall i: nat :: i in Stale(files, key) <==> HasMember(files, key, i) && !Newest(files, i)
  {
    var ids, r := Members(files, key), Ordered(files, key);
    if ids != [] {
      NewestFirstMembers(files, ids);
      FirstIsNewest(files, ids);
      assert r == [r[0]] + r[1..];
      assert r[0] in r && r[0] in ids;
      assert Newest(files, r[0]);
      forall i: nat | i in ids && i != r[0] ensures !Newest(files, i) { assert Older(files, i, r[0]); }
      forall i: nat | i in r[1..] ensures i != r[0] {
        var m :| 0 <= m < |r[1..]| && r[1..][m] == i;
        assert r[m + 1] == i;
      }
    }
  }

  // --------------------------------------------------------------- one duplicate group

  /** What can go wrong in one group: its scope cannot be read, or write `at` reports a failure,
      whether or not it took effect. */
  datatype Fault = NoFault | ReadFails | WriteFails(at: nat, applied: bool)

  predicate InScope(f: File, key: Key) {
    f.codeExecution && f.conversation == key.conversation && f.tenant == key.tenant
  }

  function ScopeNames(files: seq<File>, key: Key): set<string> {
    set i | 0 <= i < |files| && InScope(files[i], key) :: files[i].name
  }

  /** New names for the group as it was found, free in the scope as it is now. */
  ghost function Renames(found: seq<File>, files: seq<File>, key: Key): (rs: seq<Rename>)
    ensures |rs| == |Stale(found, key)|
  {
    var stale := Stale(found, key);
    Paired(stale, FreshNames(key.name, ScopeNames(files, key), |stale|))
  }

  function Paired(ids: seq<nat>, names: seq<string>): (rs: seq<Rename>)
    requires |ids| == |names|
    ensures |rs| == |ids|
  {
    seq(|ids|, i requires 0 <= i < |ids| => Rename(ids[i], names[i]))
  }

  function Renamed(files: seq<File>, r: Rename): (after: seq<File>)
    ensures |after| == |files|
  {
    if r.id < |files| then files[r.id := files[r.id].(name := r.to)] else files
  }

  function Applied(files: seq<File>, rs: seq<Rename>): (after: seq<File>)
    ensures |after| == |files|
  {
    if rs == [] then files else Renamed(Applied(files, rs[..|rs| - 1]), rs[|rs| - 1])
  }

  /** How many of `n` writes take effect, and whether all succeed. */
  function Written(n: nat, fault: Fault): (w: nat)
    ensures w <= n
  {
    match fault
    case NoFault => n
    case ReadFails => 0
    case WriteFails(at, applied) => if at >= n then n else if applied then at + 1 else at
  }

  predicate Succeeds(n: nat, fault: Fault) {
    fault.NoFault? || (fault.WriteFails? && fault.at >= n)
  }

  datatype Progress = Progress(files: seq<File>, renamed: nat, errors: nat)

  /** The renames are planned for the group as found and the scope as it is now, then written. */
  ghost function GroupStep(found: seq<File>, p: Progress, key: Key, fault: Fault, dryRun: bool): Progress {
    Outcome(Renames(found, p.files, key), p, fault, dryRun)
  }

  function Outcome(rs: seq<Rename>, p: Progress, fault: Fault, dryRun: bool): Progress {
    if dryRun then (if fault.ReadFails? then p.(errors := p.errors + 1) else p.(renamed := p.renamed + |rs|))
    else Progress(Applied(p.files, rs[..Written(|rs|, fault)]),
                  p.renamed + if Succeeds(|rs|, fault) then |rs| else 0,
                  p.errors + if Succeeds(|rs|, fault) then 0 else 1)
  }

  ghost function AllGroups(found: seq<File>, keys: seq<Key>, faults: seq<Fault>, dryRun: bool): Progress
    requires |keys| == |faults|
  {
    if keys == [] then Progress(found, 0, 0) else
    var n := |keys| - 1;
    GroupStep(found, AllGroups(found, keys[..n], faults[..n], dryRun), keys[n], faults[n], dryRun)
  }

  /** The aggregation lists every key held by more than one code-execution file, in some order. */
  ghost predicate Enumerates(files: seq<File>, keys: seq<Key>) {
    Distinct(keys) && forall key :: key in keys <==> |Members(files, key)| > 1
  }

  ghost predicate NoDuplicates(files: seq<File>) {
    forall i: nat, j: nat :: i != j ==> !SharesKey(files, i, j)
  }

  // ------------------------------------------------------------------ the invariants

  /** The code-execution files that are not the newest with their key. */
  ghost function StaleIds(files: seq<File>): set<nat> {
    set i: nat | i < |files| && files[i].codeExecution && !Newest(files, i)
  }

  /** Two code-execution files of one conversation and tenant with one name. */
  predicate SharesKey(files: seq<File>, i: nat, j: nat) {
    && i < |files| && j < |files| && files[i].codeExecution && files[j].codeExecution
    && files[i].name == files[j].name && files[i].conversation == files[j].conversation
    && files[i].tenant == files[j].tenant
  }

  predicate SameButName(f: File, g: File) { f == g.(name := f.name) }

  /** Only names change, only names of stale files, and files that share a key now have kept their
      names: no rename ever creates a duplicate. */
  ghost predicate Repaired(found: seq<File>, files: seq<File>, stale: set<nat>) {
    && |files| == |found|
    && (forall i: nat :: i < |files| ==> SameButName(files[i], found[i]) && (files[i] == found[i] || i in stale))
    && (forall i: nat, j: nat :: i != j && SharesKey(files, i, j) ==> files[i] == found[i])
  }

  predicate DistinctIds(rs: seq<Rename>) {
    forall i, j :: 0 <= i < j < |rs| ==> rs[i].id != rs[j].id
  }

  /** Renames within one group of stale files, to different names outside `taken`. */
  ghost predicate FreshRenames(found: seq<File>, stale: set<nat>, key: Key, taken: set<string>, rs: seq<Rename>) {
    && DistinctIds(rs)
    && (forall k :: 0 <= k < |rs| ==> HasMember(found, key, rs[k].id) && rs[k].id in stale && rs[k].to !in taken)
    && (forall k, l :: 0 <= k < l < |rs| ==> rs[k].to != rs[l].to)
  }

  ghost predicate Covers(files: seq<File>, key: Key, taken: set<string>) {
    forall j: nat :: j < |files| && InScope(files[j], key) ==> files[j].name in taken
  }

  predicate RenamedBy(files: seq<File>, after: seq<File>, rs: seq<Rename>, i: nat, k: nat) {
    && i < |files| && i < |after| && k < |rs| && rs[k].id == i && after[i] == files[i].(name := rs[k].to)
  }

  lemma {:induction false} AppliedAt(files: seq<File>, rs: seq<Rename>, i: nat)
    requires i < |files| && DistinctIds(rs)
    ensures Applied(files, rs)[i] == files[i] || exists k: nat :: RenamedBy(files, Applied(files, rs), rs, i, k)
    ensures forall k: nat :: k < |rs| && rs[k].id == i ==> RenamedBy(files, Applied(files, rs), rs, i, k)
  {
    if rs != [] {
      var n := |rs| - 1;
      var before := Applied(files, rs[..n]);
      AppliedAt(files, rs[..n], i);
      if rs[n].id == i {
        assert before[i] == files[i] by {
          assert forall k: nat :: k < n ==> rs[..n][k] == rs[k];
        }
        assert RenamedBy(files, Applied(files, rs), rs, i, n);
      } else if before[i] != files[i] {
        var k: nat :| RenamedBy(files, before, rs[..n], i, k);
        assert RenamedBy(files, Applied(files, rs), rs, i, k);
      }
    }
  }

  lemma {:induction false} NamesAreCovered(files: seq<File>, key: Key)
    ensures Covers(files, key, ScopeNames(files, key))
  {
  }

  /** The `w` first of the ids `ids` renamed to the names `names`. */
  lemma {:induction false} PairsAreFresh(found: seq<File>, stale: set<nat>, key: Key, taken: set<string>,
          ids: seq<nat>, names: seq<string>, rs: seq<Rename>)
    requires Distinct(ids) && forall i :: 0 <= i < |ids| ==> HasMember(found, key, ids[i]) && ids[i] in stale
    requires |names| == |ids| && FreshAndDifferent(names, taken)
    requires |rs| <= |ids| && forall i :: 0 <= i < |rs| ==> rs[i] == Rename(ids[i], names[i])
    ensures FreshRenames(found, stale, key, taken, rs)
  {
  }

  lemma {:induction false} StaleFacts(found: seq<File>, key: Key)
    ensures Distinct(Stale(found, key))
    ensures forall i: nat :: i in Stale(found, key) <==> HasMember(found, key, i) && i in StaleIds(found)
  {
    GroupIsNewestAndStale(found, key);
  }

  lemma {:induction false} RenamesAreFresh(found: seq<File>, files: seq<File>, key: Key, w: nat)
    requires w <= |Renames(found, files, key)|
    ensures FreshRenames(found, StaleIds(found), key, ScopeNames(files, key), Renames(found, files, key)[..w])
  {
    var stale, taken := Stale(found, key), ScopeNames(files, key);
    StaleFacts(found, key);
    FreshNamesAreFresh(key.name, taken, |stale|);
    assert forall i :: 0 <= i < |stale| ==> stale[i] in stale;
    PairsAreFresh(found, StaleIds(found), key, taken, stale, FreshNames(key.name, taken, |stale|),
                  Renames(found, files, key)[..w]);
  }

  lemma {:induction false} PairStaysApart(found: seq<File>, files: seq<File>, stale: set<nat>, key: Key,
          taken: set<string>, rs: seq<Rename>, i: nat, j: nat)
    requires |files| == |found| && (forall m: nat :: m < |files| ==> SameButName(files[m], found[m]))
    requires FreshRenames(found, stale, key, taken, rs) && Covers(files, key, taken)
    requires i != j && SharesKey(Applied(files, rs), i, j)
    ensures Applied(files, rs)[i] == files[i]
  {
    var after := Applied(files, rs);
    AppliedAt(files, rs, i);
    AppliedAt(files, rs, j);
    assert InScope(found[i], key) ==> InScope(files[j], key);
  }

  lemma {:induction false} FreshRenamesKeepRepaired(found: seq<File>, files: seq<File>, stale: set<nat>, key: Key,
          taken: set<string>, rs: seq<Rename>)
    requires Repaired(found, files, stale) && FreshRenames(found, stale, key, taken, rs) && Covers(files, key, taken)
    ensures Repaired(found, Applied(files, rs), stale)
  {
    var after := Applied(files, rs);
    forall i: nat | i < |after| ensures SameButName(after[i], found[i]) && (after[i] == found[i] || i in stale) {
      AppliedAt(files, rs, i);
    }
    forall i: nat, j: nat | i != j && SharesKey(after, i, j) ensures after[i] == found[i] {
      PairStaysApart(found, files, stale, key, taken, rs, i, j);
      PairStaysApart(found, files, stale, key, taken, rs, j, i);
      assert SharesKey(files, i, j);
    }
  }

  lemma {:induction false} GroupStepKeepsRepaired(found: seq<File>, p: Progress, key: Key, fault: Fault)
    requires Repaired(found, p.files, StaleIds(found))
    ensures Repaired(found, GroupStep(found, p, key, fault, false).files, StaleIds(found))
  {
    var rs := Renames(found, p.files, key);
    RenamesAreFresh(found, p.files, key, Written(|rs|, fault));
    NamesAreCovered(p.files, key);
    FreshRenamesKeepRepaired(found, p.files, StaleIds(found), key, ScopeNames(p.files, key),
                             rs[..Written(|rs|, fault)]);
  }

  /** Whatever fails, the run keeps the collection repaired. */
  lemma {:induction false} RunKeepsRepaired(found: seq<File>, keys: seq<Key>, faults: seq<Fault>)
    requires |keys| == |faults|
    ensures Repaired(found, AllGroups(found, keys, faults, false).files, StaleIds(found))
  {
    if keys != [] {
      var n := |keys| - 1;
      RunKeepsRepaired(found, keys[..n], faults[..n]);
      GroupStepKeepsRepaired(found, AllGroups(found, keys[..n], faults[..n], false), keys[n], faults[n]);
    }
  }

  /** What a run has done so far: files of other groups are as found, and, when nothing failed, every
      stale file of the listed groups has a new name. */
  ghost predicate Touched(found: seq<File>, files: seq<File>, stale: set<nat>, keys: seq<Key>, clean: bool) {
    && |files| == |found|
    && (forall i: nat :: i < |found| && KeyOf(found[i]) !in keys ==> files[i] == found[i])
    && (clean ==> forall i: nat :: i < |found| && found[i].codeExecution && i in stale && KeyOf(found[i]) in keys ==>
                    files[i].name != found[i].name)
  }

  lemma {:induction false} FreshRenamesTouch(found: seq<File>, files: seq<File>, stale: set<nat>, keys: seq<Key>,
          key: Key, taken: set<string>,
                          rs: seq<Rename>, clean: bool)
    requires Touched(found, files, stale, keys, clean) && key !in keys
    requires FreshRenames(found, stale, key, taken, rs) && Covers(files, key, taken)
    requires clean ==> forall i: nat :: i in stale && HasMember(found, key, i) ==>
               exists k: nat :: k < |rs| && rs[k].id == i
    ensures Touched(found, Applied(files, rs), stale, keys + [key], clean)
  {
    var after := Applied(files, rs);
    forall i: nat | i < |found|
      ensures KeyOf(found[i]) !in keys + [key] ==> after[i] == found[i]
      ensures clean && i in stale && KeyOf(found[i]) in keys + [key] && found[i].codeExecution ==>
                after[i].name != found[i].name
    {
      AppliedAt(files, rs, i);
    }
  }

  lemma {:induction false} CleanStepTouches(found: seq<File>, p: Progress, keys: seq<Key>, key: Key, fault: Fault)
    requires Touched(found, p.files, StaleIds(found), keys, p.errors == 0) && key !in keys
    ensures Touched(found, GroupStep(found, p, key, fault, false).files, StaleIds(found), keys + [key],
                    GroupStep(found, p, key, fault, false).errors == 0)
  {
    var rs, stale := Renames(found, p.files, key), Stale(found, key);
    var w := Written(|rs|, fault);
    RenamesAreFresh(found, p.files, key, w);
    NamesAreCovered(p.files, key);
    StaleFacts(found, key);
    if Succeeds(|rs|, fault) {
      forall i: nat | i in StaleIds(found) && HasMember(found, key, i)
        ensures exists k: nat :: k < w && rs[..w][k].id == i
      {
        var k: nat :| k < |stale| && stale[k] == i;
        assert rs[..w][k].id == i;
      }
    }
    FreshRenamesTouch(found, p.files, StaleIds(found), keys, key, ScopeNames(p.files, key), rs[..w],
                      p.errors == 0 && Succeeds(|rs|, fault));
  }

  lemma {:induction false} NextStepTouches(found: seq<File>, p: Progress, q: Progress, before: seq<Key>,
          keys: seq<Key>, fault: Fault)
    requires keys != [] && keys == before + [keys[|keys| - 1]] && keys[|keys| - 1] !in before
    requires Touched(found, p.files, StaleIds(found), before, p.errors == 0)
    requires q == GroupStep(found, p, keys[|keys| - 1], fault, false)
    ensures Touched(found, q.files, StaleIds(found), keys, q.errors == 0)
  {
    CleanStepTouches(found, p, before, keys[|keys| - 1], fault);
  }

  lemma {:induction false} LastIsNew(keys: seq<Key>)
    requires Distinct(keys) && keys != []
    ensures keys == keys[..|keys| - 1] + [keys[|keys| - 1]] && keys[|keys| - 1] !in keys[..|keys| - 1]
    ensures Distinct(keys[..|keys| - 1])
  {
  }

  lemma {:induction false} RunTouches(found: seq<File>, keys: seq<Key>, faults: seq<Fault>, q: Progress)
    requires |keys| == |faults| && Distinct(keys) && q == AllGroups(found, keys, faults, false)
    ensures Touched(found, q.files, StaleIds(found), keys, q.errors == 0)
  {
    if keys != [] {
      var n := |keys| - 1;
      var p := AllGroups(found, keys[..n], faults[..n], false);
      LastIsNew(keys);
      RunTouches(found, keys[..n], faults[..n], p);
      NextStepTouches(found, p, q, keys[..n], keys, faults[n]);
    }
  }

  // -------------------------------------------------------------------- main results

  lemma {:induction false} TwoMembers(files: seq<File>, i: nat, j: nat)
    requires i != j && SharesKey(files, i, j)
    ensures |Members(files, KeyOf(files[i]))| > 1
  {
    var ms := Members(files, KeyOf(files[i]));
    assert HasMember(files, KeyOf(files[i]), i) && HasMember(files, KeyOf(files[i]), j);
    var a :| 0 <= a < |ms| && ms[a] == i;
    var b :| 0 <= b < |ms| && ms[b] == j;
    assert a != b;
  }

  lemma {:induction false} OneIsStale(files: seq<File>, i: nat, j: nat)
    requires i != j && SharesKey(files, i, j)
    ensures i in StaleIds(files) || j in StaleIds(files)
  {
    assert HasMember(files, KeyOf(files[i]), j) && HasMember(files, KeyOf(files[j]), i);
  }

  lemma {:induction false} CleanIsUnique(found: seq<File>, files: seq<File>, keys: seq<Key>)
    requires Repaired(found, files, StaleIds(found)) && Touched(found, files, StaleIds(found), keys, true)
    requires forall key :: |Members(found, key)| > 1 ==> key in keys
    ensures NoDuplicates(files)
  {
    forall i: nat, j: nat | i != j && SharesKey(files, i, j) ensures false {
      assert SharesKey(files, j, i);
      TwoMembers(found, i, j);
      OneIsStale(found, i, j);
    }
  }

  /** A live run without errors leaves no two code-execution files with one key, so that the unique
      index can be built. */
  lemma {:induction false} CleanRunLeavesNoDuplicates(found: seq<File>, keys: seq<Key>, faults: seq<Fault>)
    requires |keys| == |faults| && Enumerates(found, keys)
    requires AllGroups(found, keys, faults, false).errors == 0
    ensures NoDuplicates(AllGroups(found, keys, faults, false).files)
  {
    RunKeepsRepaired(found, keys, faults);
    RunTouches(found, keys, faults, AllGroups(found, keys, faults, false));
    CleanIsUnique(found, AllGroups(found, keys, faults, false).files, keys);
  }

  /** Whatever fails, a run leaves the newest file of every group its name, changes nothing but names,
      leaves every file outside the duplicate groups as it was, and creates no duplicate. */
  lemma {:induction false} RunChangesOnlyStaleNames(found: seq<File>, keys: seq<Key>, faults: seq<Fault>, i: nat)
    requires |keys| == |faults| && Enumerates(found, keys) && i < |found|
    ensures var files := AllGroups(found, keys, faults, false).files;
            && |files| == |found| && files[i] == found[i].(name := files[i].name)
            && (!found[i].codeExecution || Newest(found, i) ==> files[i] == found[i])
            && (|Members(found, KeyOf(found[i]))| <= 1 ==> files[i] == found[i])
            && (Newest(found, i) ==> Newest(files, i))
            && forall j: nat :: j != i && SharesKey(files, i, j) ==> SharesKey(found, i, j)
  {
    var files := AllGroups(found, keys, faults, false).files;
    RunKeepsRepaired(found, keys, faults);
    RunTouches(found, keys, faults, AllGroups(found, keys, faults, false));
    forall j: nat | j != i && SharesKey(files, i, j) ensures SharesKey(found, i, j) && files[j] == found[j] {
      assert SharesKey(files, j, i);
    }
    if Newest(found, i) {
      forall j: nat | j != i && HasMember(files, KeyOf(files[i]), j) ensures Older(files, j, i) {
        assert SharesKey(files, i, j);
        assert HasMember(found, KeyOf(found[i]), j);
      }
    }
  }

  datatype Run = Run(keys: seq<Key>, faults: seq<Fault>)

  /** Collections before and after each of a series of live runs, whatever fails in them. */
  ghost predicate IsHistory(stores: seq<seq<File>>, runs: seq<Run>) {
    && |stores| == |runs| + 1
    && forall r :: 0 <= r < |runs| ==>
         && |runs[r].keys| == |runs[r].faults| && Enumerates(stores[r], runs[r].keys)
         && stores[r + 1] == AllGroups(stores[r], runs[r].keys, runs[r].faults, false).files
  }

  /** Over any series of failing runs the newest file of each original group keeps its name, every
      file keeps all but its name, and files come to share a key only if they did before. */
  lemma {:induction false} RerunsKeepTheNewest(stores: seq<seq<File>>, runs: seq<Run>, i: nat)
    requires IsHistory(stores, runs) && i < |stores[0]|
    ensures var last := stores[|runs|];
            && |last| == |stores[0]| && last[i] == stores[0][i].(name := last[i].name)
            && (Newest(stores[0], i) ==> last[i] == stores[0][i] && Newest(last, i))
            && forall j: nat :: j != i && SharesKey(last, i, j) ==> SharesKey(stores[0], i, j)
    decreases |runs|
  {
    if runs != [] {
      var n := |runs| - 1;
      RerunsKeepTheNewest(stores[..n + 1], runs[..n], i);
      RunChangesOnlyStaleNames(stores[n], runs[n].keys, runs[n].faults, i);
    }
  }

  lemma {:induction false} GroupShares(files: seq<File>, key: Key) returns (i: nat, j: nat)
    requires |Members(files, key)| > 1
    ensures i != j && SharesKey(files, i, j)
  {
    var ms := Members(files, key);
    i, j := ms[0], ms[1];
    assert i in ms && j in ms;
    assert HasMember(files, key, i) && HasMember(files, key, j);
  }

  /** Once no key is shared, a run finds no group: it renames nothing and reports no error. */
  lemma {:induction false} SecondRunRenamesNothing(files: seq<File>, keys: seq<Key>, faults: seq<Fault>, dryRun: bool)
    requires NoDuplicates(files) && Enumerates(files, keys) && |keys| == |faults|
    ensures keys == [] && AllGroups(files, keys, faults, dryRun) == Progress(files, 0, 0)
  {
    if keys != [] { var i, j := GroupShares(files, keys[0]); }
  }

  /** A dry run writes nothing. */
  lemma {:induction false} DryRunWritesNothing(found: seq<File>, keys: seq<Key>, faults: seq<Fault>)
    requires |keys| == |faults|
    ensures AllGroups(found, keys, faults, true).files == found
  {
    if keys != [] { DryRunWritesNothing(found, keys[..|keys| - 1], faults[..|keys| - 1]); }
  }

  // ---------------------------------------------------------------------- the script

  datatype Results = Results(scannedFiles: nat, duplicateGroups: nat, filesRenamed: nat, indexBuilt: bool, errors: nat)

  function CountCode(files: seq<File>): nat {
    if files == [] then 0 else CountCode(files[..|files| - 1]) + if files[|files| - 1].codeExecution then 1 else 0
  }

  lemma {:induction false} NextGroup(found: seq<File>, keys: seq<Key>, faults: seq<Fault>, dryRun: bool, i: nat)
    requires i < |keys| == |faults|
    ensures AllGroups(found, keys[..i + 1], faults[..i + 1], dryRun)
         == GroupStep(found, AllGroups(found, keys[..i], faults[..i], dryRun), keys[i], faults[i], dryRun)
  {
    assert keys[..i + 1][..i] == keys[..i] && faults[..i + 1][..i] == faults[..i];
  }

  method TakeName(filename: string, taken: set<string>) returns (name: string, taken': set<string>)
    ensures name == NextName(filename, taken) && taken' == taken + {name}
  {
    name, taken' := NextAvailableName(filename, taken);
  }

  /** `k` names in a row, each reserved before the next is chosen. */
  method TakeNames(filename: string, inUse: set<string>, k: nat) returns (names: seq<string>)
    ensures names == FreshNames(filename, inUse, k)
  {
    var taken := inUse;
    names := [];
    while |names| < k
      invariant |names| <= k && FreshNames(filename, inUse, k) == names + FreshNames(filename, taken, k - |names|)
    {
      FirstFreshName(filename, taken, k - |names|);
      ghost var rest := FreshNames(filename, taken + {NextName(filename, taken)}, k - |names| - 1);
      var name: string;
      name, taken := TakeName(filename, taken);
      assert names + ([name] + rest) == (names + [name]) + rest;
      names := names + [name];
    }
    assert names + [] == names;
  }

  lemma {:induction false} NothingWritten(rs: seq<Rename>, p: Progress, dryRun: bool)
    ensures Outcome(rs, p, ReadFails, dryRun) == p.(errors := p.errors + 1)
  {
    assert rs[..0] == [];
  }

  class FileCollection {
    var files: seq<File>

    constructor (files: seq<File>)
      ensures this.files == files
    {
      this.files := files;
    }

    /** The renames planned for one group: a new name for every file but the newest. */
    method PlanRenames(found: seq<File>, key: Key) returns (renames: seq<Rename>)
      ensures renames == Renames(found, files, key)
    {
      var stale := Stale(found, key);
      var names := TakeNames(key.name, ScopeNames(files, key), |stale|);
      renames := Paired(stale, names);
    }

    /** The update loop of one group; a failing update ends it. */
    method Write(renames: seq<Rename>, fault: Fault) returns (ok: bool)
      requires !fault.ReadFails?
      modifies this
      ensures files == Applied(old(files), renames[..Written(|renames|, fault)])
      ensures ok <==> Succeeds(|renames|, fault)
    {
      var i := 0;
      while i < |renames|
        invariant 0 <= i <= |renames| && files == Applied(old(files), renames[..i])
        invariant fault.WriteFails? ==> i <= fault.at
      {
        assert renames[..i + 1][..i] == renames[..i];
        if fault.WriteFails? && i == fault.at {
          if fault.applied { files := Renamed(files, renames[i]); }
          return false;
        }
        files := Renamed(files, renames[i]);
        i := i + 1;
      }
      assert renames[..|renames|] == renames;
      return true;
    }

    method WriteGroup(renames: seq<Rename>, fault: Fault, dryRun: bool, renamed: nat, errors: nat)
      returns (renamed': nat, errors': nat)
      requires !fault.ReadFails?
      modifies this
      ensures Progress(files, renamed', errors') ==
              Outcome(renames, Progress(old(files), renamed, errors), fault, dryRun)
    {
      renamed', errors' := renamed, errors;
      var ok := true;
      if !dryRun { ok := Write(renames, fault); }
      if ok { renamed' := renamed + |renames|; } else { errors' := errors + 1; }
    }

    /** One pass of the loop over the groups; a failure is counted and the loop goes on. */
    method ProcessGroup(found: seq<File>, key: Key, fault: Fault, dryRun: bool, renamed: nat, errors: nat)
      returns (renamed': nat, errors': nat)
      modifies this
      ensures Progress(files, renamed', errors') ==
              GroupStep(found, Progress(old(files), renamed, errors), key, fault, dryRun)
    {
      if fault.ReadFails? {
        renamed', errors' := renamed, errors + 1;
        NothingWritten(Renames(found, files, key), Progress(files, renamed, errors), dryRun);
      } else {
        var renames := PlanRenames(found, key);
        renamed', errors' := WriteGroup(renames, fault, dryRun, renamed, errors);
      }
    }

    method ProcessGroups(keys: seq<Key>, faults: seq<Fault>, dryRun: bool) returns (renamed: nat, errors: nat)
      requires |keys| == |faults|
      modifies this
      ensures Progress(files, renamed, errors) == AllGroups(old(files), keys, faults, dryRun)
    {
      var found := files;
      renamed, errors := 0, 0;
      var i := 0;
      while i < |keys|
        invariant 0 <= i <= |keys|
        invariant Progress(files, renamed, errors) == AllGroups(found, keys[..i], faults[..i], dryRun)
      {
        NextGroup(found, keys, faults, dryRun, i);
        renamed, errors := ProcessGroup(found, keys[i], faults[i], dryRun, renamed, errors);
        i := i + 1;
      }
      assert keys[..i] == keys && faults[..i] == faults;
    }

    /** `migrateCodeFileDuplicates`.  `keys` are the groups in the order the aggregation lists them;
        `indexFails` says that the index build fails for a reason other than duplicates. */
    method Migrate(dryRun: bool, keys: seq<Key>, faults: seq<Fault>, indexFails: bool) returns (results: Results)
      requires Enumerates(files, keys) && |keys| == |faults|
      modifies this
      ensures var p := AllGroups(old(files), keys, faults, dryRun);
              && files == p.files
              && results.scannedFiles == CountCode(old(files)) && results.duplicateGroups == |keys|
              && results.filesRenamed == p.renamed
              && results.indexBuilt == (!dryRun && p.errors == 0 && !indexFails)
              && results.errors == p.errors + (if !dryRun && p.errors == 0 && indexFails then 1 else 0)
      ensures results.indexBuilt ==> NoDuplicates(files)
    {
      var found := files;
      var renamed, errors := ProcessGroups(keys, faults, dryRun);
      var indexBuilt := false;
      if !dryRun && errors == 0 {
        CleanRunLeavesNoDuplicates(found, keys, faults);
        if indexFails { errors := errors + 1; } else { indexBuilt := true; }
      }
      return Results(CountCode(found), |keys|, renamed, indexBuilt, errors);
    }
  }
}