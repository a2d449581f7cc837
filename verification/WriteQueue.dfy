/** The promise-chain write queue of the file-backed stores: every `updateStore` call waits for the
    one before it, reads the file, applies its mutator and replaces the file by renaming a temporary
    one.  Steps are those between awaits, under an arbitrary scheduler and with failures anywhere. */
module WriteQueue {
  import opened Wrappers

  /** Changes a store, or throws. */
  type Mutator<!S> = S -> Option<S>

  datatype Stage<S> =
    | Waiting                  // for the operation before it
    | Reading
    | Mutating(read: S)
    | WritingTemp(next: S)
    | Renaming(next: S)
    | Succeeded(next: S)
    | Failed

  /** One `updateStore` call: the operation it is chained after, and how far it is. */
  datatype Operation<!S> = Operation(after: Option<nat>, mutator: Mutator<S>, stage: Stage<S>)

  /** The file, its temporary copy, all operations in call order, and the tail of the chain. */
  datatype State<!S> = State(file: Option<S>, temp: Option<S>, ops: seq<Operation<S>>, writeQueue: Option<nat>)

  datatype Event<!S> =
    | Call(mutator: Mutator<S>)
    | Started(op: nat)                  // the operation before it has settled, either way
    | WasRead(op: nat, ok: bool)        // a missing file reads as the empty store
    | WasMutated(op: nat)
    | TempWritten(op: nat, ok: bool)
    | WasRenamed(op: nat, ok: bool)

  predicate Settled<S>(g: Stage<S>) { g.Succeeded? || g.Failed? }

  function SetStage<S>(s: State<S>, i: nat, g: Stage<S>): State<S>
    requires i < |s.ops|
  {
    s.(ops := s.ops[i := s.ops[i].(stage := g)])
  }

  function ReadAs<S>(file: Option<S>, empty: S): S { if file.Some? then file.value else empty }

  /** An event that does not fit what its operation is waiting for changes nothing. */
  function Step<S>(empty: S, s: State<S>, e: Event<S>): State<S> {
    match e
    case Call(m) => s.(ops := s.ops + [Operation(s.writeQueue, m, Waiting)], writeQueue := Some(|s.ops|))
    case Started(i) =>
      if i < |s.ops| && s.ops[i].stage.Waiting? &&
         (s.ops[i].after.Some? ==> s.ops[i].after.value < |s.ops| && Settled(s.ops[s.ops[i].after.value].stage))
      then SetStage(s, i, Reading) else s
    case WasRead(i, ok) =>
      if i < |s.ops| && s.ops[i].stage.Reading?
      then SetStage(s, i, if ok then Mutating(ReadAs(s.file, empty)) else Failed) else s
    case WasMutated(i) =>
      if i < |s.ops| && s.ops[i].stage.Mutating? then
        var next := s.ops[i].mutator(s.ops[i].stage.read);
        SetStage(s, i, if next.Some? then WritingTemp(next.value) else Failed)
      else s
    case TempWritten(i, ok) =>
      if i < |s.ops| && s.ops[i].stage.WritingTemp? then
        if ok then SetStage(s, i, Renaming(s.ops[i].stage.next)).(temp := Some(s.ops[i].stage.next))
        else SetStage(s, i, Failed)
      else s
    case WasRenamed(i, ok) =>
      if i < |s.ops| && s.ops[i].stage.Renaming? then
        if ok then SetStage(s, i, Succeeded(s.ops[i].stage.next)).(file := s.temp, temp := None)
        else SetStage(s, i, Failed)
      else s
  }

  function Initial<S>(file: Option<S>): State<S> { State(file, None, [], None) }

  function Run<S>(empty: S, file: Option<S>, es: seq<Event<S>>): State<S> {
    if es == [] then Initial(file) else Step(empty, Run(empty, file, es[..|es| - 1]), es[|es| - 1])
  }

  // ------------------------------------------------------------------------ the queue

  class Store<!S> {
    const empty: S
    var file: Option<S>
    var temp: Option<S>
    var operations: seq<Operation<S>>
    var writeQueue: Option<nat>

    ghost function Current(): State<S>
      reads this
    {
      State(file, temp, operations, writeQueue)
    }

    constructor (empty: S, file: Option<S>)
      ensures this.empty == empty && Current() == Initial(file)
    {
      this.empty, this.file, temp, operations, writeQueue := empty, file, None, [], None;
    }

    method UpdateStore(mutator: Mutator<S>) returns (operation: nat)
      modifies this
      ensures Current() == Step(empty, old(Current()), Call(mutator)) && operation == |old(operations)|
    {
      operation := |operations|;
      operations := operations + [Operation(writeQueue, mutator, Waiting)];
      writeQueue := Some(operation);
    }

    method OnStarted(i: nat)
      requires i < |operations|
      modifies this`operations
      ensures Current() == Step(empty, old(Current()), Started(i))
    {
      var op := operations[i];
      if op.stage.Waiting? {
        if op.after.Some? {
          if !(op.after.value < |operations| && Settled(operations[op.after.value].stage)) { return; }
        }
        operations := operations[i := op.(stage := Reading)];
      }
    }

    method OnRead(i: nat, ok: bool)
      requires i < |operations|
      modifies this`operations
      ensures Current() == Step(empty, old(Current()), WasRead(i, ok))
    {
      if operations[i].stage.Reading? {
        var store := if file.Some? then file.value else empty;
        operations := operations[i := operations[i].(stage := if ok then Mutating(store) else Failed)];
      }
    }

    method OnMutated(i: nat)
      requires i < |operations|
      modifies this`operations
      ensures Current() == Step(empty, old(Current()), WasMutated(i))
    {
      if operations[i].stage.Mutating? {
        var next := operations[i].mutator(operations[i].stage.read);
        operations := operations[i := operations[i].(stage := if next.Some? then WritingTemp(next.value) else Failed)];
      }
    }

    method OnTempWritten(i: nat, ok: bool)
      requires i < |operations|
      modifies this`operations, this`temp
      ensures Current() == Step(empty, old(Current()), TempWritten(i, ok))
    {
      if operations[i].stage.WritingTemp? {
        if ok {
          temp := Some(operations[i].stage.next);
          operations := operations[i := operations[i].(stage := Renaming(operations[i].stage.next))];
        } else {
          operations := operations[i := operations[i].(stage := Failed)];
        }
      }
    }

    method OnRenamed(i: nat, ok: bool)
      requires i < |operations|
      modifies this`operations, this`temp, this`file
      ensures Current() == Step(empty, old(Current()), WasRenamed(i, ok))
    {
      if operations[i].stage.Renaming? {
        if ok {
          file, temp := temp, None;
          operations := operations[i := operations[i].(stage := Succeeded(operations[i].stage.next))];
        } else {
          operations := operations[i := operations[i].(stage := Failed)];
        }
      }
    }
  }

  // -------------------------------------------------------------------- the invariant

  /** The file that the first `n` operations leave when those that succeeded are applied one after the
      other in call order, and the others not at all. */
  function Fold<S>(empty: S, file: Option<S>, ops: seq<Operation<S>>, n: nat): Option<S>
    requires n <= |ops|
  {
    if n == 0 then file else
    var before := Fold(empty, file, ops, n - 1);
    if ops[n - 1].stage.Succeeded? then ops[n - 1].mutator(ReadAs(before, empty)) else before
  }

  /** Operations settle in call order: the first `n` have, at most the next one is under way, and it
      works on what those before it left. */
  ghost predicate Serial<S>(empty: S, file: Option<S>, s: State<S>, n: nat) {
    && n <= |s.ops|
    && (forall i :: 0 <= i < |s.ops| ==> s.ops[i].after == if i == 0 then None else Some(i - 1))
    && s.writeQueue == (if s.ops == [] then None else Some(|s.ops| - 1))
    && (forall i :: 0 <= i < n ==> Settled(s.ops[i].stage))
    && (forall i :: n < i < |s.ops| ==> s.ops[i].stage.Waiting?)
    && s.file == Fold(empty, file, s.ops, n)
    && (n < |s.ops| ==> UnderWay(s, s.ops[n], ReadAs(s.file, empty)))
  }

  predicate UnderWay<S(==)>(s: State<S>, op: Operation<S>, store: S) {
    match op.stage
    case Waiting => true
    case Reading => true
    case Mutating(read) => read == store
    case WritingTemp(next) => op.mutator(store) == Some(next)
    case Renaming(next) => op.mutator(store) == Some(next) && s.temp == Some(next)
    case _ => false
  }

  lemma {:induction false} FoldOfPrefix<S>(empty: S, file: Option<S>, ops: seq<Operation<S>>,
          other: seq<Operation<S>>, n: nat)
    requires n <= |ops| && n <= |other| && forall i :: 0 <= i < n ==> ops[i] == other[i]
    ensures Fold(empty, file, ops, n) == Fold(empty, file, other, n)
  {
    if n > 0 { FoldOfPrefix(empty, file, ops, other, n - 1); }
  }

  lemma {:induction false} CallKeepsSerial<S>(empty: S, file: Option<S>, s: State<S>, m: Mutator<S>, n: nat)
    requires Serial(empty, file, s, n)
    ensures Serial(empty, file, Step(empty, s, Call(m)), n)
  {
    var t := Step(empty, s, Call(m));
    FoldOfPrefix(empty, file, s.ops, t.ops, n);
  }

  /** Only the first operation that has not settled can move. */
  lemma {:induction false} OnlyTheNextMoves<S>(empty: S, file: Option<S>, s: State<S>, e: Event<S>, n: nat)
    requires Serial(empty, file, s, n) && !e.Call?
    ensures e.op != n ==> Step(empty, s, e) == s
  {
    if e.op < |s.ops| && e.op != n {
      assert e.op < n ==> Settled(s.ops[e.op].stage);
      assert e.op > n ==> s.ops[e.op].stage.Waiting? && s.ops[e.op].after == Some(e.op - 1);
      assert e.op > n + 1 ==> s.ops[e.op - 1].stage.Waiting?;
    }
  }

  /** The next operation moves on without settling. */
  lemma {:induction false} NextMovesOn<S>(empty: S, file: Option<S>, s: State<S>, n: nat, g: Stage<S>, temp: Option<S>)
    requires Serial(empty, file, s, n) && n < |s.ops| && !Settled(g)
    requires UnderWay(s.(temp := temp), s.ops[n].(stage := g), ReadAs(s.file, empty))
    ensures Serial(empty, file, SetStage(s, n, g).(temp := temp), n)
  {
    FoldOfPrefix(empty, file, s.ops, SetStage(s, n, g).ops, n);
  }

  /** The next operation settles; those after it have not started. */
  lemma {:induction false} NextSettles<S>(empty: S, file: Option<S>, s: State<S>, n: nat, g: Stage<S>,
          temp: Option<S>, f: Option<S>)
    requires Serial(empty, file, s, n) && n < |s.ops| && Settled(g)
    requires f == if g.Succeeded? then s.ops[n].mutator(ReadAs(s.file, empty)) else s.file
    ensures Serial(empty, file, SetStage(s, n, g).(temp := temp, file := f), n + 1)
  {
    FoldOfPrefix(empty, file, s.ops, SetStage(s, n, g).ops, n);
  }

  /** What an event does to the operation it is for. */
  lemma {:induction false} MoveOf<S>(empty: S, s: State<S>, e: Event<S>, store: S)
    requires !e.Call? && e.op < |s.ops| && store == ReadAs(s.file, empty) && UnderWay(s, s.ops[e.op], store)
    ensures var t := Step(empty, s, e);
            && |t.ops| == |s.ops| && t == SetStage(s, e.op, t.ops[e.op].stage).(temp := t.temp, file := t.file)
            && var op := t.ops[e.op];
               if op.stage == s.ops[e.op].stage then t == s
               else if Settled(op.stage) then t.file == if op.stage.Succeeded? then op.mutator(store) else s.file
               else t.file == s.file && UnderWay(s.(temp := t.temp), op, store)
    ensures var op := Step(empty, s, e).ops[e.op];
            op.stage.Succeeded? ==> op.mutator(store) == Some(op.stage.next)
  {
    assert s.ops[e.op := s.ops[e.op]] == s.ops;
  }

  lemma {:induction false} StepKeepsSerial<S>(empty: S, file: Option<S>, s: State<S>, e: Event<S>, n: nat)
    returns (n': nat)
    requires Serial(empty, file, s, n)
    ensures n <= n' && Serial(empty, file, Step(empty, s, e), n')
  {
    n' := n;
    if e.Call? {
      CallKeepsSerial(empty, file, s, e.mutator, n);
    } else if e.op == n && n < |s.ops| {
      n' := MoveKeepsSerial(empty, file, s, e, n);
    } else {
      OnlyTheNextMoves(empty, file, s, e, n);
    }
  }

  lemma {:induction false} MoveKeepsSerial<S>(empty: S, file: Option<S>, s: State<S>, e: Event<S>, n: nat)
    returns (n': nat)
    requires Serial(empty, file, s, n) && !e.Call? && e.op == n < |s.ops|
    ensures n <= n' && Serial(empty, file, Step(empty, s, e), n')
  {
    MoveOf(empty, s, e, ReadAs(s.file, empty));
    var t := Step(empty, s, e);
    var g := t.ops[n].stage;
    n' := n;
    if Settled(g) {
      NextSettles(empty, file, s, n, g, t.temp, t.file);
      n' := n + 1;
    } else if g != s.ops[n].stage {
      NextMovesOn(empty, file, s, n, g, t.temp);
    }
  }

  lemma {:induction false} EveryScheduleIsSerial<S>(empty: S, file: Option<S>, es: seq<Event<S>>) returns (n: nat)
    ensures Serial(empty, file, Run(empty, file, es), n)
  {
    if es == [] {
      n := 0;
    } else {
      var m := EveryScheduleIsSerial(empty, file, es[..|es| - 1]);
      n := StepKeepsSerial(empty, file, Run(empty, file, es[..|es| - 1]), es[|es| - 1], m);
    }
  }

  /** What an operation succeeded with is what its mutator makes of what those before it left. */
  ghost predicate Defined<S>(empty: S, file: Option<S>, ops: seq<Operation<S>>) {
    forall i :: 0 <= i < |ops| && ops[i].stage.Succeeded? ==>
      ops[i].mutator(ReadAs(Fold(empty, file, ops, i), empty)) == Some(ops[i].stage.next)
  }

  lemma {:induction false} DefinedStays<S>(empty: S, file: Option<S>, ops: seq<Operation<S>>, more: seq<Operation<S>>,
          n: nat)
    requires Defined(empty, file, ops) && n <= |ops| <= |more| && forall i :: 0 <= i < n ==> more[i] == ops[i]
    requires forall i :: n <= i < |more| && more[i].stage.Succeeded? ==>
               i == n && more[n].mutator(ReadAs(Fold(empty, file, ops, n), empty)) == Some(more[n].stage.next)
    ensures Defined(empty, file, more)
  {
    forall i | 0 <= i < |more| && more[i].stage.Succeeded?
      ensures more[i].mutator(ReadAs(Fold(empty, file, more, i), empty)) == Some(more[i].stage.next)
    {
      FoldOfPrefix(empty, file, ops, more, i);
    }
  }

  lemma {:induction false} StepKeepsDefined<S>(empty: S, file: Option<S>, s: State<S>, e: Event<S>, n: nat)
    requires Serial(empty, file, s, n) && Defined(empty, file, s.ops)
    ensures Defined(empty, file, Step(empty, s, e).ops)
  {
    if e.Call? {
      DefinedStays(empty, file, s.ops, Step(empty, s, e).ops, |s.ops|);
    } else if e.op == n && n < |s.ops| {
      MoveOf(empty, s, e, ReadAs(s.file, empty));
      DefinedStays(empty, file, s.ops, Step(empty, s, e).ops, n);
    } else {
      OnlyTheNextMoves(empty, file, s, e, n);
    }
  }

  lemma {:induction false} EveryScheduleIsDefined<S>(empty: S, file: Option<S>, es: seq<Event<S>>)
    ensures Defined(empty, file, Run(empty, file, es).ops)
  {
    if es != [] {
      var before := es[..|es| - 1];
      EveryScheduleIsDefined(empty, file, before);
      var n := EveryScheduleIsSerial(empty, file, before);
      StepKeepsDefined(empty, file, Run(empty, file, before), es[|es| - 1], n);
    }
  }

  // -------------------------------------------------------------------- main results

  lemma {:induction false} FoldOfUnfinished<S>(empty: S, file: Option<S>, ops: seq<Operation<S>>, n: nat, m: nat)
    requires n <= m <= |ops| && forall i :: n <= i < m ==> !ops[i].stage.Succeeded?
    ensures Fold(empty, file, ops, m) == Fold(empty, file, ops, n)
  {
    if n < m { FoldOfUnfinished(empty, file, ops, n, m - 1); }
  }

  /** Under every interleaving and every failure the file is what the successful mutators, applied in
      the order of the calls, make of it; a failing one contributes nothing. */
  lemma {:induction false} FileIsFoldOfSuccesses<S>(empty: S, file: Option<S>, es: seq<Event<S>>)
    ensures var s := Run(empty, file, es); s.file == Fold(empty, file, s.ops, |s.ops|)
  {
    var s := Run(empty, file, es);
    var n := EveryScheduleIsSerial(empty, file, es);
    FoldOfUnfinished(empty, file, s.ops, n, |s.ops|);
  }

  predicate Active<S>(g: Stage<S>) { !g.Waiting? && !Settled(g) }

  /** Operations never overlap, so no temporary file is overwritten before it is renamed. */
  lemma {:induction false} OneWriterAtATime<S>(empty: S, file: Option<S>, es: seq<Event<S>>, i: nat, j: nat)
    requires i < j < |Run(empty, file, es).ops|
    ensures !(Active(Run(empty, file, es).ops[i].stage) && Active(Run(empty, file, es).ops[j].stage))
    ensures Active(Run(empty, file, es).ops[j].stage) ==> Settled(Run(empty, file, es).ops[i].stage)
  {
    var n := EveryScheduleIsSerial(empty, file, es);
  }

  /** Steps an operation still has to take. */
  function Remaining<S>(g: Stage<S>): nat {
    match g
    case Waiting => 5
    case Reading => 4
    case Mutating(_) => 3
    case WritingTemp(_) => 2
    case Renaming(_) => 1
    case _ => 0
  }

  /** A failure never blocks the queue: while some operation has not settled, the first such one can
      take its next step, and then has fewer left. */
  lemma {:induction false} QueueNeverBlocks<S>(empty: S, file: Option<S>, es: seq<Event<S>>, j: nat)
    returns (n: nat, e: Event<S>)
    requires j < |Run(empty, file, es).ops| && !Settled(Run(empty, file, es).ops[j].stage)
    ensures !e.Call? && e.op == n <= j
    ensures var s := Run(empty, file, es); var t := Step(empty, s, e);
            |t.ops| == |s.ops| && Remaining(t.ops[n].stage) < Remaining(s.ops[n].stage)
  {
    n := EveryScheduleIsSerial(empty, file, es);
    match Run(empty, file, es).ops[n].stage {
      case Waiting => e := Started(n);
      case Reading => e := WasRead(n, true);
      case Mutating(_) => e := WasMutated(n);
      case WritingTemp(_) => e := TempWritten(n, true);
      case Renaming(_) => e := WasRenamed(n, true);
    }
  }

  // ------------------------------------------------------- saving one integration record

  /** A stored record: the fields that have a value. */
  type Fields = map<string, string>

  /** The fields of a record that are given, and the existing ones that are not. */
  function Merged(existing: Option<Fields>, given: Fields): Fields {
    (if existing.Some? then existing.value else map[]) + given
  }

  /** `saveIntegration` reads the record before it enters the queue and writes the whole of it. */
  function SaveMutator(key: string, existing: Option<Fields>, given: Fields): Mutator<map<string, Fields>> {
    store => Some(store[key := Merged(existing, given)])
  }

  type Records = map<string, Fields>

  /** The record of `key` after a schedule, as `getIntegration` reads it: past the queue, from the file. */
  function RecordAfter(file: Option<Records>, es: seq<Event<Records>>, key: string): Option<Fields> {
    Get(ReadAs(Run(map[], file, es).file, map[]), key)
  }

  /** A mutator of anything but the record of `key`. */
  ghost predicate LeavesRecord(m: Mutator<Records>, key: string) {
    forall store :: m(store).Some? ==> Get(m(store).value, key) == Get(store, key)
  }

  /** Of the operations only `i` and `j` save the record of `key`. */
  ghost predicate TwoSaves(ops: seq<Operation<Records>>, i: nat, j: nat, key: string) {
    forall n :: 0 <= n < |ops| && n != i && n != j ==> LeavesRecord(ops[n].mutator, key)
  }

  lemma {:induction false} RecordOfFold(file: Option<Records>, ops: seq<Operation<Records>>, n: nat, i: nat, j: nat,
          key: string, a: Option<Fields>, b: Option<Fields>, first: Fields, second: Fields)
    requires i < j && n <= |ops| && TwoSaves(ops, i, j, key) && Defined(map[], file, ops)
    requires i < |ops| ==> ops[i].mutator == SaveMutator(key, a, first)
    requires j < |ops| ==> ops[j].mutator == SaveMutator(key, b, second)
    ensures Get(ReadAs(Fold(map[], file, ops, n), map[]), key) ==
            if j < n && ops[j].stage.Succeeded? then Some(Merged(b, second))
            else if i < n && ops[i].stage.Succeeded? then Some(Merged(a, first))
            else Get(ReadAs(file, map[]), key)
  {
    if n > 0 {
      RecordOfFold(file, ops, n - 1, i, j, key, a, b, first, second);
      var before := Fold(map[], file, ops, n - 1);
      var store: Records := ReadAs(before, map[]);
      if ops[n - 1].stage.Succeeded? && n - 1 != i && n - 1 != j {
        assert LeavesRecord(ops[n - 1].mutator, key);
      }
    }
  }

  lemma {:induction false} StepKeepsMutators<S>(empty: S, s: State<S>, e: Event<S>)
    ensures var t := Step(empty, s, e);
            |s.ops| <= |t.ops| && forall m :: 0 <= m < |s.ops| ==> t.ops[m].mutator == s.ops[m].mutator
  {
  }

  lemma {:induction false} MutatorsStay<S>(empty: S, file: Option<S>, es: seq<Event<S>>, p: nat)
    requires p <= |es|
    ensures var ops, all := Run(empty, file, es[..p]).ops, Run(empty, file, es).ops;
            |ops| <= |all| && forall m :: 0 <= m < |ops| ==> ops[m].mutator == all[m].mutator
  {
    if p == |es| {
      assert es[..p] == es;
    } else {
      var before := es[..|es| - 1];
      assert before[..p] == es[..p];
      MutatorsStay(empty, file, before, p);
      StepKeepsMutators(empty, Run(empty, file, before), es[|es| - 1]);
    }
  }

  predicate SucceededIn(file: Option<Records>, es: seq<Event<Records>>, i: nat) {
    var ops := Run(map[], file, es).ops;
    i < |ops| && ops[i].stage.Succeeded?
  }

  /** Operations `i` and `j` of a schedule save the record of `key`, each merging what it is given into
      the record read before it was called, at the moments `p` and `q`; no other operation touches it. */
  ghost predicate SavesOf(file: Option<Records>, es: seq<Event<Records>>, p: nat, q: nat, i: nat, j: nat, key: string,
                          first: Fields, second: Fields) {
    var ops := Run(map[], file, es).ops;
    && p <= |es| && |Run(map[], file, es[..p]).ops| <= i && q <= |es| && |Run(map[], file, es[..q]).ops| <= j
    && i < j < |ops| && TwoSaves(ops, i, j, key)
    && ops[i].mutator == SaveMutator(key, RecordAfter(file, es[..p], key), first)
    && ops[j].mutator == SaveMutator(key, RecordAfter(file, es[..q], key), second)
  }

  /** The record at every moment of such a schedule. */
  lemma {:induction false} RecordAtMoment(file: Option<Records>, es: seq<Event<Records>>, p: nat, q: nat, i: nat,
          j: nat, key: string, first: Fields, second: Fields, m: nat)
    requires SavesOf(file, es, p, q, i, j, key, first, second) && m <= |es|
    ensures RecordAfter(file, es[..m], key) ==
            if SucceededIn(file, es[..m], j) then Some(Merged(RecordAfter(file, es[..q], key), second))
            else if SucceededIn(file, es[..m], i) then Some(Merged(RecordAfter(file, es[..p], key), first))
            else Get(ReadAs(file, map[]), key)
  {
    var ops := Run(map[], file, es[..m]).ops;
    MutatorsStay(map[], file, es, m);
    EveryScheduleIsDefined(map[], file, es[..m]);
    FileIsFoldOfSuccesses(map[], file, es[..m]);
    RecordOfFold(file, ops, |ops|, i, j, key, RecordAfter(file, es[..p], key), RecordAfter(file, es[..q], key),
                 first, second);
  }

  function Field(record: Option<Fields>, f: string): Option<string> {
    if record.Some? then Get(record.value, f) else None
  }

  /** Every field given to the first save only has the value it was given. */
  ghost predicate KeepsFields(record: Option<Fields>, first: Fields, second: Fields) {
    forall f :: f in first && f !in second ==> Field(record, f) == Some(first[f])
  }

  /** In every schedule in which two saves of one record succeed, the fields given to the first only
      survive exactly when the second read the record after the first had been written, or they were
      stored with those values before. */
  lemma {:induction false} ConcurrentSavesMayLoseFields(file: Option<Records>, es: seq<Event<Records>>, p: nat, q: nat,
          i: nat, j: nat, key: string, first: Fields, second: Fields)
    requires SavesOf(file, es, p, q, i, j, key, first, second)
    requires SucceededIn(file, es, i) && SucceededIn(file, es, j)
    ensures KeepsFields(RecordAfter(file, es, key), first, second) <==>
            SucceededIn(file, es[..q], i) || KeepsFields(Get(ReadAs(file, map[]), key), first, second)
  {
    assert es[..|es|] == es;
    RecordAtMoment(file, es, p, q, i, j, key, first, second, |es|);
    RecordAtMoment(file, es, p, q, i, j, key, first, second, q);
    assert !SucceededIn(file, es[..q], j);
    var b := RecordAfter(file, es[..q], key);
    assert forall f :: f !in second ==> Field(Some(Merged(b, second)), f) == Field(b, f);
  }

  /** The steps of an operation that nothing disturbs. */
  function Turn<S>(i: nat): seq<Event<S>> {
    [Started(i), WasRead(i, true), WasMutated(i), TempWritten(i, true), WasRenamed(i, true)]
  }

  lemma {:induction false} RunOn<S>(empty: S, file: Option<S>, es: seq<Event<S>>, e: Event<S>)
    ensures Run(empty, file, es + [e]) == Step(empty, Run(empty, file, es), e)
  {
    assert (es + [e])[..|es|] == es;
  }

  /** An operation whose turn it is and whose mutator does not throw replaces the file in five steps. */
  lemma {:induction false} TurnCompletes<S>(empty: S, file: Option<S>, es: seq<Event<S>>, i: nat, next: S)
    requires var s := Run(empty, file, es);
             && i < |s.ops| && s.ops[i].stage.Waiting? && s.ops[i].mutator(ReadAs(s.file, empty)) == Some(next)
             && (s.ops[i].after.Some? ==> s.ops[i].after.value < i && Settled(s.ops[s.ops[i].after.value].stage))
    ensures Run(empty, file, es + Turn(i)) ==
            SetStage(Run(empty, file, es), i, Succeeded(next)).(file := Some(next), temp := None)
  {
    var a := es + [Started(i)];
    var b := a + [WasRead(i, true)];
    var c := b + [WasMutated(i)];
    var d := c + [TempWritten(i, true)];
    RunOn(empty, file, es, Started(i));
    RunOn(empty, file, a, WasRead(i, true));
    RunOn(empty, file, b, WasMutated(i));
    RunOn(empty, file, c, TempWritten(i, true));
    RunOn(empty, file, d, WasRenamed(i, true));
    assert es + Turn(i) == d + [WasRenamed(i, true)];
  }

  /** Two calls, then the turn of each. */
  function OneAfterTheOther<S>(m: Mutator<S>, n: Mutator<S>): seq<Event<S>> {
    [Call(m)] + [Call(n)] + Turn(0) + Turn(1)
  }

  lemma {:induction false} BothSucceed<S>(empty: S, file: Option<S>, m: Mutator<S>, n: Mutator<S>, x: S, y: S)
    requires m(ReadAs(file, empty)) == Some(x) && n(x) == Some(y)
    ensures Run(empty, file, OneAfterTheOther(m, n)) ==
            State(Some(y), None, [Operation(None, m, Succeeded(x)), Operation(Some(0), n, Succeeded(y))], Some(1))
  {
    var calls := [Call(m)] + [Call(n)];
    assert [] + [Call(m)] == [Call(m)];
    RunOn(empty, file, [], Call(m));
    RunOn(empty, file, [Call(m)], Call(n));
    assert Run(empty, file, calls) ==
           State(file, None, [Operation(None, m, Waiting), Operation(Some(0), n, Waiting)], Some(1));
    TurnCompletes(empty, file, calls, 0, x);
    TurnCompletes(empty, file, calls + Turn(0), 1, y);
  }

  /** Two first saves of one record, both called before either is written. */
  function TwoFirstSaves(key: string, first: Fields, second: Fields): seq<Event<Records>> {
    OneAfterTheOther(SaveMutator(key, None, first), SaveMutator(key, None, second))
  }

  /** The loss happens: of two overlapping first saves, the second leaves its own fields only, so the
      workspace stored by the first is gone. */
  lemma {:induction false} WorkspaceCanBeLost(first: Fields, second: Fields)
    requires first == map["accessToken" := "s", "workspaceSlug" := "w"] && second == map["accessToken" := "t"]
    ensures var es := TwoFirstSaves("u", first, second);
            && SavesOf(None, es, 0, 0, 0, 1, "u", first, second)
            && SucceededIn(None, es, 0) && SucceededIn(None, es, 1)
            && RecordAfter(None, es, "u") == Some(second) && !KeepsFields(RecordAfter(None, es, "u"), first, second)
  {
    var m, n := SaveMutator("u", None, first), SaveMutator("u", None, second);
    var x: Records := map["u" := first];
    var y: Records := map["u" := second];
    assert Merged(None, first) == first && Merged(None, second) == second;
    assert x["u" := second] == y;
    assert m(map[]) == Some(x) && n(x) == Some(y);
    BothSucceed(map[], None, m, n, x, y);
    assert "workspaceSlug" in first && "workspaceSlug" !in second;
    assert Field(RecordAfter(None, TwoFirstSaves("u", first, second), "u"), "workspaceSlug") == None;
  }

  /** A save that reads the record as it is when written keeps every field it is not given and leaves
      the records of others alone. */
  lemma {:induction false} SerialSaveKeepsFields(store: map<string, Fields>, key: string, given: Fields, other: string)
    ensures var after := SaveMutator(key, Get(store, key), given)(store).value;
            && key in after
            && (forall f :: f in given ==> f in after[key] && after[key][f] == given[f])
            && (forall f :: f !in given ==> (f in after[key] <==> key in store && f in store[key]))
            && (forall f :: f !in given && f in after[key] ==> after[key][f] == store[key][f])
            && (other != key ==> Get(after, other) == Get(store, other))
  {
  }
}
