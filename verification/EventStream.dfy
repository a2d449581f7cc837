/** The incremental reader of `GeminiClient.generate`: event-stream text (a reduced form of section
    9.2.6 of the WHATWG HTML Standard) that arrives in arbitrary chunks. */
module EventStream {
  import opened Wrappers
  import opened Strings

  // ------------------------------------------------------------------- separators

  /** The length of the match of `\r?\n\r?\n` at the start of s, or 0. */
  function SeparatorAt(s: string): nat
    ensures SeparatorAt(s) <= |s|
  {
    if "\n\n" <= s then 2
    else if "\r\n\n" <= s || "\n\r\n" <= s then 3
    else if "\r\n\r\n" <= s then 4
    else 0
  }

  /** The first position, from i on, where a separator starts; |s| if there is none. */
  function FirstSeparator(s: string, i: nat): (r: nat)
    requires i <= |s|
    ensures i <= r <= |s|
    ensures r < |s| ==> SeparatorAt(s[r..]) > 0
    ensures forall k :: i <= k < r ==> SeparatorAt(s[k..]) == 0
    decreases |s| - i
  {
    if i == |s| then i else if SeparatorAt(s[i..]) > 0 then i else FirstSeparator(s, i + 1)
  }

  datatype Pieces = Pieces(events: seq<string>, tail: string)

  /** `split(/\r?\n\r?\n/)`: the complete events and the piece after the last separator. */
  function Split(s: string): Pieces
    decreases |s|
  {
    var i := FirstSeparator(s, 0);
    if i == |s| then Pieces([], s)
    else
      var rest := Split(s[i + SeparatorAt(s[i..])..]);
      Pieces([s[..i]] + rest.events, rest.tail)
  }

  lemma {:induction false} PrefixExtends(p: string, a: string, b: string)
    ensures p <= a ==> p <= a + b
    ensures |p| <= |a| && p <= a + b ==> p <= a
  {
    if p <= a { assert (a + b)[..|p|] == a[..|p|]; }
    if |p| <= |a| && p <= a + b { assert a[..|p|] == (a + b)[..|p|]; }
  }

  /** More text neither removes nor lengthens a separator that is already complete. */
  lemma {:induction false} SeparatorIsStable(a: string, b: string)
    requires SeparatorAt(a) > 0
    ensures SeparatorAt(a + b) == SeparatorAt(a)
  {
    PrefixExtends("\n\n", a, b);
    PrefixExtends("\r\n\n", a, b);
    PrefixExtends("\n\r\n", a, b);
    PrefixExtends("\r\n\r\n", a, b);
    assert (a + b)[0] == a[0] && (a + b)[1] == a[1];
  }

  /** More text makes no new separator before a complete one: a cut separator is a suffix of the
      text, too short to hold another one. */
  lemma {:induction false} NoSeparatorAppears(a: string, b: string, k: nat)
    requires k < |a| && SeparatorAt(a) == 0 && SeparatorAt(a[k..]) > 0
    ensures SeparatorAt(a + b) == 0
  {
    assert 2 <= |a[k..]|;
    var c := a + b;
    assert forall i :: 0 <= i < |a| ==> c[i] == a[i];
    assert a[k..][0] == a[k] && a[k..][1] == a[k + 1];
  }

  lemma {:induction false} FirstSeparatorIs(s: string, i: nat, r: nat)
    requires i <= r < |s| && SeparatorAt(s[r..]) > 0 && forall k :: i <= k < r ==> SeparatorAt(s[k..]) == 0
    ensures FirstSeparator(s, i) == r
  {
  }

  lemma {:induction false} FirstSeparatorIsStable(a: string, b: string)
    requires FirstSeparator(a, 0) < |a|
    ensures FirstSeparator(a + b, 0) == FirstSeparator(a, 0)
    ensures SeparatorAt((a + b)[FirstSeparator(a, 0)..]) == SeparatorAt(a[FirstSeparator(a, 0)..])
  {
    var i := FirstSeparator(a, 0);
    assert (a + b)[i..] == a[i..] + b;
    SeparatorIsStable(a[i..], b);
    forall k | 0 <= k < i ensures SeparatorAt((a + b)[k..]) == 0 {
      assert (a + b)[k..] == a[k..] + b;
      assert a[k..][i - k..] == a[i..];
      NoSeparatorAppears(a[k..], b, i - k);
    }
    FirstSeparatorIs(a + b, 0, i);
  }

  predicate HasEvent(s: string) { FirstSeparator(s, 0) < |s| }

  lemma {:induction false} SplitHead(s: string, i: nat, n: nat)
    requires FirstSeparator(s, 0) == i < |s| && n == i + SeparatorAt(s[i..])
    ensures i < n <= |s| && Split(s) == Pieces([s[..i]] + Split(s[n..]).events, Split(s[n..]).tail)
  {
  }

  /** The first event of what has arrived is the first event of everything. */
  lemma {:induction false} SplitStep(a: string, b: string) returns (head: string, rest: string)
    requires HasEvent(a)
    ensures |rest| < |a|
    ensures Split(a) == Pieces([head] + Split(rest).events, Split(rest).tail)
    ensures Split(a + b) == Pieces([head] + Split(rest + b).events, Split(rest + b).tail)
  {
    var i := FirstSeparator(a, 0);
    var n := i + SeparatorAt(a[i..]);
    SplitHead(a, i, n);
    head, rest := a[..i], a[n..];
    FirstSeparatorIsStable(a, b);
    SplitHead(a + b, i, n);
    SlicesOfConcat(a, b, i, n);
  }

  lemma {:induction false} SlicesOfConcat(a: string, b: string, i: nat, n: nat)
    requires i <= n <= |a|
    ensures (a + b)[n..] == a[n..] + b && (a + b)[..i] == a[..i]
  {
  }

  lemma {:induction false} NoEvent(a: string)
    requires !HasEvent(a)
    ensures Split(a) == Pieces([], a)
  {
  }

  lemma {:induction false} PiecesJoin(head: string, p: Pieces, q: Pieces, all: Pieces)
    requires all == Pieces(p.events + q.events, q.tail)
    ensures Pieces([head] + all.events, all.tail) == Pieces(([head] + p.events) + q.events, q.tail)
  {
  }

  /** Splitting what has arrived and later splitting the carried tail with the rest finds the same
      events as one split of everything. */
  lemma {:induction false} SplitIsIncremental(a: string, b: string)
    ensures Split(a + b) == Pieces(Split(a).events + Split(Split(a).tail + b).events, Split(Split(a).tail + b).tail)
    decreases |a|
  {
    if HasEvent(a) {
      var head, rest := SplitStep(a, b);
      SplitIsIncremental(rest, b);
      PiecesJoin(head, Split(rest), Split(Split(rest).tail + b), Split(rest + b));
    } else {
      NoEvent(a);
    }
  }

  // ------------------------------------------------------------- the data of an event

  function TrimStart(s: string): string {
    if s != "" && Blank(s[0]) then TrimStart(s[1..]) else s
  }

  function TrimEnd(s: string): string {
    if s != "" && Blank(s[|s| - 1]) then TrimEnd(s[..|s| - 1]) else s
  }

  function Trim(s: string): string { TrimStart(TrimEnd(s)) }

  /** `split('\n')`; never empty. */
  function Lines(s: string): (ls: seq<string>)
    ensures ls != []
    decreases |s|
  {
    if s == "" then [""]
    else
      var rest := Lines(s[1..]);
      if s[0] == '\n' then [""] + rest else [[s[0]] + rest[0]] + rest[1..]
  }

  /** `split(/\r?\n/)`: a carriage return goes with the newline it precedes. */
  function CrLfLines(s: string): (ls: seq<string>)
    ensures ls != []
    decreases |s|
  {
    if s == "" then [""]
    else if "\r\n" <= s then [""] + CrLfLines(s[2..])
    else
      var rest := CrLfLines(s[1..]);
      if s[0] == '\n' then [""] + rest else [[s[0]] + rest[0]] + rest[1..]
  }

  predicate IsData(line: string) { "data:" <= line }

  /** The data lines' contents, trimmed and joined. */
  function Joined(lines: seq<string>): string {
    if lines == [] then ""
    else (if IsData(lines[0]) then Trim(lines[0][5..]) else "") + Joined(lines[1..])
  }

  /** The data of an event inside the stream, whose lines end at newlines. */
  function EventData(event: string): string { Joined(Lines(event)) }

  /** The data of the text left at the end of the stream, whose lines end at optional CR and newline. */
  function TailData(tail: string): string { Joined(CrLfLines(tail)) }

  predicate WithCr(line: string, other: string) {
    line == other || line == other + "\r"
  }

  lemma {:induction false} TrailingCrIsTrimmed(line: string, other: string)
    requires WithCr(line, other)
    ensures IsData(line) == IsData(other)
    ensures IsData(line) ==> Trim(line[5..]) == Trim(other[5..])
  {
    if line == other + "\r" {
      if IsData(line) {
        assert line[4] == line[..5][4] == ':';
        assert other[..5] == line[..5];
        assert line[5..] == other[5..] + "\r";
        assert (other[5..] + "\r")[..|other[5..]|] == other[5..];
      }
      if IsData(other) { assert line[..5] == other[..5]; }
    }
  }

  ghost predicate SameUpToCr(ls: seq<string>, ms: seq<string>) {
    |ls| == |ms| && forall i :: 0 <= i < |ls| ==> WithCr(ls[i], ms[i])
  }

  lemma {:induction false} JoinedIgnoresTrailingCr(ls: seq<string>, ms: seq<string>)
    requires SameUpToCr(ls, ms)
    ensures Joined(ls) == Joined(ms)
  {
    if ls != [] {
      TrailingCrIsTrimmed(ls[0], ms[0]);
      JoinedIgnoresTrailingCr(ls[1..], ms[1..]);
    }
  }

  lemma {:induction false} CrLfFirst(s: string)
    requires "\r\n" <= s && SameUpToCr(Lines(s[2..]), CrLfLines(s[2..]))
    ensures SameUpToCr(Lines(s), CrLfLines(s))
  {
    assert s[1..][0] == '\n' && s[1..][1..] == s[2..];
    assert Lines(s[1..]) == [""] + Lines(s[2..]);
    assert Lines(s)[0] == "\r" && Lines(s)[1..] == Lines(s[2..]);
  }

  lemma {:induction false} OtherFirst(s: string)
    requires s != "" && !("\r\n" <= s) && SameUpToCr(Lines(s[1..]), CrLfLines(s[1..]))
    ensures SameUpToCr(Lines(s), CrLfLines(s))
  {
    if s[0] != '\n' {
      var l, m := Lines(s[1..])[0], CrLfLines(s[1..])[0];
      assert WithCr(l, m);
      assert [s[0]] + (m + "\r") == [s[0]] + m + "\r";
    }
  }

  lemma {:induction false} LinesDifferByCr(s: string)
    ensures SameUpToCr(Lines(s), CrLfLines(s))
    decreases |s|
  {
    if s != "" {
      if "\r\n" <= s {
        LinesDifferByCr(s[2..]);
        CrLfFirst(s);
      } else {
        LinesDifferByCr(s[1..]);
        OtherFirst(s);
      }
    }
  }

  /** The two ways the client cuts lines give the same data. */
  lemma {:induction false} TailDataIsEventData(s: string)
    ensures TailData(s) == EventData(s)
  {
    LinesDifferByCr(s);
    JoinedIgnoresTrailingCr(Lines(s), CrLfLines(s));
  }

  lemma {:induction false} LinesOfBlank(s: string)
    requires forall i :: 0 <= i < |s| ==> Blank(s[i])
    ensures forall k :: 0 <= k < |Lines(s)| ==> forall i :: 0 <= i < |Lines(s)[k]| ==> Blank(Lines(s)[k][i])
    decreases |s|
  {
    if s != "" { LinesOfBlank(s[1..]); }
  }

  lemma {:induction false} JoinedOfBlank(ls: seq<string>)
    requires forall k :: 0 <= k < |ls| ==> forall i :: 0 <= i < |ls[k]| ==> Blank(ls[k][i])
    ensures Joined(ls) == ""
  {
    if ls != [] {
      assert ls[0] != "" ==> Blank(ls[0][0]);
      JoinedOfBlank(ls[1..]);
    }
  }

  lemma {:induction false} TrimEmptyMeansBlank(s: string)
    requires Trim(s) == ""
    ensures forall i :: 0 <= i < |s| ==> Blank(s[i])
    decreases |s|
  {
    if s != "" && Blank(s[|s| - 1]) {
      TrimEmptyMeansBlank(s[..|s| - 1]);
      assert s == s[..|s| - 1] + [s[|s| - 1]];
    } else {
      TrimStartEmpty(s);
    }
  }

  lemma {:induction false} TrimStartEmpty(s: string)
    requires TrimStart(s) == ""
    ensures forall i :: 0 <= i < |s| ==> Blank(s[i])
  {
    if s != "" { TrimStartEmpty(s[1..]); }
  }

  /** The end-of-stream test `buffer.trim()` skips nothing that has data. */
  lemma {:induction false} BlankTailHasNoData(s: string)
    requires Trim(s) == ""
    ensures EventData(s) == ""
  {
    TrimEmptyMeansBlank(s);
    LinesOfBlank(s);
    JoinedOfBlank(Lines(s));
  }

  // ------------------------------------------------------------------------ payloads

  predicate Carries(data: string) { data != "" && data != "[DONE]" }

  /** The payload texts of a list of events. */
  function Payloads(events: seq<string>): seq<string> {
    if events == [] then []
    else
      var last := EventData(events[|events| - 1]);
      Payloads(events[..|events| - 1]) + (if Carries(last) then [last] else [])
  }

  /** The reference: cut the whole text once and read every piece, the last one included. */
  function OneShotPayloads(text: string): seq<string> {
    var p := Split(text);
    Payloads(p.events + [p.tail])
  }

  lemma {:induction false} PayloadsAppend(a: seq<string>, b: seq<string>)
    ensures Payloads(a + b) == Payloads(a) + Payloads(b)
    decreases |b|
  {
    if b == [] {
      assert a + b == a;
    } else {
      assert (a + b)[..|a + b| - 1] == a + b[..|b| - 1];
      PayloadsAppend(a, b[..|b| - 1]);
    }
  }

  function Concat(chunks: seq<string>): string {
    if chunks == [] then "" else Concat(chunks[..|chunks| - 1]) + chunks[|chunks| - 1]
  }

  // ------------------------------------------------------------------- consuming them

  datatype Part = Part(text: string, functionCall: Option<string>)

  /** What a payload is: no JSON, or the parts of its first candidate.  When it `breaks`, a part that is
      null or parts that are no list throw a TypeError after `parts` have been read. */
  datatype Parsed = NotJson | Payload(parts: seq<Part>, breaks: bool, usage: Option<string>)

  datatype ErrorName = AbortError | TimeoutError | TypeError | OtherError

  /** What `consume` accumulates, and the deltas given to onText. */
  datatype Answer = Answer(text: string, parts: seq<Part>, usage: Option<string>, deltas: seq<string>)

  const NOTHING := Answer("", [], None, [])

  function AddParts(a: Answer, parts: seq<Part>): Answer {
    if parts == [] then a
    else
      var b := AddParts(a, parts[..|parts| - 1]);
      var p := parts[|parts| - 1];
      Answer(b.text + p.text, b.parts + [p], b.usage, if p.text != "" then b.deltas + [p.text] else b.deltas)
  }

  /** Reading ends at the first error; what was consumed before it stays consumed. */
  datatype Reading = Reading(answer: Answer, error: Option<ErrorName>)

  function Consume(a: Answer, p: Parsed): Reading {
    match p
    case NotJson => Reading(a, Some(OtherError))
    case Payload(parts, breaks, usage) =>
      var b := AddParts(a, parts);
      if breaks then Reading(b, Some(TypeError)) else Reading(if usage.Some? then b.(usage := usage) else b, None)
  }

  function ConsumeAll(parse: string -> Parsed, texts: seq<string>): Reading {
    if texts == [] then Reading(NOTHING, None)
    else
      var r := ConsumeAll(parse, texts[..|texts| - 1]);
      if r.error.Some? then r else Consume(r.answer, parse(texts[|texts| - 1]))
  }

  lemma {:induction false} FailureIsFinal(parse: string -> Parsed, a: seq<string>, b: seq<string>)
    requires ConsumeAll(parse, a).error.Some?
    ensures ConsumeAll(parse, a + b) == ConsumeAll(parse, a)
    decreases |b|
  {
    if b == [] {
      assert a + b == a;
    } else {
      assert (a + b)[..|a + b| - 1] == a + b[..|b| - 1];
      FailureIsFinal(parse, a, b[..|b| - 1]);
    }
  }

  lemma {:induction false} DeltasAreTextOfParts(a: Answer, parts: seq<Part>)
    requires Concat(a.deltas) == a.text
    ensures Concat(AddParts(a, parts).deltas) == AddParts(a, parts).text
  {
    if parts != [] {
      DeltasAreTextOfParts(a, parts[..|parts| - 1]);
      var b, p := AddParts(a, parts[..|parts| - 1]), parts[|parts| - 1];
      assert (b.deltas + [p.text])[..|b.deltas|] == b.deltas;
    }
  }

  /** What onText was told concatenates to the text of the answer, also when reading fails midway. */
  lemma {:induction false} DeltasAreText(parse: string -> Parsed, texts: seq<string>)
    ensures var a := ConsumeAll(parse, texts).answer; Concat(a.deltas) == a.text
  {
    if texts != [] {
      var r, p := ConsumeAll(parse, texts[..|texts| - 1]), parse(texts[|texts| - 1]);
      DeltasAreText(parse, texts[..|texts| - 1]);
      if r.error.None? && p.Payload? { DeltasAreTextOfParts(r.answer, p.parts); }
    }
  }

  // ----------------------------------------------------------------- the reading loops

  /** `consume`: the loop over the parts of one payload. */
  method ConsumePayload(a: Answer, p: Parsed) returns (b: Answer, error: Option<ErrorName>)
    requires p.Payload?
    ensures Reading(b, error) == Consume(a, p)
  {
    b, error := a, None;
    for i := 0 to |p.parts|
      invariant b == AddParts(a, p.parts[..i])
    {
      assert p.parts[..i + 1][..i] == p.parts[..i];
      var part := p.parts[i];
      if part.text != "" { b := b.(text := b.text + part.text, deltas := b.deltas + [part.text]); }
      b := b.(parts := b.parts + [part]);
    }
    assert p.parts[..|p.parts|] == p.parts;
    if p.breaks { return b, Some(TypeError); }
    if p.usage.Some? { b := b.(usage := p.usage); }
  }

  /** The reading of one more payload text, when all texts so far are `read`. */
  method ConsumeText(parse: string -> Parsed, ghost read: seq<string>, a: Answer, data: string)
    returns (b: Answer, error: Option<ErrorName>)
    requires ConsumeAll(parse, read) == Reading(a, None)
    ensures ConsumeAll(parse, read + [data]) == Reading(b, error)
  {
    assert (read + [data])[..|read|] == read;
    var p := parse(data);
    if p.NotJson? { return a, Some(OtherError); }
    b, error := ConsumePayload(a, p);
  }

  lemma {:induction false} PayloadsOfOneMore(events: seq<string>, event: string)
    ensures Payloads(events + [event]) ==
            if Carries(EventData(event)) then Payloads(events) + [EventData(event)] else Payloads(events)
  {
    assert (events + [event])[..|events|] == events;
  }

  lemma {:induction false} StopsHere(parse: string -> Parsed, read: seq<string>, more: seq<string>)
    requires ConsumeAll(parse, Payloads(read)).error.Some?
    ensures ConsumeAll(parse, Payloads(read + more)) == ConsumeAll(parse, Payloads(read))
  {
    PayloadsAppend(read, more);
    FailureIsFinal(parse, Payloads(read), Payloads(more));
  }

  /** The text left in the buffer at the end of the stream is read like one more event. */
  method ReadTail(parse: string -> Parsed, ghost events: seq<string>, a: Answer, buffer: string)
    returns (b: Answer, error: Option<ErrorName>)
    requires ConsumeAll(parse, Payloads(events)) == Reading(a, None)
    ensures ConsumeAll(parse, Payloads(events + [buffer])) == Reading(b, error)
  {
    PayloadsOfOneMore(events, buffer);
    TailDataIsEventData(buffer);
    b, error := a, None;
    if Trim(buffer) != "" {
      var data := TailData(buffer);
      if Carries(data) { b, error := ConsumeText(parse, Payloads(events), a, data); }
    } else {
      BlankTailHasNoData(buffer);
    }
  }

  lemma {:induction false} SplitAround(before: seq<string>, events: seq<string>, e: nat)
    requires e < |events|
    ensures before + events == before + events[..e] + [events[e]] + events[e + 1..]
    ensures before + events[..e + 1] == before + events[..e] + [events[e]]
  {
  }

  /** The events one chunk completes. */
  method ReadEvents(parse: string -> Parsed, ghost before: seq<string>, a: Answer, events: seq<string>)
    returns (b: Answer, error: Option<ErrorName>)
    requires ConsumeAll(parse, Payloads(before)) == Reading(a, None)
    ensures ConsumeAll(parse, Payloads(before + events)) == Reading(b, error)
  {
    b, error := a, None;
    assert before + events[..0] == before;
    for e := 0 to |events|
      invariant error.None?
      invariant ConsumeAll(parse, Payloads(before + events[..e])) == Reading(b, None)
    {
      ghost var read := before + events[..e];
      SplitAround(before, events, e);
      PayloadsOfOneMore(read, events[e]);
      var data := EventData(events[e]);
      if Carries(data) {
        b, error := ConsumeText(parse, Payloads(read), b, data);
        if error.Some? {
          StopsHere(parse, read + [events[e]], events[e + 1..]);
          return;
        }
      }
    }
    assert events[..|events|] == events;
  }

  /** The reading loop: for every way of cutting the received text into chunks, the complete events
      consumed are those of one split of the text, and the buffer is its tail. */
  method ReadChunks(parse: string -> Parsed, chunks: seq<string>)
    returns (a: Answer, error: Option<ErrorName>, buffer: string)
    ensures Reading(a, error) == ConsumeAll(parse, Payloads(Split(Concat(chunks)).events))
    ensures error.None? ==> buffer == Split(Concat(chunks)).tail
  {
    buffer := "";
    a, error := NOTHING, None;
    for c := 0 to |chunks|
      invariant error.None?
      invariant Split(Concat(chunks[..c])).tail == buffer
      invariant ConsumeAll(parse, Payloads(Split(Concat(chunks[..c])).events)) == Reading(a, None)
    {
      ghost var received := Concat(chunks[..c]);
      assert chunks[..c + 1][..c] == chunks[..c];
      SplitIsIncremental(received, chunks[c]);
      var pieces := Split(buffer + chunks[c]);
      buffer := pieces.tail;
      a, error := ReadEvents(parse, Split(received).events, a, pieces.events);
      if error.Some? {
        StoppedEarly(parse, chunks, c + 1);
        return;
      }
    }
    assert chunks[..|chunks|] == chunks;
  }

  /** One attempt's whole stream: the payloads consumed, and hence the answer, the deltas and a
      failure, are those of a one-shot reading of the whole text. */
  method ReadStream(parse: string -> Parsed, chunks: seq<string>) returns (a: Answer, error: Option<ErrorName>)
    ensures Reading(a, error) == ConsumeAll(parse, OneShotPayloads(Concat(chunks)))
  {
    var buffer;
    a, error, buffer := ReadChunks(parse, chunks);
    if error.Some? {
      StopsHere(parse, Split(Concat(chunks)).events, [Split(Concat(chunks)).tail]);
    } else {
      a, error := ReadTail(parse, Split(Concat(chunks)).events, a, buffer);
    }
  }

  lemma {:induction false} ConcatSplits(chunks: seq<string>, c: nat) returns (rest: string)
    requires c <= |chunks|
    ensures Concat(chunks) == Concat(chunks[..c]) + rest
    decreases |chunks| - c
  {
    if c == |chunks| {
      assert chunks[..c] == chunks;
      rest := "";
    } else {
      rest := ConcatSplits(chunks, c + 1);
      assert chunks[..c + 1][..c] == chunks[..c];
      rest := chunks[c] + rest;
    }
  }

  /** A failure in the events received so far is the failure of the whole stream. */
  lemma {:induction false} StoppedEarly(parse: string -> Parsed, chunks: seq<string>, c: nat)
    requires c <= |chunks| && ConsumeAll(parse, Payloads(Split(Concat(chunks[..c])).events)).error.Some?
    ensures ConsumeAll(parse, Payloads(Split(Concat(chunks)).events)) ==
            ConsumeAll(parse, Payloads(Split(Concat(chunks[..c])).events))
  {
    var rest := ConcatSplits(chunks, c);
    SplitIsIncremental(Concat(chunks[..c]), rest);
    StopsHere(parse, Split(Concat(chunks[..c])).events, Split(Split(Concat(chunks[..c])).tail + rest).events);
  }

  // ------------------------------------------------------------------------- attempts

  /** What one fetch leads to: an error status, a thrown error, a missing body, or a stream, which
      may break with an error after its last chunk. */
  datatype Attempt =
    | Status(code: nat)
    | Throws(name: ErrorName)
    | NoBody
    | Stream(chunks: seq<string>, breaks: Option<ErrorName>)

  datatype Outcome = Answered(answer: Answer) | Failed(name: ErrorName)

  predicate HasContent(a: Answer) {
    a.text != "" || exists i :: 0 <= i < |a.parts| && a.parts[i].functionCall.Some?
  }

  /** What is read of a stream: all of it, or the complete events before it breaks. */
  function ReadOf(parse: string -> Parsed, chunks: seq<string>, breaks: Option<ErrorName>): Reading {
    if breaks.None? then ConsumeAll(parse, OneShotPayloads(Concat(chunks))) else
    var r := ConsumeAll(parse, Payloads(Split(Concat(chunks)).events));
    if r.error.Some? then r else Reading(r.answer, breaks)
  }

  /** What an attempt tells onText, whether or not it succeeds. */
  function Told(parse: string -> Parsed, t: Attempt): Answer {
    if t.Stream? then ReadOf(parse, t.chunks, t.breaks).answer else NOTHING
  }

  /** The attempt is retried while attempts remain: 429 or 5xx, or a TypeError, be it of the connection
      or of the reading, that comes before any other error. */
  predicate Retried(parse: string -> Parsed, t: Attempt) {
    match t
    case Status(code) => code == 429 || code >= 500
    case Throws(name) => name == TypeError
    case NoBody => false
    case Stream(chunks, breaks) => ReadOf(parse, chunks, breaks).error == Some(TypeError)
  }

  /** The attempt completes with an answer. */
  predicate Succeeds(parse: string -> Parsed, t: Attempt) {
    && t.Stream?
    && var r := ReadOf(parse, t.chunks, t.breaks); r.error.None? && HasContent(r.answer)
  }

  /** One attempt as the retry loop sees it. */
  datatype Turn = Turn(retry: bool, answer: Option<Answer>, told: seq<string>)

  function TurnOf(parse: string -> Parsed, t: Attempt): Turn {
    Turn(Retried(parse, t), if Succeeds(parse, t) then Some(Told(parse, t)) else None, Told(parse, t).deltas)
  }

  function Turns(parse: string -> Parsed, attempts: nat -> Attempt): nat -> Turn {
    (n: nat) => TurnOf(parse, attempts(n))
  }

  /** All that onText has been told by the first n turns. */
  function ToldBy(turns: nat -> Turn, n: nat): seq<string> {
    if n == 0 then [] else ToldBy(turns, n - 1) + turns(n - 1).told
  }

  /** One turn of the retry loop; `retry` is the test that leads to `continue`, attempts permitting. */
  method RunAttempt(parse: string -> Parsed, t: Attempt) returns (outcome: Outcome, told: seq<string>, retry: bool)
    ensures Turn(retry, if outcome.Answered? then Some(outcome.answer) else None, told) == TurnOf(parse, t)
  {
    match t {
      case Status(_) => outcome, told := Failed(OtherError), [];
      case Throws(name) => outcome, told := Failed(name), [];
      case NoBody => outcome, told := Failed(OtherError), [];
      case Stream(chunks, breaks) =>
        if breaks.Some? {
          var a, error, buffer := ReadChunks(parse, chunks);
          outcome, told := Failed(if error.Some? then error.value else breaks.value), a.deltas;
        } else {
          var a, error := ReadStream(parse, chunks);
          told := a.deltas;
          outcome :=
            if error.Some? then Failed(error.value) else if HasContent(a) then Answered(a) else Failed(OtherError);
        }
    }
    retry := (t.Status? && (t.code == 429 || t.code >= 500)) || outcome == Failed(TypeError);
  }

  /** The retry loop: at most three fetches, every turn before the last was retried, the last only if
      no attempt was left, and the outcome is that of the last alone. */
  method Generate(parse: string -> Parsed, attempts: nat -> Attempt)
    returns (outcome: Outcome, fetches: nat, told: seq<string>)
    ensures 1 <= fetches <= 3
    ensures forall n :: 0 <= n < fetches - 1 ==> Turns(parse, attempts)(n).retry
    ensures fetches < 3 ==> !Turns(parse, attempts)(fetches - 1).retry
    ensures Turns(parse, attempts)(fetches - 1).answer == if outcome.Answered? then Some(outcome.answer) else None
    ensures told == ToldBy(Turns(parse, attempts), fetches)
  {
    ghost var turns := Turns(parse, attempts);
    told := [];
    var attempt := 0;
    while true
      invariant 0 <= attempt <= 2 && told == ToldBy(turns, attempt)
      invariant forall n :: 0 <= n < attempt ==> turns(n).retry
      decreases 2 - attempt
    {
      var deltas, retry;
      outcome, deltas, retry := RunAttempt(parse, attempts(attempt));
      assert turns(attempt) == Turn(retry, if outcome.Answered? then Some(outcome.answer) else None, deltas);
      told := told + deltas;
      if !retry || attempt == 2 { return outcome, attempt + 1, told; }
      attempt := attempt + 1;
    }
  }

  /** An answer reads the last attempt's text in one shot, whatever earlier attempts streamed, and the
      deltas onText heard from that attempt are the last it heard and concatenate to the answer's text. */
  lemma {:induction false} AnswerIsLastAttempt(parse: string -> Parsed, attempts: nat -> Attempt, fetches: nat)
    requires fetches >= 1 && Turns(parse, attempts)(fetches - 1).answer.Some?
    ensures var t, a := attempts(fetches - 1), Turns(parse, attempts)(fetches - 1).answer.value;
            && t.Stream? && a == ConsumeAll(parse, OneShotPayloads(Concat(t.chunks))).answer
            && ToldBy(Turns(parse, attempts), fetches) == ToldBy(Turns(parse, attempts), fetches - 1) + a.deltas
            && Concat(a.deltas) == a.text
  {
    var t := attempts(fetches - 1);
    assert Succeeds(parse, t);
    DeltasAreText(parse, OneShotPayloads(Concat(t.chunks)));
  }
}
