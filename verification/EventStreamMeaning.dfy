/** What the reader of the event stream makes of a text, told without its own accumulating functions:
    the events between separators, the data of their lines, and the parts of all payloads in order. */
module EventStreamMeaning {
  import opened Wrappers
  import opened Strings
  import opened EventStream

  // ----------------------------------------------------------------- events of a text

  /** A match of `\r?\n\r?\n`. */
  predicate Separator(s: string) {
    s == ['\n', '\n'] || s == ['\r', '\n', '\n'] || s == ['\n', '\r', '\n'] || s == ['\r', '\n', '\r', '\n']
  }

  /** The first `n` characters are a separator, for the returned n; 0 when none stands there. */
  lemma {:induction false} SeparatorAtIff(s: string, n: nat)
    requires 0 < n <= |s|
    ensures Separator(s[..n]) <==> SeparatorAt(s) == n
  {
    if Separator(s[..n]) {
      assert forall i :: 0 <= i < n ==> s[i] == s[..n][i];
      assert n >= 2 && s[..2] == [s[0], s[1]];
      if n >= 3 { assert s[..3] == [s[0], s[1], s[2]]; }
      if n >= 4 { assert s[..4] == [s[0], s[1], s[2], s[3]]; }
    }
  }

  /** The text put together again: every event followed by its separator, and the tail. */
  function Glued(events: seq<string>, separators: seq<string>, tail: string): string
    requires |events| == |separators|
  {
    if events == [] then tail else events[0] + separators[0] + Glued(events[1..], separators[1..], tail)
  }

  /** No separator starts inside `event` when `rest` follows it. */
  ghost predicate Unbroken(event: string, rest: string) {
    forall k, n :: 0 <= k < |event| && k < n <= |event + rest| ==> !Separator((event + rest)[k..n])
  }

  ghost predicate AllUnbroken(events: seq<string>, separators: seq<string>, tail: string)
    requires |events| == |separators|
  {
    if events == [] then Unbroken(tail, "")
    else
      && Separator(separators[0]) && Unbroken(events[0], separators[0] + Glued(events[1..], separators[1..], tail))
      && AllUnbroken(events[1..], separators[1..], tail)
  }

  lemma {:induction false} NoSeparatorBefore(s: string, i: nat)
    requires i <= |s| && forall k :: 0 <= k < i ==> SeparatorAt(s[k..]) == 0
    ensures Unbroken(s[..i], s[i..])
  {
    assert s[..i] + s[i..] == s;
    forall k, n | 0 <= k < i && k < n <= |s| ensures !Separator(s[k..n]) {
      assert s[k..][..n - k] == s[k..n];
      SeparatorAtIff(s[k..], n - k);
    }
  }

  ghost predicate CutsAt(s: string, p: Pieces, separators: seq<string>) {
    && |separators| == |p.events| && Glued(p.events, separators, p.tail) == s
    && AllUnbroken(p.events, separators, p.tail)
  }

  lemma {:induction false} OneMoreEvent(event: string, separator: string, p: Pieces, separators: seq<string>,
          rest: string)
    requires Separator(separator) && CutsAt(rest, p, separators) && Unbroken(event, separator + rest)
    ensures CutsAt(event + separator + rest, Pieces([event] + p.events, p.tail), [separator] + separators)
  {
    assert ([event] + p.events)[1..] == p.events && ([separator] + separators)[1..] == separators;
  }

  /** The pieces of a split are the text between its leftmost separators: glued together with them they
      are the text, and no event and not the tail has a separator of its own. */
  lemma {:induction false} SplitCutsAtSeparators(s: string) returns (separators: seq<string>)
    ensures CutsAt(s, Split(s), separators)
    decreases |s|
  {
    var i := FirstSeparator(s, 0);
    NoSeparatorBefore(s, i);
    if i == |s| {
      separators := [];
      assert s[..i] == s && s[i..] == "";
    } else {
      var n := i + SeparatorAt(s[i..]);
      var more := SplitCutsAtSeparators(s[n..]);
      SplitHead(s, i, n);
      SeparatorIsThere(s, i, n);
      OneMoreEvent(s[..i], s[i..n], Split(s[n..]), more, s[n..]);
      separators := [s[i..n]] + more;
    }
  }

  lemma {:induction false} SeparatorIsThere(s: string, i: nat, n: nat)
    requires i < n <= |s| && SeparatorAt(s[i..]) == n - i
    ensures Separator(s[i..n]) && s[i..n] + s[n..] == s[i..] && s[..i] + s[i..n] + s[n..] == s
  {
    SeparatorAtIff(s[i..], n - i);
    assert s[i..][..n - i] == s[i..n];
  }

  // ------------------------------------------------------------------ data of an event

  /** `s` without the white space at its ends. */
  ghost predicate IsTrimmed(t: string, s: string) {
    && (exists i, j :: 0 <= i <= j <= |s| && t == s[i..j] && AllBlank(s[..i]) && AllBlank(s[j..]))
    && (t != "" ==> !Blank(t[0]) && !Blank(t[|t| - 1]))
  }

  lemma {:induction false} TrimEndCuts(s: string) returns (j: nat)
    ensures j <= |s| && TrimEnd(s) == s[..j] && AllBlank(s[j..]) && (j > 0 ==> !Blank(s[j - 1]))
  {
    if s != "" && Blank(s[|s| - 1]) {
      j := TrimEndCuts(s[..|s| - 1]);
      assert s[..|s| - 1][..j] == s[..j] && s[j..] == s[..|s| - 1][j..] + [s[|s| - 1]];
    } else {
      j := |s|;
      assert s[..j] == s;
    }
  }

  lemma {:induction false} TrimStartCuts(s: string) returns (i: nat)
    ensures i <= |s| && TrimStart(s) == s[i..] && AllBlank(s[..i]) && (i < |s| ==> !Blank(s[i]))
  {
    if s != "" && Blank(s[0]) {
      i := TrimStartCuts(s[1..]);
      assert s[1..][i..] == s[i + 1..] && s[..i + 1] == [s[0]] + s[1..][..i];
      i := i + 1;
    } else {
      i := 0;
      assert s[0..] == s;
    }
  }

  lemma {:induction false} TrimTrims(s: string)
    ensures IsTrimmed(Trim(s), s)
  {
    var j := TrimEndCuts(s);
    var i := TrimStartCuts(s[..j]);
    assert Trim(s) == s[..j][i..] == s[i..j] && s[..j][..i] == s[..i];
  }

  function JoinedBy(ls: seq<string>, c: char): string {
    if ls == [] then "" else if |ls| == 1 then ls[0] else ls[0] + [c] + JoinedBy(ls[1..], c)
  }

  /** The lines are the text between newlines. */
  lemma {:induction false} LinesCutAtNewlines(s: string)
    ensures JoinedBy(Lines(s), '\n') == s
    ensures forall k :: 0 <= k < |Lines(s)| ==> '\n' !in Lines(s)[k]
    decreases |s|
  {
    if s != "" {
      LinesCutAtNewlines(s[1..]);
      var rest := Lines(s[1..]);
      assert s == [s[0]] + s[1..];
      if s[0] == '\n' {
        assert ([""] + rest)[1..] == rest;
      } else {
        assert ([[s[0]] + rest[0]] + rest[1..])[1..] == rest[1..];
      }
    }
  }

  /** What one line contributes: the trimmed rest of a line that starts with `data:`, or nothing. */
  ghost predicate Contributes(line: string, data: string) {
    if |line| >= 5 && line[..5] == ['d', 'a', 't', 'a', ':'] then IsTrimmed(data, line[5..]) else data == ""
  }

  lemma {:induction false} OneLineContributes(line: string)
    ensures Contributes(line, Joined([line]))
  {
    assert [line][1..] == [] && [line][0] == line;
    assert Joined([line]) == (if IsData(line) then Trim(line[5..]) else "") + Joined([]);
    if IsData(line) {
      TrimTrims(line[5..]);
      assert Joined([line]) == Trim(line[5..]);
    }
  }

  /** The data of an event are the contributions of its lines, in order. */
  lemma {:induction false} DataOfLines(lines: seq<string>) returns (data: seq<string>)
    ensures |data| == |lines| && Concat(data) == Joined(lines)
    ensures forall k :: 0 <= k < |lines| ==> Contributes(lines[k], data[k])
  {
    if lines == [] {
      data := [];
    } else {
      var n := |lines| - 1;
      data := DataOfLines(lines[..n]);
      OneLineContributes(lines[n]);
      JoinedAppend(lines[..n], [lines[n]]);
      assert lines == lines[..n] + [lines[n]];
      data := data + [Joined([lines[n]])];
      assert data[..n] == data[..|data| - 1];
    }
  }

  lemma {:induction false} JoinedAppend(ls: seq<string>, ms: seq<string>)
    ensures Joined(ls + ms) == Joined(ls) + Joined(ms)
  {
    if ls == [] {
      assert ls + ms == ms;
    } else {
      assert (ls + ms)[1..] == ls[1..] + ms;
      JoinedAppend(ls[1..], ms);
    }
  }

  /** The payload texts of events are their data, in order, but for empty ones and `[DONE]`. */
  lemma {:induction false} PayloadsOfEvents(events: seq<string>, event: string)
    ensures Payloads([]) == []
    ensures var d := EventData(event);
            Payloads(events + [event]) ==
            if d == [] || d == ['[', 'D', 'O', 'N', 'E', ']'] then Payloads(events) else Payloads(events) + [d]
  {
    PayloadsOfOneMore(events, event);
  }

  // ------------------------------------------------------------- what is read of payloads

  /** The position of the first text that is no JSON or breaks while being read, |texts| without one. */
  function FirstBad(parse: string -> Parsed, texts: seq<string>): (m: nat)
    ensures m <= |texts|
    ensures forall i :: 0 <= i < m ==> parse(texts[i]).Payload? && !parse(texts[i]).breaks
    ensures m < |texts| ==> parse(texts[m]).NotJson? || parse(texts[m]).breaks
  {
    if texts == [] then 0
    else if parse(texts[0]).NotJson? || parse(texts[0]).breaks then 0
    else 1 + FirstBad(parse, texts[1..])
  }

  /** The parts of a payload, of one that breaks those before the one that throws. */
  function PartsIn(p: Parsed): seq<Part> { if p.Payload? then p.parts else [] }

  /** All parts, payload after payload. */
  function AllParts(parse: string -> Parsed, texts: seq<string>): seq<Part> {
    if texts == [] then [] else PartsIn(parse(texts[0])) + AllParts(parse, texts[1..])
  }

  /** The texts of parts one after the other. */
  function AllText(parts: seq<Part>): string {
    if parts == [] then "" else parts[0].text + AllText(parts[1..])
  }

  /** The texts that are not empty, one by one. */
  function Spoken(parts: seq<Part>): seq<string> {
    if parts == [] then [] else (if parts[0].text == "" then [] else [parts[0].text]) + Spoken(parts[1..])
  }

  /** The usage given last. */
  function LastUsage(parse: string -> Parsed, texts: seq<string>): Option<string> {
    if texts == [] then None else
    var p := parse(texts[|texts| - 1]);
    if p.Payload? && p.usage.Some? then p.usage else LastUsage(parse, texts[..|texts| - 1])
  }

  lemma {:induction false} AllPartsAppend(parse: string -> Parsed, texts: seq<string>, text: string)
    ensures AllParts(parse, texts + [text]) == AllParts(parse, texts) + PartsIn(parse(text))
  {
    if texts == [] {
      assert (texts + [text])[1..] == [];
    } else {
      assert (texts + [text])[1..] == texts[1..] + [text];
      AllPartsAppend(parse, texts[1..], text);
    }
  }

  lemma {:induction false} PartsAppend(parts: seq<Part>, p: Part)
    ensures AllText(parts + [p]) == AllText(parts) + p.text
    ensures Spoken(parts + [p]) == Spoken(parts) + if p.text == "" then [] else [p.text]
  {
    if parts == [] {
      assert (parts + [p])[1..] == [];
    } else {
      assert (parts + [p])[1..] == parts[1..] + [p];
      PartsAppend(parts[1..], p);
    }
  }

  /** Text and deltas of an answer are those of its parts. */
  ghost predicate Told(a: Answer) { a.text == AllText(a.parts) && a.deltas == Spoken(a.parts) }

  lemma {:induction false} AddPartsAdds(a: Answer, parts: seq<Part>)
    requires Told(a)
    ensures var b := AddParts(a, parts); Told(b) && b.parts == a.parts + parts && b.usage == a.usage
  {
    if parts != [] {
      var n := |parts| - 1;
      AddPartsAdds(a, parts[..n]);
      PartsAppend(a.parts + parts[..n], parts[n]);
      assert a.parts + parts == a.parts + parts[..n] + [parts[n]];
    } else {
      assert a.parts + parts == a.parts;
    }
  }

  lemma {:induction false} FirstBadOfMore(parse: string -> Parsed, texts: seq<string>, text: string)
    ensures FirstBad(parse, texts + [text]) ==
            if FirstBad(parse, texts) < |texts| then FirstBad(parse, texts)
            else if parse(text).NotJson? || parse(text).breaks then |texts| else |texts| + 1
  {
    if texts == [] {
      assert (texts + [text])[1..] == [];
    } else {
      assert (texts + [text])[1..] == texts[1..] + [text];
      FirstBadOfMore(parse, texts[1..], text);
    }
  }

  /** What reading the payload texts gives: the error of the first bad one, all parts up to and including
      what was read of it, their texts, and the last usage before it. */
  ghost predicate ReadsAs(parse: string -> Parsed, texts: seq<string>, r: Reading) {
    var m := FirstBad(parse, texts);
    && r.error == (if m == |texts| then None
                   else if parse(texts[m]).NotJson? then Some(OtherError) else Some(TypeError))
    && r.answer.parts == AllParts(parse, if m == |texts| then texts else texts[..m + 1])
    && r.answer.usage == LastUsage(parse, texts[..m])
    && Told(r.answer)
  }

  lemma {:induction false} OneMoreText(parse: string -> Parsed, texts: seq<string>, text: string, r: Reading)
    requires ReadsAs(parse, texts, r) && r.error.None?
    ensures ReadsAs(parse, texts + [text], Consume(r.answer, parse(text)))
  {
    var all := texts + [text];
    FirstBadOfMore(parse, texts, text);
    AllPartsAppend(parse, texts, text);
    assert all[..|texts|] == texts && all[..|texts| + 1] == all && texts[..|texts|] == texts;
    if parse(text).Payload? {
      AddPartsAdds(r.answer, parse(text).parts);
    } else {
      assert AllParts(parse, texts) + [] == AllParts(parse, texts);
    }
  }

  lemma {:induction false} TextsAfterError(parse: string -> Parsed, texts: seq<string>, text: string, r: Reading)
    requires ReadsAs(parse, texts, r) && r.error.Some?
    ensures ReadsAs(parse, texts + [text], r)
  {
    var m := FirstBad(parse, texts);
    FirstBadOfMore(parse, texts, text);
    assert (texts + [text])[..m + 1] == texts[..m + 1] && (texts + [text])[..m] == texts[..m];
  }

  /** Every reading is that: without an error the parts are those of all payloads in order, their text is
      the text, what onText heard are their texts, and the usage is the last one given. */
  lemma {:induction false} ReadingIsFold(parse: string -> Parsed, texts: seq<string>)
    ensures ReadsAs(parse, texts, ConsumeAll(parse, texts))
  {
    if texts != [] {
      var n := |texts| - 1;
      var r := ConsumeAll(parse, texts[..n]);
      ReadingIsFold(parse, texts[..n]);
      assert texts == texts[..n] + [texts[n]];
      if r.error.None? {
        OneMoreText(parse, texts[..n], texts[n], r);
      } else {
        TextsAfterError(parse, texts[..n], texts[n], r);
      }
    }
  }

  // -------------------------------------------------------------------------- attempts

  predicate AllGood(parse: string -> Parsed, texts: seq<string>) {
    forall i :: 0 <= i < |texts| ==> parse(texts[i]).Payload? && !parse(texts[i]).breaks
  }

  /** Some part says something or calls a function. */
  predicate HasWordOrCall(parts: seq<Part>) {
    exists i :: 0 <= i < |parts| && (parts[i].text != "" || parts[i].functionCall.Some?)
  }

  lemma {:induction false} TextIsSomePart(parts: seq<Part>)
    ensures AllText(parts) != "" <==> exists i :: 0 <= i < |parts| && parts[i].text != ""
  {
    if parts != [] {
      TextIsSomePart(parts[1..]);
      if i :| 0 <= i < |parts| && parts[i].text != "" {
        assert i > 0 ==> parts[1..][i - 1] == parts[i];
      }
      if i :| 0 <= i < |parts[1..]| && parts[1..][i].text != "" { assert parts[i + 1] == parts[1..][i]; }
    }
  }

  lemma {:induction false} ContentIsWordOrCall(a: Answer)
    requires Told(a)
    ensures HasContent(a) <==> HasWordOrCall(a.parts)
  {
    TextIsSomePart(a.parts);
  }

  lemma {:induction false} NoBadIsAllGood(parse: string -> Parsed, texts: seq<string>)
    ensures AllGood(parse, texts) <==> FirstBad(parse, texts) == |texts|
  {
  }

  lemma {:induction false} GoodReading(parse: string -> Parsed, texts: seq<string>)
    ensures var r := ConsumeAll(parse, texts);
            && (r.error.None? <==> AllGood(parse, texts))
            && (r.error.None? ==> && r.answer.parts == AllParts(parse, texts)
                                  && r.answer.usage == LastUsage(parse, texts) && Told(r.answer))
  {
    ReadingIsFold(parse, texts);
    NoBadIsAllGood(parse, texts);
    assert texts[..|texts|] == texts;
  }

  /** An attempt answers exactly when it is a stream that does not break, all its payloads can be read, and
      some part of them has a text or calls a function; and then the answer has all their parts. */
  lemma {:induction false} AttemptAnswersIff(parse: string -> Parsed, t: Attempt)
    ensures var answer := TurnOf(parse, t).answer;
            var texts := if t.Stream? then OneShotPayloads(Concat(t.chunks)) else [];
            var parts := AllParts(parse, texts);
            && (answer.Some? <==> t.Stream? && t.breaks.None? && AllGood(parse, texts) && HasWordOrCall(parts))
            && (answer.Some? ==> && answer.value.parts == parts && answer.value.text == AllText(parts)
                                 && answer.value.usage == LastUsage(parse, texts))
  {
    if t.Stream? && t.breaks.None? {
      var texts := OneShotPayloads(Concat(t.chunks));
      GoodReading(parse, texts);
      if AllGood(parse, texts) { ContentIsWordOrCall(ConsumeAll(parse, texts).answer); }
    } else {
      assert !Succeeds(parse, t);
    }
  }

  /** An attempt may be retried exactly after status 429 or 500 and above, after a thrown TypeError, and
      after a stream whose first bad payload breaks, or that breaks with a TypeError before any. */
  lemma {:induction false} RetriedIff(parse: string -> Parsed, t: Attempt)
    ensures TurnOf(parse, t).retry <==>
            match t
            case Status(code) => code == 429 || code > 499
            case Throws(name) => name.TypeError?
            case NoBody => false
            case Stream(chunks, breaks) =>
              var events := Split(Concat(chunks)).events;
              var texts := Payloads(if breaks.None? then events + [Split(Concat(chunks)).tail] else events);
              var m := FirstBad(parse, texts);
              if m < |texts| then parse(texts[m]).Payload? else breaks.Some? && breaks.value.TypeError?
  {
    if t.Stream? {
      ReadingIsFold(parse, OneShotPayloads(Concat(t.chunks)));
      ReadingIsFold(parse, Payloads(Split(Concat(t.chunks)).events));
    }
  }
}
