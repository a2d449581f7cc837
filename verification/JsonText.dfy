/** The canonical text is JSON: read by the grammar of RFC 8259, which allows more spellings than the one that is
    written, it denotes the value it was written for.  The keys of an object come in numeric order first. */
module JsonText {
  import opened CanonicalJson
  import Strings
  import PayloadGraph
  import opened Wrappers

  // -------------------------------------------------------------------- the grammar

  /** Two-character escapes of section 7: backslash and one of these. */
  predicate EscapeLetter(letter: char, c: char) {
    || (letter == '"' && c == '"') || (letter == '\\' && c == '\\') || (letter == '/' && c == '/')
    || (letter == 'b' && c as int == 0x08) || (letter == 'f' && c as int == 0x0C) || (letter == 'n' && c as int == 0x0A)
    || (letter == 'r' && c as int == 0x0D) || (letter == 't' && c as int == 0x09)
  }

  predicate HexDigit(c: char) { '0' <= c <= '9' || 'a' <= c <= 'f' || 'A' <= c <= 'F' }

  function HexValue(c: char): int
    requires HexDigit(c)
  {
    if c <= '9' then c as int - '0' as int else if c <= 'F' then c as int - 'A' as int + 10
    else c as int - 'a' as int + 10
  }

  /** `unescaped`, an escape letter, or `u` and the code in four hexadecimal digits. */
  predicate Spells(text: string, c: char) {
    || (|text| == 1 && text[0] == c && 0x20 <= c as int && c != '"' && c != '\\')
    || (|text| == 2 && text[0] == '\\' && EscapeLetter(text[1], c))
    || (|text| == 6 && text[0] == '\\' && text[1] == 'u' && (forall i :: 2 <= i < 6 ==> HexDigit(text[i]))
        && c as int ==
           4096 * HexValue(text[2]) + 256 * HexValue(text[3]) + 16 * HexValue(text[4]) + HexValue(text[5]))
  }

  /** The characters of a string, one spelling after the other. */
  ghost predicate SpellsAll(text: string, s: string)
    decreases |s|
  {
    if s == "" then text == ""
    else exists n :: 1 <= n <= |text| && Spells(text[..n], s[0]) && SpellsAll(text[n..], s[1..])
  }

  ghost predicate StringText(text: string, s: string) {
    |text| >= 2 && text[0] == '"' && text[|text| - 1] == '"' && SpellsAll(text[1..|text| - 1], s)
  }

  /** Texts with a comma between any two. */
  function Joined(texts: seq<string>): string {
    if texts == [] then "" else if |texts| == 1 then texts[0] else texts[0] + [','] + Joined(texts[1..])
  }

  /** `text` is JSON for `v`, without white space between tokens. */
  ghost predicate Denotes(text: string, v: Json)
    decreases v
  {
    match v
    case JNull => text == ['n', 'u', 'l', 'l']
    case JBool(b) => text == if b then ['t', 'r', 'u', 'e'] else ['f', 'a', 'l', 's', 'e']
    case JNum(number) => text == number
    case JStr(s) => StringText(text, s)
    case JArr(items) => exists texts :: text == ['['] + Joined(texts) + [']'] && ItemTexts(texts, items)
    case JObj(fields) => exists texts :: text == ['{'] + Joined(texts) + ['}'] && FieldTexts(texts, fields)
  }

  ghost predicate ItemTexts(texts: seq<string>, items: seq<Json>)
    decreases items, 0
  {
    |texts| == |items| && forall i :: 0 <= i < |items| ==> Denotes(texts[i], items[i])
  }

  ghost predicate FieldTexts(texts: seq<string>, fields: seq<Field>)
    decreases fields, 0
  {
    |texts| == |fields| && forall i :: 0 <= i < |fields| ==> FieldText(texts[i], fields[i])
  }

  /** A key, a colon and a value. */
  ghost predicate FieldText(text: string, f: Field)
    decreases f, 0
  {
    exists key, value :: IsPair(text, key, value) && StringText(key, f.key) && Denotes(value, f.value)
  }

  predicate IsPair(text: string, key: string, value: string) { text == key + [':'] + value }

  // ------------------------------------------------------------------- what is written

  lemma {:induction false} EscapedSpells(c: char)
    ensures Spells(Escaped(c), c)
  {
    if c < ' ' && ShortEscape(c).None? {
      var n := c as int;
      assert HexValue(Hex(n / 16)) == n / 16 && HexValue(Hex(n % 16)) == n % 16;
    }
  }

  /** A character is escaped only when it has to be, by a letter where there is one. */
  lemma {:induction false} EscapesOnlyIfNeeded(c: char)
    ensures |Escaped(c)| == 1 <==> 0x20 <= c as int && c != '"' && c != '\\'
    ensures |Escaped(c)| == 2 <==> c == '"' || c == '\\' || c as int in {0x08, 0x09, 0x0A, 0x0C, 0x0D}
    ensures |Escaped(c)| in {1, 2, 6}
  {
  }

  /** The characters of a string as they are written. */
  function Body(s: string): string { if s == "" then "" else Escaped(s[0]) + Body(s[1..]) }

  lemma {:induction false} BodySpells(s: string)
    ensures SpellsAll(Body(s), s)
  {
    if s != "" {
      var n := |Escaped(s[0])|;
      EscapedSpells(s[0]);
      BodySpells(s[1..]);
      assert Body(s)[..n] == Escaped(s[0]) && Body(s)[n..] == Body(s[1..]);
    }
  }

  lemma {:induction false} CharsAreBody(s: string, rest: string)
    ensures WriteChars(s, rest) == Body(s) + ['"'] + rest
  {
    if s != "" {
      CharsAreBody(s[1..], rest);
      assert Escaped(s[0]) + (Body(s[1..]) + ['"'] + rest) == Body(s) + ['"'] + rest;
    }
  }

  function Quoted(s: string): string { ['"'] + Body(s) + ['"'] }

  lemma {:induction false} QuotedIsString(s: string)
    ensures StringText(Quoted(s), s)
  {
    BodySpells(s);
    assert Quoted(s)[1..|Quoted(s)| - 1] == Body(s);
  }

  /** What is written before `rest`. */
  function Text(v: Json): string
    decreases v
  {
    match v
    case JNull => "null"
    case JBool(b) => if b then "true" else "false"
    case JNum(number) => number
    case JStr(s) => Quoted(s)
    case JArr(items) => ['['] + Joined(Texts(items)) + [']']
    case JObj(fields) => ['{'] + Joined(Entries(fields)) + ['}']
  }

  function Texts(items: seq<Json>): (ts: seq<string>)
    ensures |ts| == |items|
    decreases items, 0
  {
    seq(|items|, i requires 0 <= i < |items| => Text(items[i]))
  }

  function Entries(fields: seq<Field>): (ts: seq<string>)
    ensures |ts| == |fields|
    decreases fields, 0
  {
    seq(|fields|, i requires 0 <= i < |fields| => Quoted(fields[i].key) + [':'] + Text(fields[i].value))
  }

  lemma {:induction false} TextsOfRest(items: seq<Json>)
    requires items != []
    ensures Texts(items) == [Text(items[0])] + Texts(items[1..])
  {
  }

  lemma {:induction false} EntriesOfRest(fields: seq<Field>)
    requires fields != []
    ensures Entries(fields) == [Quoted(fields[0].key) + [':'] + Text(fields[0].value)] + Entries(fields[1..])
  {
  }

  lemma {:induction false} Enclosed(open: string, text: string, close: string, rest: string)
    ensures open + (text + (close + rest)) == open + text + close + rest == open + (text + close + rest)
  {
  }

  lemma {:induction false} WriteIsText(v: Json, rest: string)
    ensures Write(v, rest) == Text(v) + rest
    decreases v
  {
    match v {
      case JStr(s) =>
        CharsAreBody(s, rest);
        Enclosed(['"'], Body(s), ['"'], rest);
      case JArr(items) =>
        ItemsAreTexts(items, rest);
        Enclosed(['['], Joined(Texts(items)), [']'], rest);
      case JObj(fields) =>
        FieldsAreEntries(fields, rest);
        Enclosed(['{'], Joined(Entries(fields)), ['}'], rest);
      case _ =>
    }
  }

  lemma {:induction false} ItemsAreTexts(items: seq<Json>, rest: string)
    ensures WriteItems(items, true, rest) == Joined(Texts(items)) + ([']'] + rest)
    decreases items, 1
  {
    if items != [] {
      var more := WriteItems(items[1..], false, rest);
      WriteIsText(items[0], more);
      MoreItems(items[1..], rest);
      TextsOfRest(items);
      JoinedRest(Text(items[0]), Texts(items[1..]), [']'] + rest);
    }
  }

  lemma {:induction false} MoreItems(items: seq<Json>, rest: string)
    ensures WriteItems(items, false, rest) ==
            if items == [] then [']'] + rest else [','] + Joined(Texts(items)) + ([']'] + rest)
    decreases items, 2
  {
    if items != [] {
      ItemsAreTexts(items, rest);
      assert WriteItems(items, false, rest) == [','] + WriteItems(items, true, rest);
    }
  }

  lemma {:induction false} PairIsWritten(key: string, value: string, more: string)
    ensures ['"'] + WriteChars(key, [':'] + (value + more)) == Quoted(key) + [':'] + value + more
  {
    CharsAreBody(key, [':'] + (value + more));
  }

  lemma {:induction false} FieldsAreEntries(fields: seq<Field>, rest: string)
    ensures WriteFields(fields, true, rest) == Joined(Entries(fields)) + (['}'] + rest)
    decreases fields, 1
  {
    if fields != [] {
      var more := WriteFields(fields[1..], false, rest);
      var entry := Quoted(fields[0].key) + [':'] + Text(fields[0].value);
      WriteIsText(fields[0].value, more);
      PairIsWritten(fields[0].key, Text(fields[0].value), more);
      MoreFields(fields[1..], rest);
      EntriesOfRest(fields);
      JoinedRest(entry, Entries(fields[1..]), ['}'] + rest);
    }
  }

  lemma {:induction false} JoinedRest(text: string, texts: seq<string>, rest: string)
    ensures Joined([text] + texts) + rest == text + if texts == [] then rest else [','] + Joined(texts) + rest
  {
    assert ([text] + texts)[1..] == texts;
    assert text + [','] + Joined(texts) + rest == text + ([','] + Joined(texts) + rest);
  }

  lemma {:induction false} MoreFields(fields: seq<Field>, rest: string)
    ensures WriteFields(fields, false, rest) ==
            if fields == [] then ['}'] + rest else [','] + Joined(Entries(fields)) + (['}'] + rest)
    decreases fields, 2
  {
    if fields != [] {
      FieldsAreEntries(fields, rest);
      assert WriteFields(fields, false, rest) == [','] + WriteFields(fields, true, rest);
    }
  }

  lemma {:induction false} TextDenotes(v: Json)
    ensures Denotes(Text(v), v)
    decreases v
  {
    match v {
      case JStr(s) => QuotedIsString(s);
      case JArr(items) =>
        forall i | 0 <= i < |items| ensures Denotes(Texts(items)[i], items[i]) { TextDenotes(items[i]); }
        assert ItemTexts(Texts(items), items);
      case JObj(fields) =>
        forall i | 0 <= i < |fields| ensures FieldText(Entries(fields)[i], fields[i]) {
          QuotedIsString(fields[i].key);
          TextDenotes(fields[i].value);
          assert IsPair(Entries(fields)[i], Quoted(fields[i].key), Text(fields[i].value));
        }
        assert FieldTexts(Entries(fields), fields);
      case _ =>
    }
  }

  /** What is hashed is JSON text of the canonical payload. */
  lemma {:induction false} StringifyDenotes(v: Json)
    ensures Denotes(Stringify(v), v)
  {
    WriteIsText(v, "");
    assert Text(v) + "" == Text(v);
    TextDenotes(v);
  }

  /** The number of section 6: a minus sign or none, an integer without leading zeros, and a fraction and an exponent
      or neither. */
  predicate NumberParts(minus: string, digits: string, fraction: string, exponent: string) {
    && (minus == [] || minus == ['-'])
    && digits != [] && AllDigits(digits) && (digits[0] == '0' ==> |digits| == 1)
    && (fraction == [] || (fraction[0] == '.' && |fraction| > 1 && AllDigits(fraction[1..])))
    && (exponent == [] || (|exponent| > 2 && exponent[0] == 'e' && (exponent[1] == '+' || exponent[1] == '-')
                           && AllDigits(exponent[2..])))
  }

  predicate AllDigits(s: string) { forall c :: c in s ==> '0' <= c <= '9' }

  /** Every such number is a value that payloads may hold. */
  lemma {:induction false} NumbersAreValues(minus: string, digits: string, fraction: string, exponent: string)
    requires NumberParts(minus, digits, fraction, exponent)
    ensures WellFormed(JNum(minus + digits + fraction + exponent))
  {
    var text := minus + digits + fraction + exponent;
    assert digits[0] in digits;
    assert text[0] == if minus == [] then digits[0] else '-';
    PartIsNumeric(fraction, 1);
    PartIsNumeric(exponent, 2);
    forall c | c in text ensures NumberChar(c) {
      assert c in minus || c in digits || c in fraction || c in exponent;
    }
  }

  lemma {:induction false} PartIsNumeric(part: string, n: nat)
    requires n <= |part| ==> AllDigits(part[n..])
    requires part != [] ==> n <= |part| && forall i :: 0 <= i < n ==> NumberChar(part[i])
    ensures forall c :: c in part ==> NumberChar(c)
  {
    forall c | c in part ensures NumberChar(c) {
      var i :| 0 <= i < |part| && part[i] == c;
      if i >= n {
        assert part[n..][i - n] == c;
        assert c in part[n..];
      }
    }
  }

  // ------------------------------------------------------------------ the order of keys

  predicate Digits(s: string) { forall i :: 0 <= i < |s| ==> '0' <= s[i] <= '9' }

  function Power(n: nat): nat { if n == 0 then 1 else 10 * Power(n - 1) }

  lemma {:induction false} NumberIsBelow(s: string)
    requires Digits(s)
    ensures Strings.NumberOf(s) < Power(|s|)
  {
    if s != "" { NumberIsBelow(s[..|s| - 1]); }
  }

  lemma {:induction false} NumberIsAbove(s: string)
    requires Digits(s) && s != "" && s[0] != '0'
    ensures Power(|s| - 1) <= Strings.NumberOf(s)
  {
    if |s| > 1 { NumberIsAbove(s[..|s| - 1]); }
  }

  /** Of two texts of the same length the last character decides last. */
  lemma {:induction false} LessByLast(s: string, t: string)
    requires |s| == |t| && s != ""
    ensures var n := |s| - 1;
            Strings.Less(s, t) <==> Strings.Less(s[..n], t[..n]) || (s[..n] == t[..n] && s[n] < t[n])
  {
    var n := |s| - 1;
    if n > 0 {
      LessByLast(s[1..], t[1..]);
      assert s[1..][..n - 1] == s[..n][1..] && t[1..][..n - 1] == t[..n][1..];
      assert s[..n] == [s[0]] + s[..n][1..] && t[..n] == [t[0]] + t[..n][1..];
    }
  }

  lemma {:induction false} DigitsOrder(s: string, t: string)
    requires Digits(s) && Digits(t) && |s| == |t|
    ensures Strings.Less(s, t) <==> Strings.NumberOf(s) < Strings.NumberOf(t)
    ensures s == t <==> Strings.NumberOf(s) == Strings.NumberOf(t)
  {
    if s != "" {
      var n := |s| - 1;
      DigitsOrder(s[..n], t[..n]);
      LessByLast(s, t);
      assert s == s[..n] + [s[n]] && t == t[..n] + [t[n]];
    }
  }

  lemma {:induction false} LongerIsGreater(s: string, t: string)
    requires Digits(s) && Digits(t) && |s| < |t| && t[0] != '0'
    ensures Strings.NumberOf(s) < Strings.NumberOf(t)
  {
    NumberIsBelow(s);
    NumberIsAbove(t);
    PowerGrows(|s|, |t| - 1);
  }

  lemma {:induction false} PowerGrows(m: nat, n: nat)
    requires m <= n
    ensures Power(m) <= Power(n)
  {
    if m < n { PowerGrows(m, n - 1); }
  }

  /** The text of a number as JavaScript prints it. */
  predicate PlainNumber(k: string) { k != "" && Digits(k) && (k[0] == '0' ==> |k| == 1) }

  lemma {:induction false} PlainNumberOrder(a: string, b: string)
    requires PlainNumber(a) && PlainNumber(b)
    ensures Digits(a) && Digits(b)
    ensures Strings.NumberOf(a) < Strings.NumberOf(b) <==> |a| < |b| || (|a| == |b| && Strings.Less(a, b))
  {
    if |a| < |b| { LongerIsGreater(a, b); }
    if |b| < |a| { LongerIsGreater(b, a); }
    if |a| == |b| { DigitsOrder(a, b); }
  }

  lemma {:induction false} OneMoreDigit(s: string, d: char)
    requires Digits(s) && '0' <= d <= '9'
    ensures Digits(s + [d]) && Strings.NumberOf(s + [d]) == 10 * Strings.NumberOf(s) + (d - '0') as nat
  {
    assert (s + [d])[..|s|] == s;
  }

  lemma {:induction false} FirstDigits(none: string)
    requires none == ""
    ensures var s := none + ['4'] + ['2'] + ['9'] + ['4'] + ['9']; Digits(s) && Strings.NumberOf(s) == 42949
  {
    OneMoreDigit(none, '4');
    OneMoreDigit(none + ['4'], '2');
    OneMoreDigit(none + ['4'] + ['2'], '9');
    OneMoreDigit(none + ['4'] + ['2'] + ['9'], '4');
    OneMoreDigit(none + ['4'] + ['2'] + ['9'] + ['4'], '9');
  }

  lemma {:induction false} LastDigits(s: string)
    requires Digits(s) && Strings.NumberOf(s) == 42949
    ensures var t := s + ['6'] + ['7'] + ['2'] + ['9'] + ['5']; Digits(t) && Strings.NumberOf(t) == 0xFFFF_FFFF
  {
    OneMoreDigit(s, '6');
    OneMoreDigit(s + ['6'], '7');
    OneMoreDigit(s + ['6'] + ['7'], '2');
    OneMoreDigit(s + ['6'] + ['7'] + ['2'], '9');
    OneMoreDigit(s + ['6'] + ['7'] + ['2'] + ['9'], '5');
  }

  lemma {:induction false} LastIndex(none: string) returns (limit: string)
    requires none == ""
    ensures limit == "4294967295" && Digits(limit) && Strings.NumberOf(limit) == 0xFFFF_FFFF
  {
    var half := none + ['4'] + ['2'] + ['9'] + ['4'] + ['9'];
    FirstDigits(none);
    LastDigits(half);
    limit := half + ['6'] + ['7'] + ['2'] + ['9'] + ['5'];
  }

  /** An array index is the text of a number below 2^32 - 1. */
  lemma {:induction false} IndexKeyIff(k: string)
    ensures IndexKey(k) <==> PlainNumber(k) && Strings.NumberOf(k) < 0xFFFF_FFFF
  {
    var limit := LastIndex("");
    assert k != "" && k[0] == '0' ==> (k == "0" <==> |k| == 1);
    if PlainNumber(k) { PlainNumberOrder(k, limit); }
  }

  /** The keys of a canonical object come with the array indices first, by number, and then the others as texts. */
  lemma {:induction false} KeyLessIff(a: string, b: string)
    ensures IndexKey(a) && IndexKey(b) ==> (KeyLess(a, b) <==> Strings.NumberOf(a) < Strings.NumberOf(b))
    ensures IndexKey(a) && !IndexKey(b) ==> KeyLess(a, b) && !KeyLess(b, a)
    ensures !IndexKey(a) && !IndexKey(b) ==> (KeyLess(a, b) <==> Strings.Less(a, b))
  {
    IndexKeyIff(a);
    IndexKeyIff(b);
    if IndexKey(a) && IndexKey(b) { PlainNumberOrder(a, b); }
  }

  // ------------------------------------------------------------------- refused payloads

  lemma {:induction false} ReservedKeysAre(key: string)
    ensures PayloadGraph.Reserved(key) <==> key in {"__proto__", "constructor", "prototype"}
  {
  }

  /** What is not a plain object is refused as such, and a plain object as empty exactly when it has no keys. */
  lemma {:induction false} PayloadRefusals(g: PayloadGraph.Heap, v: PayloadGraph.Value)
    requires PayloadGraph.ValidHeap(g) && PayloadGraph.ValidValue(g, v)
    ensures var r, isObject := PayloadGraph.CanonicalPayload(g, v), v.Ref? && g[v.id].Object?;
            && (!isObject ==> r.Err? && r.error == PayloadGraph.NotAnObject)
            && (isObject && g[v.id].entries == [] ==> r.Err? && r.error == PayloadGraph.EmptyPayload)
  {
    if v.Ref? && g[v.id].Object? && g[v.id].entries == [] {
      assert PayloadGraph.SortEntries(g[v.id].entries) == [];
      assert PayloadGraph.CanonicalizeEntries(g, [], [], {v.id}).value == JObj([]);
      assert {} + {v.id} == {v.id};
    }
  }

  /** An instance of a class is no payload and no part of one. */
  lemma {:induction false} ExoticsAreRefused(g: PayloadGraph.Heap, id: nat, path: set<nat>)
    requires PayloadGraph.ValidHeap(g) && path <= g.Keys
    ensures var h := g[id := PayloadGraph.Exotic];
            && PayloadGraph.ValidHeap(h) && path <= h.Keys
            && PayloadGraph.Canonicalize(h, PayloadGraph.Ref(id), path) == Err(PayloadGraph.NotJson)
  {
    var h := g[id := PayloadGraph.Exotic];
    forall i | i in h ensures PayloadGraph.ValidNode(h, h[i]) {
      if i != id { assert PayloadGraph.ValidNode(g, g[i]); }
    }
  }
}
