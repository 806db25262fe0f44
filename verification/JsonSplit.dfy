/**
 Cutting a stream of JSON objects, with noise between them, into an array: a scanner
 that keeps a quote flag, an escape flag, a brace count and the start of the object it
 is in, against the grammar of RFC 8259.
 */
module JsonSplit {

  // ----- the scanner

  /** A piece of the input, from `lo` up to but not including `hi`. */
  datatype Span = Span(lo: nat, hi: nat)

  datatype State = State(inQuotes: bool, escapeNext: bool, start: int, braces: int, spans: seq<Span>)

  const INITIAL: State := State(false, false, -1, 0, [])

  /** Character `c` at index `i`. */
  function Step(st: State, c: char, i: nat): State {
    if st.escapeNext then st.(escapeNext := false)
    else if c == '"' then st.(inQuotes := !st.inQuotes)
    else if c == '\\' then st.(escapeNext := true)
    else if c == '{' && !st.inQuotes then st.(start := if st.braces == 0 then i else st.start, braces := st.braces + 1)
    else if c == '}' && !st.inQuotes then
      if st.braces == 1 && st.start >= 0
      then st.(braces := 0, start := -1, spans := st.spans + [Span(st.start, i + 1)])
      else st.(braces := st.braces - 1)
    else st
  }

  /** The text `s`, which stands at index `base` of the input. */
  function Scan(st: State, s: string, base: nat): State
    decreases |s|
  {
    if s == [] then st else Scan(Step(st, s[0], base), s[1..], base + 1)
  }

  lemma {:induction false} ScanAppend(st: State, a: string, b: string, base: nat)
    ensures Scan(st, a + b, base) == Scan(Scan(st, a, base), b, base + |a|)
    decreases |a|
  {
    if a == [] {
      assert a + b == b;
    } else {
      assert (a + b)[0] == a[0] && (a + b)[1..] == a[1..] + b;
      ScanAppend(Step(st, a[0], base), a[1..], b, base + 1);
    }
  }

  lemma ScanSnoc(st: State, a: string, c: char, base: nat)
    ensures Scan(st, a + [c], base) == Step(Scan(st, a, base), c, base + |a|)
  {
    ScanAppend(st, a, [c], base);
    assert [c][1..] == [];
  }

  // ----- what it finds on any input

  predicate Inside(input: string, s: Span) {
    s.lo < s.hi <= |input| && input[s.lo] == '{' && input[s.hi - 1] == '}'
  }

  /** The spans lie in the input, each from a brace to a brace, one after the other. */
  predicate Pieces(input: string, spans: seq<Span>) {
    && (forall k | 0 <= k < |spans| :: Inside(input, spans[k]))
    && (forall j, k | 0 <= j < k < |spans| :: spans[j].hi <= spans[k].lo)
  }

  /** What holds after any number of characters. */
  predicate ScanOk(input: string, n: nat, st: State) {
    && n <= |input|
    && Pieces(input, st.spans)
    && (forall k | 0 <= k < |st.spans| :: st.spans[k].hi <= n)
    && st.start < n
    && (st.start >= 0 ==> input[st.start] == '{' && forall k | 0 <= k < |st.spans| :: st.spans[k].hi <= st.start)
    && (st.start < 0 ==> st.start == -1)
  }

  predicate Closes(st: State, c: char) {
    !st.escapeNext && c == '}' && !st.inQuotes && st.braces == 1 && st.start >= 0
  }

  lemma StepSpans(st: State, c: char, i: nat)
    ensures Step(st, c, i).spans == if Closes(st, c) then st.spans + [Span(st.start, i + 1)] else st.spans
  {
  }

  lemma PiecesSnoc(input: string, spans: seq<Span>, s: Span)
    requires Pieces(input, spans) && Inside(input, s) && forall k | 0 <= k < |spans| :: spans[k].hi <= s.lo
    ensures Pieces(input, spans + [s])
  {
    var all := spans + [s];
    forall k | 0 <= k < |all| ensures Inside(input, all[k]) {
      assert k < |spans| ==> all[k] == spans[k];
    }
    forall j, k | 0 <= j < k < |all| ensures all[j].hi <= all[k].lo {
      assert all[j] == spans[j];
    }
  }

  lemma ClosingOk(input: string, n: nat, st: State)
    requires n < |input| && ScanOk(input, n, st) && Closes(st, input[n])
    ensures ScanOk(input, n + 1, Step(st, input[n], n))
  {
    var s := Span(st.start, n + 1);
    assert Inside(input, s);
    PiecesSnoc(input, st.spans, s);
  }

  lemma StepOk(input: string, n: nat, st: State)
    requires n < |input| && ScanOk(input, n, st)
    ensures ScanOk(input, n + 1, Step(st, input[n], n))
  {
    if Closes(st, input[n]) {
      ClosingOk(input, n, st);
    } else {
      StepSpans(st, input[n], n);
    }
  }

  lemma {:induction false} PrefixOk(input: string, n: nat)
    requires n <= |input|
    ensures ScanOk(input, n, Scan(INITIAL, input[..n], 0))
    decreases n
  {
    if n > 0 {
      PrefixOk(input, n - 1);
      StepOk(input, n - 1, Scan(INITIAL, input[..n - 1], 0));
      ScanSnoc(INITIAL, input[..n - 1], input[n - 1], 0);
      assert input[..n - 1] + [input[n - 1]] == input[..n];
    }
  }

  /** On any input whatever, the pieces are disjoint, in order, and run from { to }. */
  lemma PiecesOfAnyInput(input: string)
    ensures Pieces(input, Scan(INITIAL, input, 0).spans)
  {
    PrefixOk(input, |input|);
    assert input[..|input|] == input;
  }

  // ----- the program's loop

  function Texts(input: string, spans: seq<Span>): (t: seq<string>)
    requires forall k | 0 <= k < |spans| :: Inside(input, spans[k])
    ensures |t| == |spans|
  {
    if spans == [] then []
    else
      var last := spans[|spans| - 1];
      assert Inside(input, last);
      Texts(input, spans[..|spans| - 1]) + [input[last.lo..last.hi]]
  }

  function Join(parts: seq<string>, sep: string): string {
    if parts == [] then []
    else if |parts| == 1 then parts[0]
    else parts[0] + sep + Join(parts[1..], sep)
  }

  /** The pieces the scanner cuts out, as texts. */
  function Split(input: string): seq<string> {
    PiecesOfAnyInput(input);
    Texts(input, Scan(INITIAL, input, 0).spans)
  }

  lemma TextsSnoc(input: string, spans: seq<Span>, s: Span)
    requires Pieces(input, spans + [s]) && Pieces(input, spans) && Inside(input, s)
    ensures Texts(input, spans + [s]) == Texts(input, spans) + [input[s.lo..s.hi]]
  {
    assert (spans + [s])[..|spans|] == spans;
  }

  /** One character adds a text only where it closes an object. */
  lemma StepTexts(input: string, st: State, c: char, i: nat)
    requires i < |input| && Pieces(input, st.spans) && Pieces(input, Step(st, c, i).spans)
    ensures Closes(st, c) ==> st.start <= i
    ensures Texts(input, Step(st, c, i).spans)
            == Texts(input, st.spans) + if Closes(st, c) then [input[st.start..i + 1]] else []
  {
    StepSpans(st, c, i);
    if Closes(st, c) {
      var s := Span(st.start, i + 1);
      assert Inside(input, (st.spans + [s])[|st.spans|]);
      TextsSnoc(input, st.spans, s);
    }
  }

  /** The scan so far, with what it has cut. */
  ghost predicate SoFar(input: string, i: nat, st: State, objects: seq<string>) {
    i <= |input| && st == Scan(INITIAL, input[..i], 0) && ScanOk(input, i, st) && objects == Texts(input, st.spans)
  }

  lemma ScannedNext(input: string, i: nat, st: State)
    requires i < |input| && st == Scan(INITIAL, input[..i], 0) && ScanOk(input, i, st)
    ensures Step(st, input[i], i) == Scan(INITIAL, input[..i + 1], 0) && ScanOk(input, i + 1, Step(st, input[i], i))
  {
    StepOk(input, i, st);
    ScanSnoc(INITIAL, input[..i], input[i], 0);
    assert input[..i] + [input[i]] == input[..i + 1];
  }

  lemma SoFarNext(input: string, i: nat, st: State, objects: seq<string>)
    requires i < |input| && SoFar(input, i, st, objects)
    ensures Closes(st, input[i]) ==> 0 <= st.start <= i
    ensures SoFar(input, i + 1, Step(st, input[i], i),
                  if Closes(st, input[i]) then objects + [input[st.start..i + 1]] else objects)
  {
    ScannedNext(input, i, st);
    StepTexts(input, st, input[i], i);
    assert objects + [] == objects;
  }

  lemma SoFarStart(input: string)
    ensures SoFar(input, 0, INITIAL, [])
  {
    PrefixOk(input, 0);
    assert input[..0] == [];
  }

  lemma SoFarEnd(input: string, st: State, objects: seq<string>)
    requires SoFar(input, |input|, st, objects)
    ensures objects == Split(input)
  {
    assert input[..|input|] == input;
  }

  /** Cutting any input: the pieces stand in the result one after the other, within brackets, with one
      comma between two. And well-formed objects in harmless noise come out as the JSON array of
      exactly those objects, in order. */
  method SplitJSONObjects(input: string) returns (out: string)
    ensures out == "[" + Join(Split(input), ",") + "]"
    ensures Bracketed(out, Split(input))
    ensures OutputsArrays(input, out)
  {
    var objects: seq<string> := [];
    var inQuotes, escapeNext, start, braceCount := false, false, -1, 0;
    ghost var st := INITIAL;
    var i := 0;
    SoFarStart(input);
    while i < |input|
      invariant SoFar(input, i, st, objects)
      invariant st.inQuotes == inQuotes && st.escapeNext == escapeNext && st.start == start && st.braces == braceCount
    {
      var c := input[i];
      SoFarNext(input, i, st, objects);
      st := Step(st, c, i);
      if escapeNext {
        escapeNext := false;
      } else if c == '"' {
        inQuotes := !inQuotes;
      } else if c == '\\' {
        escapeNext := true;
      } else if c == '{' {
        if !inQuotes {
          if braceCount == 0 {
            start := i;
          }
          braceCount := braceCount + 1;
        }
      } else if c == '}' {
        if !inQuotes {
          braceCount := braceCount - 1;
          if braceCount == 0 && start != -1 {
            objects := objects + [input[start..i + 1]];
            start := -1;
          }
        }
      }
      i := i + 1;
    }
    SoFarEnd(input, st, objects);
    out := "[" + Join(objects, ",") + "]";
    OutputLaid(objects);
    OutputIsArray(input, out);
  }

  // ----- the array it builds

  /** These parts stand in `t` from `lo` to `hi`, at these places, with one comma between two. */
  predicate Laid(t: string, parts: seq<string>, at: seq<nat>, lo: nat, hi: nat) {
    && |at| == |parts| && lo <= hi <= |t|
    && (if parts == [] then lo == hi else at[0] == lo)
    && forall k | 0 <= k < |parts| :: LaidAt(t, parts, at, k, hi)
  }

  predicate LaidAt(t: string, parts: seq<string>, at: seq<nat>, k: nat, hi: nat)
    requires |at| == |parts| && k < |parts| && hi <= |t|
  {
    var end := at[k] + |parts[k]|;
    && end <= hi && t[at[k]..end] == parts[k]
    && (if k + 1 < |parts| then end < hi && t[end] == ',' && at[k + 1] == end + 1 else end == hi)
  }

  /** Brackets, and within them the parts. */
  ghost predicate Bracketed(out: string, parts: seq<string>) {
    && |out| >= 2 && out[0] == '[' && out[|out| - 1] == ']'
    && var hi := |out| - 1; exists at :: Laid(out, parts, at, 1, hi)
  }

  function Shifted(at: seq<nat>, off: nat): (r: seq<nat>)
    ensures |r| == |at| && forall k | 0 <= k < |at| :: r[k] == at[k] + off
  {
    seq(|at|, k requires 0 <= k < |at| => at[k] + off)
  }

  /** The same text, further on in a longer one. */
  lemma LaidShifted(t: string, parts: seq<string>, at: seq<nat>, lo: nat, hi: nat, front: string, back: string)
    requires Laid(t, parts, at, lo, hi)
    ensures Laid(front + t + back, parts, Shifted(at, |front|), lo + |front|, hi + |front|)
  {
    var u, bt, hi' := front + t + back, Shifted(at, |front|), hi + |front|;
    forall k | 0 <= k < |parts| ensures LaidAt(u, parts, bt, k, hi') {
      assert LaidAt(t, parts, at, k, hi);
      var end := at[k] + |parts[k]|;
      assert u[bt[k]..bt[k] + |parts[k]|] == t[at[k]..end];
    }
  }

  /** One more part in front. */
  lemma LaidFront(part: string, t: string, parts: seq<string>, at: seq<nat>)
    requires parts != [] && Laid(t, parts, at, 0, |t|)
    ensures Laid(part + "," + t, [part] + parts, [0] + Shifted(at, |part| + 1), 0, |part + "," + t|)
  {
    var all, u, bt := [part] + parts, part + "," + t, Shifted(at, |part| + 1);
    LaidShifted(t, parts, at, 0, |t|, part + ",", "");
    assert (part + ",") + t + "" == u;
    assert Laid(u, parts, bt, |part| + 1, |u|);
    forall k | 0 <= k < |all| ensures LaidAt(u, all, [0] + bt, k, |u|) {
      if k == 0 {
        assert u[0..|part|] == part && u[|part|] == ',';
      } else {
        assert LaidAt(u, parts, bt, k - 1, |u|);
      }
    }
  }

  lemma {:induction false} JoinLaid(parts: seq<string>) returns (at: seq<nat>)
    ensures Laid(Join(parts, ","), parts, at, 0, |Join(parts, ",")|)
    decreases |parts|
  {
    if parts == [] {
      at := [];
    } else if |parts| == 1 {
      at := [0];
      assert LaidAt(parts[0], parts, at, 0, |parts[0]|);
    } else {
      var rest := JoinLaid(parts[1..]);
      LaidFront(parts[0], Join(parts[1..], ","), parts[1..], rest);
      at := [0] + Shifted(rest, |parts[0]| + 1);
      assert [parts[0]] + parts[1..] == parts;
    }
  }

  lemma OutputLaid(parts: seq<string>)
    ensures Bracketed("[" + Join(parts, ",") + "]", parts)
  {
    var inner := JoinLaid(parts);
    LaidShifted(Join(parts, ","), parts, inner, 0, |Join(parts, ",")|, "[", "]");
    var out := "[" + Join(parts, ",") + "]";
    var hi := |out| - 1;
    assert Laid(out, parts, Shifted(inner, 1), 1, hi);
  }

  // ----- JSON texts

  /** One unit of a string, section 7 of RFC 8259: a plain character, an escape, or a code point. */
  datatype Item = Raw(c: char) | Escaped(c: char) | CodePoint(hex: string)

  datatype Value =
    | Str(items: seq<Item>)
    | Scalar(text: string)
    | Arr(space: string, elems: seq<Elem>)
    | Obj(space: string, members: seq<Member>)

  /** A value with the white space around it. */
  datatype Elem = Elem(before: string, v: Value, after: string)

  datatype Member = Member(before: string, key: seq<Item>, afterKey: string, elem: Elem)

  predicate Special(c: char) {
    c == '"' || c == '\\' || c == '{' || c == '}'
  }

  /** Text without quotes, backslashes and braces. */
  predicate Quiet(s: string) {
    forall i | 0 <= i < |s| :: !Special(s[i])
  }

  predicate Blank(s: string) {
    forall i | 0 <= i < |s| :: s[i] == ' ' || s[i] == '\t' || s[i] == '\n' || s[i] == '\r'
  }

  predicate Hex(c: char) {
    '0' <= c <= '9' || 'a' <= c <= 'f' || 'A' <= c <= 'F'
  }

  predicate ItemOk(it: Item) {
    match it
    case Raw(c) => c != '"' && c != '\\' && c >= ' '
    case Escaped(c) => c in {'"', '\\', '/', 'b', 'f', 'n', 'r', 't'}
    case CodePoint(hex) => |hex| == 4 && forall i | 0 <= i < 4 :: Hex(hex[i])
  }

  predicate ItemsOk(items: seq<Item>) {
    forall i | 0 <= i < |items| :: ItemOk(items[i])
  }

  /** A literal name or a number; every character a number can hold is allowed anywhere in it. */
  predicate ScalarOk(s: string) {
    || s == "true" || s == "false" || s == "null"
    || (s != [] && forall i | 0 <= i < |s| ::
          '0' <= s[i] <= '9' || s[i] == '-' || s[i] == '+' || s[i] == '.' || s[i] == 'e' || s[i] == 'E')
  }

  predicate WellFormed(v: Value)
    decreases v, 0
  {
    match v
    case Str(items) => ItemsOk(items)
    case Scalar(text) => ScalarOk(text)
    case Arr(space, elems) => Blank(space) && forall i | 0 <= i < |elems| :: ElemOk(elems[i])
    case Obj(space, members) => Blank(space) && forall i | 0 <= i < |members| :: MemberOk(members[i])
  }

  predicate ElemOk(e: Elem)
    decreases e, 1
  {
    Blank(e.before) && Blank(e.after) && WellFormed(e.v)
  }

  predicate MemberOk(m: Member)
    decreases m, 2
  {
    Blank(m.before) && ItemsOk(m.key) && Blank(m.afterKey) && ElemOk(m.elem)
  }

  function ItemText(it: Item): string {
    match it
    case Raw(c) => [c]
    case Escaped(c) => ['\\', c]
    case CodePoint(hex) => ['\\', 'u'] + hex
  }

  function ItemsText(items: seq<Item>): string {
    if items == [] then [] else ItemText(items[0]) + ItemsText(items[1..])
  }

  function StringText(items: seq<Item>): string {
    ['"'] + ItemsText(items) + ['"']
  }

  function ValueText(v: Value): string
    decreases v, 0
  {
    match v
    case Str(items) => StringText(items)
    case Scalar(text) => text
    case Arr(space, elems) => "[" + (space + ElemsText(elems)) + "]"
    case Obj(space, members) => ['{'] + (space + MembersText(members)) + ['}']
  }

  function ElemText(e: Elem): string
    decreases e, 1
  {
    e.before + (ValueText(e.v) + e.after)
  }

  function ElemsText(elems: seq<Elem>): string
    decreases elems, 2
  {
    if elems == [] then []
    else ElemText(elems[0]) + ((if |elems| > 1 then "," else "") + ElemsText(elems[1..]))
  }

  function MemberText(m: Member): string
    decreases m, 2
  {
    m.before + (StringText(m.key) + (m.afterKey + (":" + ElemText(m.elem))))
  }

  function MembersText(members: seq<Member>): string
    decreases members, 3
  {
    if members == [] then []
    else MemberText(members[0]) + ((if |members| > 1 then "," else "") + MembersText(members[1..]))
  }

  // ----- scanning JSON

  /** Between two tokens, outside any string. */
  predicate Neutral(st: State) {
    !st.inQuotes && !st.escapeNext
  }

  lemma {:induction false} QuietScan(st: State, s: string, base: nat)
    requires Quiet(s) && !st.escapeNext
    ensures Scan(st, s, base) == st
    decreases |s|
  {
    if s != [] {
      assert !Special(s[0]);
      QuietScan(st, s[1..], base + 1);
    }
  }

  lemma BlankIsQuiet(s: string)
    requires Blank(s)
    ensures Quiet(s)
  {
  }

  lemma ScalarIsQuiet(s: string)
    requires ScalarOk(s)
    ensures Quiet(s)
  {
    if s == "true" {
      assert s[0] == 't' && s[1] == 'r' && s[2] == 'u' && s[3] == 'e';
    } else if s == "false" {
      assert s[0] == 'f' && s[1] == 'a' && s[2] == 'l' && s[3] == 's' && s[4] == 'e';
    } else if s == "null" {
      assert s[0] == 'n' && s[1] == 'u' && s[2] == 'l' && s[3] == 'l';
    }
  }

  lemma ItemScan(st: State, it: Item, base: nat)
    requires ItemOk(it) && st.inQuotes && !st.escapeNext
    ensures Scan(st, ItemText(it), base) == st
  {
    match it {
      case Raw(c) => ScanSnoc(st, [], c, base); assert [] + [c] == [c];
      case Escaped(c) => TwoScan(st, '\\', c, base);
      case CodePoint(hex) =>
        TwoScan(st, '\\', 'u', base);
        ScanAppend(st, ['\\', 'u'], hex, base);
        QuietScan(st, hex, base + 2);
    }
  }

  lemma OneScan(st: State, a: char, base: nat)
    ensures Scan(st, [a], base) == Step(st, a, base)
  {
    assert [a][1..] == [];
  }

  lemma TwoScan(st: State, a: char, b: char, base: nat)
    ensures Scan(st, [a, b], base) == Step(Step(st, a, base), b, base + 1)
  {
    OneScan(st, a, base);
    OneScan(Step(st, a, base), b, base + 1);
    ScanAppend(st, [a], [b], base);
    assert [a] + [b] == [a, b];
  }

  lemma {:induction false} ItemsScan(st: State, items: seq<Item>, base: nat)
    requires ItemsOk(items) && st.inQuotes && !st.escapeNext
    ensures Scan(st, ItemsText(items), base) == st
    decreases |items|
  {
    if items != [] {
      ItemScan(st, items[0], base);
      ScanAppend(st, ItemText(items[0]), ItemsText(items[1..]), base);
      ItemsScan(st, items[1..], base + |ItemText(items[0])|);
    }
  }

  /** A string, with whatever braces and quotes it holds, leaves the scanner as it was. */
  lemma StringScan(st: State, items: seq<Item>, base: nat)
    requires ItemsOk(items) && Neutral(st)
    ensures Scan(st, StringText(items), base) == st
  {
    var inside := st.(inQuotes := true);
    var body := ItemsText(items);
    ScanSnoc(st, [], '"', base);
    assert [] + ['"'] == ['"'];
    assert Scan(st, ['"'], base) == inside;
    ScanAppend(st, ['"'], body, base);
    ItemsScan(inside, items, base + 1);
    ScanSnoc(st, ['"'] + body, '"', base);
  }

  lemma SpacedScan(st: State, a: string, b: string, base: nat)
    requires Blank(a) && Neutral(st)
    ensures Scan(st, a + b, base) == Scan(st, b, base + |a|)
  {
    BlankIsQuiet(a);
    ScanAppend(st, a, b, base);
    QuietScan(st, a, base);
  }

  /** Two texts that each leave the scanner as it was leave it so together. */
  lemma BothScan(st: State, a: string, b: string, base: nat)
    requires Scan(st, a, base) == st && Scan(st, b, base + |a|) == st
    ensures Scan(st, a + b, base) == st
  {
    ScanAppend(st, a, b, base);
  }

  /** Inside an object, any well-formed value leaves the scanner as it was. */
  lemma {:induction false} ValueScan(st: State, v: Value, base: nat)
    requires WellFormed(v) && Neutral(st) && st.braces >= 1
    ensures Scan(st, ValueText(v), base) == st
    decreases v, 0
  {
    match v {
      case Str(items) => StringScan(st, items, base);
      case Scalar(text) => ScalarIsQuiet(text); QuietScan(st, text, base);
      case Arr(space, elems) =>
        var inner := space + ElemsText(elems);
        ElemsScan(st, elems, base + 1 + |space|);
        SpacedScan(st, space, ElemsText(elems), base + 1);
        QuietScan(st, "[", base);
        BothScan(st, "[", inner, base);
        QuietScan(st, "]", base + |"[" + inner|);
        BothScan(st, "[" + inner, "]", base);
      case Obj(space, members) =>
        var deeper := st.(braces := st.braces + 1);
        var inner := space + MembersText(members);
        MembersScan(deeper, members, base + 1 + |space|);
        SpacedScan(deeper, space, MembersText(members), base + 1);
        BracedScan(st, deeper, inner, base);
    }
  }

  /** A pair of braces around a text that the scanner passes unchanged. */
  lemma BracedScan(st: State, open: State, inner: string, base: nat)
    requires open == Step(st, '{', base) && Scan(open, inner, base + 1) == open
    ensures Scan(st, ['{'] + inner + ['}'], base) == Step(open, '}', base + 1 + |inner|)
  {
    OneScan(st, '{', base);
    ScanAppend(st, ['{'], inner, base);
    ScanSnoc(st, ['{'] + inner, '}', base);
  }

  lemma ElemScan(st: State, e: Elem, base: nat)
    requires ElemOk(e) && Neutral(st) && st.braces >= 1
    ensures Scan(st, ElemText(e), base) == st
    decreases e, 1
  {
    var text := ValueText(e.v);
    ValueScan(st, e.v, base + |e.before|);
    BlankIsQuiet(e.after);
    QuietScan(st, e.after, base + |e.before| + |text|);
    BothScan(st, text, e.after, base + |e.before|);
    SpacedScan(st, e.before, text + e.after, base);
  }

  lemma CommaScan(st: State, more: bool, base: nat)
    requires Neutral(st)
    ensures Scan(st, if more then "," else "", base) == st
  {
    QuietScan(st, if more then "," else "", base);
  }

  lemma {:induction false} ElemsScan(st: State, elems: seq<Elem>, base: nat)
    requires (forall i | 0 <= i < |elems| :: ElemOk(elems[i])) && Neutral(st) && st.braces >= 1
    ensures Scan(st, ElemsText(elems), base) == st
    decreases elems, 2
  {
    if elems != [] {
      var head, comma, rest := ElemText(elems[0]), if |elems| > 1 then "," else "", ElemsText(elems[1..]);
      ElemScan(st, elems[0], base);
      CommaScan(st, |elems| > 1, base + |head|);
      ElemsScan(st, elems[1..], base + |head| + |comma|);
      BothScan(st, comma, rest, base + |head|);
      BothScan(st, head, comma + rest, base);
    }
  }

  lemma MemberScan(st: State, m: Member, base: nat)
    requires MemberOk(m) && Neutral(st) && st.braces >= 1
    ensures Scan(st, MemberText(m), base) == st
    decreases m, 2
  {
    var key, elem := StringText(m.key), ElemText(m.elem);
    var b1 := base + |m.before|;
    var b2 := b1 + |key|;
    var b3 := b2 + |m.afterKey|;
    ElemScan(st, m.elem, b3 + 1);
    QuietScan(st, ":", b3);
    BothScan(st, ":", elem, b3);
    SpacedScan(st, m.afterKey, ":" + elem, b2);
    StringScan(st, m.key, b1);
    BothScan(st, key, m.afterKey + (":" + elem), b1);
    SpacedScan(st, m.before, key + (m.afterKey + (":" + elem)), base);
  }

  lemma {:induction false} MembersScan(st: State, members: seq<Member>, base: nat)
    requires (forall i | 0 <= i < |members| :: MemberOk(members[i])) && Neutral(st) && st.braces >= 1
    ensures Scan(st, MembersText(members), base) == st
    decreases members, 3
  {
    if members != [] {
      var head, comma, rest := MemberText(members[0]), if |members| > 1 then "," else "", MembersText(members[1..]);
      MemberScan(st, members[0], base);
      CommaScan(st, |members| > 1, base + |head|);
      MembersScan(st, members[1..], base + |head| + |comma|);
      BothScan(st, comma, rest, base + |head|);
      BothScan(st, head, comma + rest, base);
    }
  }

  // ----- the round trip

  /** Between two objects. */
  predicate Idle(st: State) {
    Neutral(st) && st.braces == 0 && st.start == -1
  }

  /** Scanning an object adds exactly its own span. */
  lemma ObjectScan(st: State, v: Value, base: nat)
    requires v.Obj? && WellFormed(v) && Idle(st)
    ensures Scan(st, ValueText(v), base) == st.(spans := st.spans + [Span(base, base + |ValueText(v)|)])
  {
    var open := Step(st, '{', base);
    var inner := v.space + MembersText(v.members);
    MembersScan(open, v.members, base + 1 + |v.space|);
    SpacedScan(open, v.space, MembersText(v.members), base + 1);
    BracedScan(st, open, inner, base);
  }

  // ----- noise

  /** These spans are some earlier ones and then those, further on. */
  predicate Continues(spans: seq<Span>, before: seq<Span>, those: seq<Span>, off: nat) {
    && |spans| == |before| + |those|
    && (forall k | 0 <= k < |before| :: spans[k] == before[k])
    && (forall k | 0 <= k < |those| :: spans[|before| + k] == Span(those[k].lo + off, those[k].hi + off))
  }

  /** The state of a scan that began further on and with some spans already. */
  predicate Follows(st': State, st: State, before: seq<Span>, off: nat) {
    && st'.inQuotes == st.inQuotes && st'.escapeNext == st.escapeNext && st'.braces == st.braces
    && st.start >= -1 && st'.start == (if st.start < 0 then -1 else st.start + off)
    && Continues(st'.spans, before, st.spans, off)
  }

  lemma ContinuesSnoc(spans: seq<Span>, before: seq<Span>, those: seq<Span>, off: nat, s: Span)
    requires Continues(spans, before, those, off)
    ensures Continues(spans + [Span(s.lo + off, s.hi + off)], before, those + [s], off)
  {
  }

  lemma StepFollows(st': State, st: State, before: seq<Span>, off: nat, c: char, i: nat)
    requires Follows(st', st, before, off)
    ensures Follows(Step(st', c, i + off), Step(st, c, i), before, off)
  {
    if Closes(st, c) {
      ContinuesSnoc(st'.spans, before, st.spans, off, Span(st.start, i + 1));
    }
  }

  lemma {:induction false} ScanFollows(st': State, st: State, before: seq<Span>, off: nat, s: string, base: nat)
    requires Follows(st', st, before, off)
    ensures Follows(Scan(st', s, base + off), Scan(st, s, base), before, off)
    decreases |s|
  {
    if s != [] {
      StepFollows(st', st, before, off, s[0], base);
      ScanFollows(Step(st', s[0], base + off), Step(st, s[0], base), before, off, s[1..], base + 1);
    }
  }

  /** Between objects a text is scanned as at the very beginning. */
  lemma IdleScan(st: State, s: string, base: nat)
    requires Idle(st)
    ensures Follows(Scan(st, s, base), Scan(INITIAL, s, 0), st.spans, base)
  {
    ScanFollows(st, INITIAL, st.spans, base, s, 0);
  }

  /** Noise that leaves the scanner between objects, without cutting a piece of its own. */
  predicate Harmless(noise: string) {
    Scan(INITIAL, noise, 0) == INITIAL
  }

  /** Following the initial state and standing still. */
  lemma FollowsStill(st': State, x: State, st: State, off: nat)
    requires Idle(st) && Follows(st', x, st.spans, off)
    ensures st' == st <==> x == INITIAL
  {
    if x.spans == [] {
      assert st'.spans == st.spans;
    }
  }

  lemma HarmlessScan(st: State, noise: string, base: nat)
    requires Idle(st)
    ensures Scan(st, noise, base) == st <==> Harmless(noise)
  {
    IdleScan(st, noise, base);
    FollowsStill(Scan(st, noise, base), Scan(INITIAL, noise, 0), st, base);
  }

  lemma QuietIsHarmless(noise: string)
    requires Quiet(noise)
    ensures Harmless(noise)
  {
    QuietScan(INITIAL, noise, 0);
  }

  /** Noise, then an object. */
  datatype Chunk = Chunk(noise: string, obj: Value)

  predicate ObjectOk(ch: Chunk) {
    ch.obj.Obj? && WellFormed(ch.obj)
  }

  predicate ChunkOk(ch: Chunk) {
    Harmless(ch.noise) && ObjectOk(ch)
  }

  function ChunkText(ch: Chunk): string {
    ch.noise + ValueText(ch.obj)
  }

  function ChunksText(chunks: seq<Chunk>): string {
    if chunks == [] then [] else ChunksText(chunks[..|chunks| - 1]) + ChunkText(chunks[|chunks| - 1])
  }

  function Objects(chunks: seq<Chunk>): seq<string> {
    if chunks == [] then [] else Objects(chunks[..|chunks| - 1]) + [ValueText(chunks[|chunks| - 1].obj)]
  }

  lemma ChunkScan(st: State, ch: Chunk, base: nat)
    requires ChunkOk(ch) && Idle(st)
    ensures var at := base + |ch.noise|;
            Scan(st, ChunkText(ch), base) == st.(spans := st.spans + [Span(at, at + |ValueText(ch.obj)|)])
  {
    ScanAppend(st, ch.noise, ValueText(ch.obj), base);
    HarmlessScan(st, ch.noise, base);
    ObjectScan(st, ch.obj, base + |ch.noise|);
  }

  /** The spans cut out texts that are the objects. */
  ghost predicate Cuts(input: string, spans: seq<Span>, objects: seq<string>) {
    Pieces(input, spans) && Texts(input, spans) == objects
  }

  lemma MiddlePart(a: string, b: string, c: string, d: string)
    ensures var input := a + (b + c) + d; |a| + |b| + |c| <= |input| && input[|a| + |b|..|a| + |b| + |c|] == c
  {
  }

  /** The spans of the objects in a text that may go on after them. */
  lemma {:induction false} ChunksScan(chunks: seq<Chunk>, tail: string)
    requires forall i | 0 <= i < |chunks| :: ChunkOk(chunks[i])
    ensures var st := Scan(INITIAL, ChunksText(chunks), 0);
            Idle(st) && Cuts(ChunksText(chunks) + tail, st.spans, Objects(chunks))
    decreases |chunks|
  {
    if chunks != [] {
      var n := |chunks| - 1;
      var front, last := ChunksText(chunks[..n]), chunks[n];
      ChunksScan(chunks[..n], ChunkText(last) + tail);
      assert front + (ChunkText(last) + tail) == front + ChunkText(last) + tail;
      OneMoreChunk(front, last, tail, Objects(chunks[..n]));
    }
  }

  function SpanOf(at: nat, ch: Chunk): Span {
    Span(at + |ch.noise|, at + |ch.noise| + |ValueText(ch.obj)|)
  }

  lemma ChunkAfter(st: State, before: State, front: string, last: Chunk)
    requires ChunkOk(last) && before == Scan(st, front, 0) && Idle(before)
    ensures Scan(st, front + ChunkText(last), 0) == before.(spans := before.spans + [SpanOf(|front|, last)])
  {
    ScanAppend(st, front, ChunkText(last), 0);
    ChunkScan(before, last, |front|);
  }

  lemma CutsChunk(front: string, last: Chunk, tail: string, spans: seq<Span>, objects: seq<string>)
    requires var input := front + ChunkText(last) + tail;
             Cuts(input, spans, objects) && Pieces(input, spans + [SpanOf(|front|, last)])
    ensures Cuts(front + ChunkText(last) + tail, spans + [SpanOf(|front|, last)], objects + [ValueText(last.obj)])
  {
    var input, s := front + ChunkText(last) + tail, SpanOf(|front|, last);
    assert Inside(input, (spans + [s])[|spans|]);
    MiddlePart(front, last.noise, ValueText(last.obj), tail);
    TextsSnoc(input, spans, s);
  }

  lemma OneMoreChunk(front: string, last: Chunk, tail: string, objects: seq<string>)
    requires ChunkOk(last) && Idle(Scan(INITIAL, front, 0))
    requires Cuts(front + ChunkText(last) + tail, Scan(INITIAL, front, 0).spans, objects)
    ensures var st := Scan(INITIAL, front + ChunkText(last), 0);
            Idle(st) && Cuts(front + ChunkText(last) + tail, st.spans, objects + [ValueText(last.obj)])
  {
    ChunkAfter(INITIAL, Scan(INITIAL, front, 0), front, last);
    PiecesOfPrefix(front + ChunkText(last), tail);
    CutsChunk(front, last, tail, Scan(INITIAL, front, 0).spans, objects);
  }

  lemma PiecesOfPrefix(a: string, b: string)
    ensures Pieces(a + b, Scan(INITIAL, a, 0).spans)
  {
    PrefixOk(a + b, |a|);
    assert (a + b)[..|a|] == a;
  }

  lemma ContinuesNone(spans: seq<Span>, before: seq<Span>, those: seq<Span>, off: nat)
    requires Continues(spans, before, those, off)
    ensures spans == before <==> those == []
  {
  }

  /** What comes after the objects adds no piece exactly when it has none of its own. */
  lemma TailSpans(text: string, tail: string)
    requires Idle(Scan(INITIAL, text, 0))
    ensures Scan(INITIAL, text + tail, 0).spans == Scan(INITIAL, text, 0).spans <==> Scan(INITIAL, tail, 0).spans == []
  {
    var st := Scan(INITIAL, text, 0);
    ScanAppend(INITIAL, text, tail, 0);
    IdleScan(st, tail, |text|);
    ContinuesNone(Scan(st, tail, |text|).spans, st.spans, Scan(INITIAL, tail, 0).spans, |text|);
  }

  /** Any list of well-formed objects, with noise free of quotes, backslashes and braces before,
      between and after them, is cut into exactly those objects, in order. */
  lemma SplitFindsTheObjects(chunks: seq<Chunk>, tail: string)
    requires (forall i | 0 <= i < |chunks| :: Quiet(chunks[i].noise) && ObjectOk(chunks[i])) && Quiet(tail)
    ensures Split(ChunksText(chunks) + tail) == Objects(chunks)
  {
    forall i | 0 <= i < |chunks| ensures ChunkOk(chunks[i]) {
      QuietIsHarmless(chunks[i].noise);
    }
    QuietIsHarmless(tail);
    HarmlessSplit(chunks, tail);
  }

  /** And so is one with any noise that the scanner passes over. */
  lemma HarmlessSplit(chunks: seq<Chunk>, tail: string)
    requires (forall i | 0 <= i < |chunks| :: ChunkOk(chunks[i])) && Scan(INITIAL, tail, 0).spans == []
    ensures Split(ChunksText(chunks) + tail) == Objects(chunks)
  {
    ChunksScan(chunks, tail);
    TailSpans(ChunksText(chunks), tail);
  }

  // ----- the array of the objects

  function ElemsOf(vs: seq<Value>): (r: seq<Elem>)
    ensures |r| == |vs| && forall i | 0 <= i < |vs| :: r[i] == Elem("", vs[i], "")
  {
    seq(|vs|, i requires 0 <= i < |vs| => Elem("", vs[i], ""))
  }

  function TextsOf(vs: seq<Value>): (r: seq<string>)
    ensures |r| == |vs| && forall i | 0 <= i < |vs| :: r[i] == ValueText(vs[i])
  {
    seq(|vs|, i requires 0 <= i < |vs| => ValueText(vs[i]))
  }

  function ObjectsIn(chunks: seq<Chunk>): (r: seq<Value>)
    ensures |r| == |chunks| && forall i | 0 <= i < |chunks| :: r[i] == chunks[i].obj
  {
    seq(|chunks|, i requires 0 <= i < |chunks| => chunks[i].obj)
  }

  /** The JSON array of exactly these objects, in order. */
  function ArrayOf(chunks: seq<Chunk>): Value {
    Arr("", ElemsOf(ObjectsIn(chunks)))
  }

  lemma {:induction false} JoinIsElems(vs: seq<Value>)
    ensures Join(TextsOf(vs), ",") == ElemsText(ElemsOf(vs))
    decreases |vs|
  {
    if vs != [] {
      var rest := vs[1..];
      JoinIsElems(rest);
      assert TextsOf(vs)[1..] == TextsOf(rest) && ElemsOf(vs)[1..] == ElemsOf(rest);
      OneElem(vs[0], ElemsText(ElemsOf(rest)), rest == []);
      assert rest == [] ==> ElemsOf(rest) == [];
    }
  }

  lemma OneElem(v: Value, rest: string, last: bool)
    requires last ==> rest == ""
    ensures ElemText(Elem("", v, "")) + ((if last then "" else ",") + rest) ==
            if last then ValueText(v) else ValueText(v) + "," + rest
  {
    assert "" + (ValueText(v) + "") == ValueText(v);
  }

  lemma {:induction false} ObjectsAreTexts(chunks: seq<Chunk>)
    ensures Objects(chunks) == TextsOf(ObjectsIn(chunks))
    decreases |chunks|
  {
    if chunks != [] {
      ObjectsAreTexts(chunks[..|chunks| - 1]);
    }
  }

  ghost predicate AllHarmless(chunks: seq<Chunk>, tail: string) {
    (forall i | 0 <= i < |chunks| :: ChunkOk(chunks[i])) && Scan(INITIAL, tail, 0).spans == []
  }

  /** However the input is made of objects and harmless noise, the output is the array of the objects. */
  ghost predicate OutputsArrays(input: string, out: string) {
    forall chunks, tail | input == ChunksText(chunks) + tail && AllHarmless(chunks, tail) ::
      WellFormed(ArrayOf(chunks)) && out == ValueText(ArrayOf(chunks))
  }

  lemma ArrayText(chunks: seq<Chunk>, tail: string)
    requires AllHarmless(chunks, tail)
    ensures WellFormed(ArrayOf(chunks))
    ensures "[" + Join(Split(ChunksText(chunks) + tail), ",") + "]" == ValueText(ArrayOf(chunks))
  {
    HarmlessSplit(chunks, tail);
    ObjectsAreTexts(chunks);
    JoinIsElems(ObjectsIn(chunks));
    var elems := ElemsOf(ObjectsIn(chunks));
    assert "" + ElemsText(elems) == ElemsText(elems);
    forall i | 0 <= i < |elems| ensures ElemOk(elems[i]) {
      assert ChunkOk(chunks[i]);
    }
  }

  lemma OutputIsArray(input: string, out: string)
    requires out == "[" + Join(Split(input), ",") + "]"
    ensures OutputsArrays(input, out)
  {
    forall chunks, tail | input == ChunksText(chunks) + tail && AllHarmless(chunks, tail)
      ensures WellFormed(ArrayOf(chunks)) && out == ValueText(ArrayOf(chunks))
    {
      ArrayText(chunks, tail);
    }
  }

  // ----- exactly which noise

  /** Where the objects stand. */
  function TrueSpans(chunks: seq<Chunk>): (r: seq<Span>)
    ensures |r| == |chunks|
  {
    if chunks == [] then []
    else
      var n := |chunks| - 1;
      TrueSpans(chunks[..n]) + [SpanOf(|ChunksText(chunks[..n])|, chunks[n])]
  }

  lemma {:induction false} TrueSpanAt(chunks: seq<Chunk>, i: nat)
    requires i < |chunks|
    ensures TrueSpans(chunks)[i] == SpanOf(|ChunksText(chunks[..i])|, chunks[i])
    decreases |chunks|
  {
    var n := |chunks| - 1;
    if i < n {
      TrueSpanAt(chunks[..n], i);
      assert chunks[..n][..i] == chunks[..i];
    }
  }

  /** The text up to an object begins the whole. */
  lemma {:induction false} ChunksPrefix(chunks: seq<Chunk>, i: nat)
    requires i < |chunks|
    ensures ChunksText(chunks[..i]) + ChunkText(chunks[i]) <= ChunksText(chunks)
    decreases |chunks|
  {
    var n := |chunks| - 1;
    if i < n {
      ChunksPrefix(chunks[..n], i);
      assert chunks[..n][..i] == chunks[..i];
      StillPrefix(ChunksText(chunks[..i]) + ChunkText(chunks[i]), ChunksText(chunks[..n]), ChunkText(chunks[n]));
    }
  }

  lemma StillPrefix(a: string, b: string, c: string)
    requires a <= b
    ensures a <= b + c
  {
  }

  /** With harmless noise the scanner cuts the objects where they stand and ends up between objects. */
  lemma {:induction false} HarmlessChunks(chunks: seq<Chunk>)
    requires forall i | 0 <= i < |chunks| :: ChunkOk(chunks[i])
    ensures var st := Scan(INITIAL, ChunksText(chunks), 0); Idle(st) && st.spans == TrueSpans(chunks)
    decreases |chunks|
  {
    if chunks != [] {
      var n := |chunks| - 1;
      HarmlessChunks(chunks[..n]);
      var front := ChunksText(chunks[..n]);
      ChunkAfter(INITIAL, Scan(INITIAL, front, 0), front, chunks[n]);
    }
  }

  lemma {:induction false} SpansGrow(st: State, s: string, base: nat)
    ensures st.spans <= Scan(st, s, base).spans
    decreases |s|
  {
    if s != [] {
      StepSpans(st, s[0], base);
      SpansGrow(Step(st, s[0], base), s[1..], base + 1);
    }
  }

  predicate IdleAt(input: string, n: int) {
    0 <= n <= |input| && Idle(Scan(INITIAL, input[..n], 0))
  }

  /** A piece, cut or begun, begins where the scanner was between objects. */
  predicate BegunIdle(input: string, st: State) {
    && (forall k | 0 <= k < |st.spans| :: IdleAt(input, st.spans[k].lo))
    && (st.start >= 0 ==> IdleAt(input, st.start) && st.braces >= 1)
    && st.start >= -1
  }

  lemma StepBegunIdle(input: string, n: nat, st: State)
    requires n < |input| && st == Scan(INITIAL, input[..n], 0) && BegunIdle(input, st)
    ensures BegunIdle(input, Step(st, input[n], n))
  {
    if !st.escapeNext && !st.inQuotes && input[n] == '{' && st.braces == 0 {
      assert IdleAt(input, n);
    }
  }

  lemma {:induction false} PrefixBegunIdle(input: string, n: nat)
    requires n <= |input|
    ensures BegunIdle(input, Scan(INITIAL, input[..n], 0))
    decreases n
  {
    if n > 0 {
      PrefixBegunIdle(input, n - 1);
      StepBegunIdle(input, n - 1, Scan(INITIAL, input[..n - 1], 0));
      ScanSnoc(INITIAL, input[..n - 1], input[n - 1], 0);
      assert input[..n - 1] + [input[n - 1]] == input[..n];
    }
  }

  lemma SpanBeginsIdle(input: string, k: nat)
    requires k < |Scan(INITIAL, input, 0).spans|
    ensures IdleAt(input, Scan(INITIAL, input, 0).spans[k].lo)
  {
    PrefixBegunIdle(input, |input|);
    assert input[..|input|] == input;
  }

  /** The scan goes on from `p` to `q` and from there to the end. */
  lemma ScanThrough(input: string, p: nat, q: nat)
    requires p <= q <= |input|
    ensures Scan(INITIAL, input[..q], 0) == Scan(Scan(INITIAL, input[..p], 0), input[p..q], p)
    ensures Scan(INITIAL, input[..p], 0).spans <= Scan(INITIAL, input[..q], 0).spans
  {
    assert input[..q] == input[..p] + input[p..q];
    ScanAppend(INITIAL, input[..p], input[p..q], 0);
    SpansGrow(Scan(INITIAL, input[..p], 0), input[p..q], p);
  }

  /** Before an object the scanner has cut just what it had cut before the noise. */
  lemma NothingCut(input: string, p: nat, q: nat, k: nat)
    requires p <= q <= |input| && k < |Scan(INITIAL, input, 0).spans|
    requires |Scan(INITIAL, input[..p], 0).spans| == k && Scan(INITIAL, input, 0).spans[k].hi > q
    ensures Scan(INITIAL, input[..q], 0).spans == Scan(INITIAL, input[..p], 0).spans
  {
    ScanThrough(input, p, q);
    ScanThrough(input, q, |input|);
    assert input[..|input|] == input;
    PrefixOk(input, q);
    var cut, end := Scan(INITIAL, input[..q], 0).spans, Scan(INITIAL, input, 0).spans;
    assert forall j | 0 <= j < |cut| :: end[j] == cut[j] && end[j].hi <= q;
  }

  /** The whole text begins with what stands before object `i`, which is also where it stands. */
  lemma WhereItStands(chunks: seq<Chunk>, tail: string, i: nat)
    requires i < |chunks| && chunks[i].obj.Obj?
    ensures var input, p := ChunksText(chunks) + tail, |ChunksText(chunks[..i])|;
            var q := p + |chunks[i].noise|;
            && q <= |input| && input[..p] == ChunksText(chunks[..i])
            && input[p..q] == chunks[i].noise
            && TrueSpans(chunks)[i].lo == q && TrueSpans(chunks)[i].hi > q
  {
    var front, noise, text := ChunksText(chunks[..i]), chunks[i].noise, ChunksText(chunks);
    ChunksPrefix(chunks, i);
    TrueSpanAt(chunks, i);
    assert |ValueText(chunks[i].obj)| > 0;
    TwoPrefixes(front, noise, ValueText(chunks[i].obj), text, tail);
  }

  lemma TwoPrefixes(front: string, noise: string, obj: string, text: string, tail: string)
    requires front + (noise + obj) <= text
    ensures var p, q := |front|, |front| + |noise|;
            q <= |text + tail| && (text + tail)[..p] == front && (text + tail)[p..q] == noise
  {
    var whole, begun, q := text + tail, front + (noise + obj), |front| + |noise|;
    assert begun[..|front|] == front && begun[|front|..q] == noise;
    assert begun == text[..|begun|];
    assert whole[..|front|] == begun[..|front|] && whole[|front|..q] == begun[|front|..q];
  }

  lemma HarmlessHere(input: string, front: string, noise: string, k: nat, spans: seq<Span>)
    requires |front| + |noise| <= |input| && input[..|front|] == front && input[|front|..|front| + |noise|] == noise
    requires Idle(Scan(INITIAL, front, 0)) && |Scan(INITIAL, front, 0).spans| == k
    requires spans == Scan(INITIAL, input, 0).spans && k < |spans|
    requires spans[k].lo == |front| + |noise| && spans[k].hi > |front| + |noise|
    ensures Harmless(noise)
  {
    HarmlessBefore(input, |front|, |front| + |noise|, k);
  }

  lemma FrontIdle(chunks: seq<Chunk>, i: nat)
    requires i <= |chunks| && forall j | 0 <= j < i :: ChunkOk(chunks[j])
    ensures Idle(Scan(INITIAL, ChunksText(chunks[..i]), 0)) && |Scan(INITIAL, ChunksText(chunks[..i]), 0).spans| == i
  {
    HarmlessChunks(chunks[..i]);
  }

  /** If the objects are found where they stand, the noise before each one is harmless. */
  lemma FoundMeansHarmless(chunks: seq<Chunk>, tail: string, i: nat)
    requires forall j | 0 <= j < |chunks| :: ObjectOk(chunks[j])
    requires Scan(INITIAL, ChunksText(chunks) + tail, 0).spans == TrueSpans(chunks)
    requires i < |chunks| && forall j | 0 <= j < i :: Harmless(chunks[j].noise)
    ensures Harmless(chunks[i].noise)
  {
    FrontIdle(chunks, i);
    WhereItStands(chunks, tail, i);
    HarmlessHere(ChunksText(chunks) + tail, ChunksText(chunks[..i]), chunks[i].noise, i, TrueSpans(chunks));
  }

  lemma HarmlessBetween(st: State, st': State, noise: string, base: nat)
    requires Idle(st) && Idle(st') && st'.spans == st.spans && st' == Scan(st, noise, base)
    ensures Harmless(noise)
  {
    assert st' == st;
    HarmlessScan(st, noise, base);
  }

  lemma HarmlessBefore(input: string, p: nat, q: nat, k: nat)
    requires p <= q <= |input|
    requires Idle(Scan(INITIAL, input[..p], 0)) && |Scan(INITIAL, input[..p], 0).spans| == k
    requires var spans := Scan(INITIAL, input, 0).spans; k < |spans| && spans[k].lo == q && spans[k].hi > q
    ensures Harmless(input[p..q])
  {
    NothingCut(input, p, q, k);
    SpanBeginsIdle(input, k);
    ScanThrough(input, p, q);
    HarmlessBetween(Scan(INITIAL, input[..p], 0), Scan(INITIAL, input[..q], 0), input[p..q], p);
  }

  lemma {:induction false} FoundMeansAllHarmless(chunks: seq<Chunk>, tail: string, n: nat)
    requires forall j | 0 <= j < |chunks| :: ObjectOk(chunks[j])
    requires Scan(INITIAL, ChunksText(chunks) + tail, 0).spans == TrueSpans(chunks) && n <= |chunks|
    ensures forall j | 0 <= j < n :: Harmless(chunks[j].noise)
  {
    if n > 0 {
      FoundMeansAllHarmless(chunks, tail, n - 1);
      FoundMeansHarmless(chunks, tail, n - 1);
    }
  }

  /** Well-formed objects in any noise whatever are found, each where it stands and nothing else,
      exactly when every piece of noise before an object, scanned on its own, leaves the scanner where
      it began without a piece cut, and what comes after the last one has no piece cut. */
  lemma FoundExactlyWhenHarmless(chunks: seq<Chunk>, tail: string)
    requires forall i | 0 <= i < |chunks| :: ObjectOk(chunks[i])
    ensures Scan(INITIAL, ChunksText(chunks) + tail, 0).spans == TrueSpans(chunks) <==>
            (forall i | 0 <= i < |chunks| :: Harmless(chunks[i].noise)) && Scan(INITIAL, tail, 0).spans == []
  {
    var found := Scan(INITIAL, ChunksText(chunks) + tail, 0).spans == TrueSpans(chunks);
    if found {
      FoundMeansAllHarmless(chunks, tail, |chunks|);
    }
    if forall i | 0 <= i < |chunks| :: Harmless(chunks[i].noise) {
      HarmlessChunks(chunks);
      TailSpans(ChunksText(chunks), tail);
    }
  }

  /** A case of harm: behind one stray closing brace an object that would be found on its own is not. */
  lemma StrayBraceHides()
    ensures Split("{}") == ["{}"] && Split("}{}") == []
  {
    var empty := Chunk("", Obj("", []));
    var chunks := [empty];
    assert chunks[..0] == [] && ValueText(empty.obj) == "{}";
    assert ChunksText(chunks) == "{}" && Objects(chunks) == ["{}"];
    SplitFindsTheObjects(chunks, "");
    assert ChunksText(chunks) + "" == "{}";
    ScanSnoc(INITIAL, "", '}', 0);
    ScanSnoc(INITIAL, "}", '{', 0);
    ScanSnoc(INITIAL, "}{", '}', 0);
    assert "" + ['}'] == "}";
    assert "}" + ['{'] == "}{";
    assert "}{" + ['}'] == "}{}";
  }
}
