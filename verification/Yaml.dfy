/**
 The monitor's parser for a block subset of YAML.  JavaScript's heap is a sequence of containers;
 a container refers to another by its index, so the parser's stack aliases the tree it grows.
 */
module Yaml {
  import opened Bytes
  import T = Text

  // ----- Text

  // The white space of JavaScript: the characters of \s, which trim removes too.
  predicate IsJsSpace(c: char) {
    || c == ' ' || '\t' <= c <= '\r' || c == '\U{A0}' || c == '\U{1680}' || '\U{2000}' <= c <= '\U{200A}'
    || c == '\U{2028}' || c == '\U{2029}' || c == '\U{202F}' || c == '\U{205F}' || c == '\U{3000}' || c == '\U{FEFF}'
  }

  function TrimStart(s: string): string {
    if s != "" && IsJsSpace(s[0]) then TrimStart(s[1..]) else s
  }

  function TrimEnd(s: string): string {
    if s != "" && IsJsSpace(s[|s| - 1]) then TrimEnd(s[..|s| - 1]) else s
  }

  function Trim(s: string): string {
    TrimEnd(TrimStart(s))
  }

  predicate StartsWith(s: string, prefix: string) {
    |prefix| <= |s| && s[..|prefix|] == prefix
  }

  // The pieces between line ends, each "\n" or "\r\n".
  function SplitLines(text: string): (lines: seq<string>)
    ensures lines != []
    decreases |text|
  {
    if text == "" then [""]
    else if text[0] == '\n' then [""] + SplitLines(text[1..])
    else if |text| >= 2 && text[0] == '\r' && text[1] == '\n' then [""] + SplitLines(text[2..])
    else
      var rest := SplitLines(text[1..]);
      [[text[0]] + rest[0]] + rest[1..]
  }

  function WithCarriageReturns(text: string): string {
    if text == "" then "" else (if text[0] == '\n' then "\r\n" else [text[0]]) + WithCarriageReturns(text[1..])
  }

  /** Both kinds of line end give the same lines. */
  lemma {:induction false} LineEndsAlike(text: string)
    requires '\r' !in text
    ensures SplitLines(WithCarriageReturns(text)) == SplitLines(text)
    decreases |text|
  {
    if text != "" {
      var rest := WithCarriageReturns(text[1..]);
      LineEndsAlike(text[1..]);
      if text[0] == '\n' {
        assert ("\r\n" + rest)[2..] == rest;
      } else {
        assert ([text[0]] + rest)[1..] == rest;
      }
    }
  }

  // Whether a quote is open, after one more character.
  datatype Quotes = Quotes(inSingle: bool, inDouble: bool) {
    function After(c: char): Quotes {
      if c == '\'' && !inDouble then Quotes(!inSingle, inDouble)
      else if c == '"' && !inSingle then Quotes(inSingle, !inDouble)
      else this
    }

    predicate Comments(c: char) {
      c == '#' && !inSingle && !inDouble
    }
  }

  // The text up to the first # outside quotes.
  function Uncommented(line: string, quotes: Quotes): string {
    if line == "" || quotes.Comments(line[0]) then "" else [line[0]] + Uncommented(line[1..], quotes.After(line[0]))
  }

  const Unquoting := Quotes(false, false)

  lemma UncommentedAt(line: string, index: nat, quotes: Quotes)
    requires index < |line|
    ensures line[..index] + Uncommented(line[index..], quotes)
            == if quotes.Comments(line[index]) then line[..index]
               else line[..index + 1] + Uncommented(line[index + 1..], quotes.After(line[index]))
  {
  }

  method StripComment(line: string) returns (r: string)
    ensures r == Uncommented(line, Unquoting)
  {
    var inSingle, inDouble := false, false;
    for index := 0 to |line|
      invariant Uncommented(line, Unquoting) == line[..index] + Uncommented(line[index..], Quotes(inSingle, inDouble))
    {
      hide Uncommented;
      var c := line[index];
      UncommentedAt(line, index, Quotes(inSingle, inDouble));
      if c == '\'' && !inDouble {
        inSingle := !inSingle;
      } else if c == '"' && !inSingle {
        inDouble := !inDouble;
      } else if c == '#' && !inSingle && !inDouble {
        return line[..index];
      }
    }
    return line;
  }

  lemma {:induction false} InsideQuotes(s: string, q: char, rest: string)
    requires q == '\'' || q == '"'
    requires q !in s
    ensures Uncommented(s + [q] + rest, Unquoting.After(q)) == s + [q] + Uncommented(rest, Unquoting)
  {
    var line := s + [q] + rest;
    if s == "" {
      assert line[1..] == rest;
    } else {
      assert line[1..] == s[1..] + [q] + rest;
      InsideQuotes(s[1..], q, rest);
      assert [s[0]] + (s[1..] + [q]) == s + [q];
    }
  }

  /** What stands between a pair of quotes is no comment, whatever it holds. */
  lemma QuotedIsNoComment(s: string, q: char, rest: string)
    requires q == '\'' || q == '"'
    requires q !in s
    ensures Uncommented([q] + s + [q] + rest, Unquoting) == [q] + s + [q] + Uncommented(rest, Unquoting)
  {
    var line := [q] + s + [q] + rest;
    assert line[1..] == s + [q] + rest;
    InsideQuotes(s, q, rest);
    assert [q] + (s + [q] + Uncommented(rest, Unquoting)) == [q] + s + [q] + Uncommented(rest, Unquoting);
  }

  // A line that says something: its indentation, and its text without comment and surrounding space.
  datatype Line = Line(indent: nat, text: string)

  function Significant(raw: string): Option<Line> {
    var line := TrimEnd(Uncommented(raw, Unquoting));
    if Trim(line) == "" then None else Some(Line(Indentation(raw), Trim(line)))
  }

  function Indentation(raw: string): nat {
    TrimStartShortens(raw);
    |raw| - |TrimStart(raw)|
  }

  lemma TrimStartShortens(s: string)
    ensures |TrimStart(s)| <= |s|
  {
  }

  function Scan(lines: seq<string>): seq<Line> {
    if lines == [] then []
    else (match Significant(lines[0]) case None => [] case Some(l) => [l]) + Scan(lines[1..])
  }

  // ----- Values

  // A number is the text it was read from.
  datatype Scalar = Text(text: string) | Integer(digits: string) | Decimal(digits: string) | Boolean(value: bool) | Null

  datatype Read = Plain(scalar: Scalar) | EmptyObject | EmptyList

  datatype Slot = Leaf(scalar: Scalar) | Ref(index: nat)

  datatype Node = Object(fields: map<string, Slot>) | List(items: seq<Slot>)

  type Heap = seq<Node>

  predicate Digits(s: string) {
    s != "" && forall i :: 0 <= i < |s| ==> '0' <= s[i] <= '9'
  }

  function Unsigned(s: string): string {
    if s != "" && s[0] == '-' then s[1..] else s
  }

  predicate IsInteger(s: string) {
    Digits(Unsigned(s))
  }

  predicate IsDecimal(s: string) {
    var u := Unsigned(s);
    exists i :: 0 <= i < |u| && u[i] == '.' && Digits(u[..i]) && Digits(u[i + 1..])
  }

  predicate IsQuote(c: char) {
    c == '\'' || c == '"'
  }

  function Unquoted(s: string): string {
    var t := if s != "" && IsQuote(s[0]) then s[1..] else s;
    if t != "" && IsQuote(t[|t| - 1]) then t[..|t| - 1] else t
  }

  function ParseScalar(value: string): Read {
    var unquoted := Unquoted(value);
    if unquoted == "{}" then EmptyObject
    else if unquoted == "[]" then EmptyList
    else if unquoted == "null" || unquoted == "~" then Plain(Null)
    else if unquoted == "true" then Plain(Boolean(true))
    else if unquoted == "false" then Plain(Boolean(false))
    else if IsInteger(unquoted) then Plain(Integer(unquoted))
    else if IsDecimal(unquoted) then Plain(Decimal(unquoted))
    else Plain(Text(unquoted))
  }

  const NO_SEPARATOR := "YAML subset parser expected key/value"
  const OUTSIDE_LIST := "YAML subset parser found a list item outside a list"
  const OUTSIDE_MAPPING := "YAML subset parser can only assign keys inside mappings"

  function IndexOf(s: string, c: char): (i: int)
    ensures -1 <= i < |s|
    ensures i >= 0 ==> s[i] == c && forall j :: 0 <= j < i ==> s[j] != c
    ensures i < 0 ==> c !in s
  {
    if s == "" then -1
    else if s[0] == c then 0
    else var r := IndexOf(s[1..], c); if r < 0 then -1 else r + 1
  }

  function ParseKeyValue(text: string): Result<(string, string)> {
    var separator := IndexOf(text, ':');
    if separator < 0 then Failure(NO_SEPARATOR)
    else Success((Trim(text[..separator]), Trim(text[separator + 1..])))
  }

  /** A pair is split at its first colon, and both halves are trimmed. */
  lemma SplitsAtFirstColon(key: string, value: string)
    requires ':' !in key
    ensures ParseKeyValue(key + ":" + value) == Success((Trim(key), Trim(value)))
  {
    hide Trim;
    var text := key + ":" + value;
    assert text[|key|] == ':' && forall j :: 0 <= j < |key| ==> text[j] == key[j];
    assert IndexOf(text, ':') == |key|;
    assert text[..|key|] == key && text[|key| + 1..] == value;
  }

  // A value read into the heap: containers are new.
  function Stored(heap: Heap, read: Read): (r: (Heap, Slot))
    ensures heap <= r.0 && (r.1.Ref? ==> |heap| <= r.1.index < |r.0|)
  {
    match read
    case Plain(s) => (heap, Leaf(s))
    case EmptyObject => (heap + [Object(map[])], Ref(|heap|))
    case EmptyList => (heap + [List([])], Ref(|heap|))
  }

  function ListItem(heap: Heap, text: string): (r: (Heap, Slot))
    ensures heap <= r.0 && (r.1.Ref? ==> |heap| <= r.1.index < |r.0|)
  {
    if text == "" then Stored(heap, EmptyObject)
    else match ParseKeyValue(text)
         case Failure(_) => Stored(heap, ParseScalar(text))
         case Success(kv) =>
           var (h, slot) := Stored(heap + [Object(map[])], ParseScalar(kv.1));
           (h[|heap| := Object(map[kv.0 := slot])], Ref(|heap|))
  }

  // ----- The indent stack

  datatype Frame = Frame(indent: int, ref: nat)

  datatype State = State(heap: Heap, stack: seq<Frame>)

  const Initial := State([Object(map[])], [Frame(-1, 0)])

  function Popped(stack: seq<Frame>, indent: int): seq<Frame> {
    if stack != [] && indent <= stack[|stack| - 1].indent then Popped(stack[..|stack| - 1], indent) else stack
  }

  // Whether the value that a key line leaves open is a list: the next significant line decides.
  predicate OpensList(rest: seq<Line>, indent: nat) {
    rest != [] && rest[0].indent > indent && StartsWith(rest[0].text, "- ")
  }

  function Put(heap: Heap, ref: nat, key: string, slot: Slot): Result<Heap>
    requires ref < |heap|
  {
    if heap[ref].Object? then Success(heap[ref := Object(heap[ref].fields[key := slot])]) else Failure(OUTSIDE_MAPPING)
  }

  predicate InHeap(st: State) {
    forall i :: 0 <= i < |st.stack| ==> st.stack[i].ref < |st.heap|
  }

  function Top(st: State): nat
    requires st.stack != []
  {
    st.stack[|st.stack| - 1].ref
  }

  function OnListItem(st: State, line: Line): (r: Result<State>)
    requires InHeap(st)
    ensures r.Success? ==> InHeap(r.value) && |st.heap| <= |r.value.heap|
  {
    if st.stack == [] || st.heap[Top(st)].Object? then Failure(OUTSIDE_LIST)
    else
      var (heap, child) := ListItem(st.heap, Trim(line.text[if |line.text| < 2 then |line.text| else 2..]));
      Success(State(heap[Top(st) := List(heap[Top(st)].items + [child])],
                    st.stack + if child.Ref? then [Frame(line.indent, child.index)] else []))
  }

  function OnKey(st: State, line: Line, rest: seq<Line>): (r: Result<State>)
    requires InHeap(st)
    ensures r.Success? ==> InHeap(r.value) && |st.heap| <= |r.value.heap|
  {
    var kv :- ParseKeyValue(line.text);
    if kv.1 == "" then
      var child := if OpensList(rest, line.indent) then List([]) else Object(map[]);
      if st.stack == [] then Failure(OUTSIDE_MAPPING)
      else
        var heap :- Put(st.heap + [child], Top(st), kv.0, Ref(|st.heap|));
        Success(State(heap, st.stack + [Frame(line.indent, |st.heap|)]))
    else if st.stack == [] then Failure(OUTSIDE_MAPPING)
    else
      var (stored, slot) := Stored(st.heap, ParseScalar(kv.1));
      var heap :- Put(stored, Top(st), kv.0, slot);
      Success(State(heap, st.stack))
  }

  function Unwound(st: State, indent: int): State {
    st.(stack := Popped(st.stack, indent))
  }

  lemma {:induction false} PoppedIsPrefix(stack: seq<Frame>, indent: int)
    ensures Popped(stack, indent) <= stack
  {
    if stack != [] && indent <= stack[|stack| - 1].indent {
      PoppedIsPrefix(stack[..|stack| - 1], indent);
    }
  }

  // One significant line.
  function Step(st: State, line: Line, rest: seq<Line>): (r: Result<State>)
    requires InHeap(st)
    ensures r.Success? ==> InHeap(r.value) && |st.heap| <= |r.value.heap|
  {
    PoppedIsPrefix(st.stack, line.indent);
    var unwound := Unwound(st, line.indent);
    if StartsWith(line.text, "- ") then OnListItem(unwound, line) else OnKey(unwound, line, rest)
  }

  function Process(st: State, lines: seq<Line>): Result<State>
    requires InHeap(st)
    decreases |lines|
  {
    if lines == [] then Success(st)
    else
      var next :- Step(st, lines[0], lines[1..]);
      Process(next, lines[1..])
  }

  // The heap of a parsed text; its root is container 0.
  function Parse(text: string): Result<Heap> {
    var st :- Process(Initial, Scan(SplitLines(text)));
    Success(st.heap)
  }

  // ----- The parser's loops

  method NextChildIsList(lines: seq<string>, index: nat, parentIndent: nat) returns (isList: bool)
    requires index < |lines|
    ensures isList == OpensList(Scan(lines[index + 1..]), parentIndent)
  {
    hide Significant, StartsWith;
    var i := index + 1;
    while i < |lines|
      invariant index < i <= |lines|
      invariant Scan(lines[i..]) == Scan(lines[index + 1..])
    {
      var raw := lines[i];
      assert lines[i..][1..] == lines[i + 1..];
      var line := Significant(raw);
      i := i + 1;
      if line.None? {
        continue;
      }
      if line.value.indent <= parentIndent {
        return false;
      }
      return StartsWith(line.value.text, "- ");
    }
    return false;
  }

  /** The body of the parser's loop for one significant line. */
  method AcceptLine(st: State, line: Line, lines: seq<string>, index: nat) returns (r: Result<State>)
    requires InHeap(st) && index < |lines|
    ensures r == Step(st, line, Scan(lines[index + 1..]))
  {
    hide StartsWith, ParseKeyValue, ParseScalar, ListItem, Stored, Trim, Scan, OpensList;
    var heap, stack := st.heap, st.stack;
    PoppedIsPrefix(stack, line.indent);
    while stack != [] && line.indent <= stack[|stack| - 1].indent
      invariant Popped(stack, line.indent) == Popped(st.stack, line.indent) && stack <= st.stack
      decreases |stack|
    {
      stack := stack[..|stack| - 1];
    }
    if StartsWith(line.text, "- ") {
      if stack == [] || !heap[stack[|stack| - 1].ref].List? {
        return Failure(OUTSIDE_LIST);
      }
      var parent := stack[|stack| - 1].ref;
      var (grown, child) := ListItem(heap, Trim(line.text[if |line.text| < 2 then |line.text| else 2..]));
      heap := grown[parent := List(grown[parent].items + [child])];
      if child.Ref? {
        stack := stack + [Frame(line.indent, child.index)];
      } else {
        stack := stack + [];
      }
      return Success(State(heap, stack));
    }
    var kv := ParseKeyValue(line.text);
    if kv.Failure? {
      return Failure(kv.error);
    }
    var (key, value) := kv.value;
    if value == "" {
      var isList := NextChildIsList(lines, index, line.indent);
      if stack == [] || heap[stack[|stack| - 1].ref].List? {
        return Failure(OUTSIDE_MAPPING);
      }
      var parent, child := stack[|stack| - 1].ref, |heap|;
      heap := heap + [if isList then List([]) else Object(map[])];
      heap := heap[parent := Object(heap[parent].fields[key := Ref(child)])];
      stack := stack + [Frame(line.indent, child)];
    } else {
      if stack == [] || heap[stack[|stack| - 1].ref].List? {
        return Failure(OUTSIDE_MAPPING);
      }
      var parent := stack[|stack| - 1].ref;
      var (grown, slot) := Stored(heap, ParseScalar(value));
      heap := grown[parent := Object(grown[parent].fields[key := slot])];
    }
    return Success(State(heap, stack));
  }

  method ParseYamlSubset(text: string) returns (r: Result<Heap>)
    ensures r == Parse(text)
  {
    hide Significant, Step, SplitLines;
    var lines := SplitLines(text);
    var st := Initial;
    for index := 0 to |lines|
      invariant InHeap(st)
      invariant Process(Initial, Scan(lines)) == Process(st, Scan(lines[index..]))
    {
      var raw := lines[index];
      assert lines[index..][1..] == lines[index + 1..];
      var significant := Significant(raw);
      if significant.None? {
        assert Scan(lines[index..]) == Scan(lines[index + 1..]);
        continue;
      }
      ghost var line, rest := significant.value, Scan(lines[index + 1..]);
      assert Scan(lines[index..]) == [line] + rest;
      assert ([line] + rest)[1..] == rest;
      assert Process(st, [line] + rest) == match Step(st, line, rest) { case Success(t) => Process(t, rest) case Failure(e) => Failure(e) };
      var next := AcceptLine(st, significant.value, lines, index);
      if next.Failure? {
        return Failure(next.error);
      }
      st := next.value;
    }
    return Success(st.heap);
  }

  // ----- The stack over every input

  predicate Holds(node: Node, ref: nat) {
    match node
    case Object(fields) => exists k :: k in fields && fields[k] == Ref(ref)
    case List(items) => Ref(ref) in items
  }

  // Containers refer to younger ones only.
  ghost predicate Acyclic(heap: Heap) {
    forall i, ref: nat :: 0 <= i < |heap| && Holds(heap[i], ref) ==> i < ref < |heap|
  }

  // The root at the bottom, indents and ages strictly increasing, each container held by the one below.
  ghost predicate Stacked(st: State) {
    && InHeap(st) && Acyclic(st.heap)
    && st.stack != [] && st.stack[0] == Frame(-1, 0)
    && (forall i, j :: 0 <= i < j < |st.stack| ==> st.stack[i].indent < st.stack[j].indent && st.stack[i].ref < st.stack[j].ref)
    && (forall i :: 0 <= i < |st.stack| - 1 ==> Holds(st.heap[st.stack[i].ref], st.stack[i + 1].ref))
  }

  lemma {:induction false} PoppedBelow(stack: seq<Frame>, indent: int)
    ensures var p := Popped(stack, indent);
            && p <= stack
            && (p != [] ==> p[|p| - 1].indent < indent)
            && (stack != [] && stack[0].indent < indent ==> p != [])
  {
    if stack != [] && indent <= stack[|stack| - 1].indent {
      PoppedBelow(stack[..|stack| - 1], indent);
    }
  }

  lemma PoppedStacked(st: State, indent: nat)
    requires Stacked(st)
    ensures Stacked(Unwound(st, indent)) && Unwound(st, indent).stack[|Unwound(st, indent).stack| - 1].indent < indent
  {
    PoppedBelow(st.stack, indent);
  }

  // t is s with something written into the top container, which may now hold one new frame's container.
  lemma WrittenStacked(s: State, heap: Heap, node: Node, pushed: seq<Frame>)
    requires Stacked(s) && s.heap <= heap && Acyclic(heap)
    requires forall ref: nat :: Holds(node, ref) ==> Holds(s.heap[Top(s)], ref) || |s.heap| <= ref < |heap|
    requires pushed == [] || (|pushed| == 1 && s.stack[|s.stack| - 1].indent < pushed[0].indent
                              && |s.heap| <= pushed[0].ref < |heap| && Holds(node, pushed[0].ref))
    ensures Stacked(State(heap[Top(s) := node], s.stack + pushed))
  {
  }

  lemma StoredAcyclic(heap: Heap, read: Read)
    requires Acyclic(heap)
    ensures Acyclic(Stored(heap, read).0)
  {
  }

  lemma ListItemAcyclic(heap: Heap, text: string)
    requires Acyclic(heap)
    ensures Acyclic(ListItem(heap, text).0)
  {
  }

  lemma PutHolds(fields: map<string, Slot>, key: string, slot: Slot)
    ensures forall ref: nat :: Holds(Object(fields[key := slot]), ref) ==> Holds(Object(fields), ref) || slot == Ref(ref)
    ensures slot.Ref? ==> Holds(Object(fields[key := slot]), slot.index)
  {
    if slot.Ref? {
      assert fields[key := slot][key] == slot;
    }
  }

  lemma ListItemStacked(st: State, line: Line)
    requires Stacked(st) && st.stack[|st.stack| - 1].indent < line.indent && OnListItem(st, line).Success?
    ensures Stacked(OnListItem(st, line).value)
  {
    hide ParseKeyValue, ParseScalar, ListItem, Trim;
    var text := Trim(line.text[if |line.text| < 2 then |line.text| else 2..]);
    var (heap, child) := ListItem(st.heap, text);
    ListItemAcyclic(st.heap, text);
    WrittenStacked(st, heap, List(heap[Top(st)].items + [child]), if child.Ref? then [Frame(line.indent, child.index)] else []);
  }

  lemma KeyStacked(st: State, line: Line, rest: seq<Line>)
    requires Stacked(st) && st.stack[|st.stack| - 1].indent < line.indent && OnKey(st, line, rest).Success?
    ensures Stacked(OnKey(st, line, rest).value)
  {
    hide ParseKeyValue, ParseScalar, Stored, OpensList;
    var (key, value) := ParseKeyValue(line.text).value;
    if value == "" {
      var heap := st.heap + [if OpensList(rest, line.indent) then List([]) else Object(map[])];
      PutHolds(heap[Top(st)].fields, key, Ref(|st.heap|));
      WrittenStacked(st, heap, Object(heap[Top(st)].fields[key := Ref(|st.heap|)]), [Frame(line.indent, |st.heap|)]);
    } else {
      var (heap, slot) := Stored(st.heap, ParseScalar(value));
      StoredAcyclic(st.heap, ParseScalar(value));
      PutHolds(heap[Top(st)].fields, key, slot);
      WrittenStacked(st, heap, Object(heap[Top(st)].fields[key := slot]), []);
    }
  }

  lemma StepStacked(st: State, line: Line, rest: seq<Line>)
    requires Stacked(st) && Step(st, line, rest).Success?
    ensures Stacked(Step(st, line, rest).value)
  {
    hide Stacked, OnListItem, OnKey, StartsWith;
    PoppedStacked(st, line.indent);
    if StartsWith(line.text, "- ") {
      ListItemStacked(Unwound(st, line.indent), line);
    } else {
      KeyStacked(Unwound(st, line.indent), line, rest);
    }
  }

  lemma InitialStacked()
    ensures Stacked(Initial)
  {
  }

  // The state after the first n lines.
  function Reached(st: State, lines: seq<Line>, n: nat): Result<State>
    requires InHeap(st) && n <= |lines|
    decreases n
  {
    if n == 0 then Success(st)
    else
      var next :- Step(st, lines[0], lines[1..]);
      Reached(next, lines[1..], n - 1)
  }

  lemma {:induction false} ProcessReaches(st: State, lines: seq<Line>)
    requires InHeap(st)
    ensures Process(st, lines) == Reached(st, lines, |lines|)
    decreases |lines|
  {
    hide Step;
    if lines != [] && Step(st, lines[0], lines[1..]).Success? {
      ProcessReaches(Step(st, lines[0], lines[1..]).value, lines[1..]);
    }
  }

  lemma {:induction false} ReachedStacked(st: State, lines: seq<Line>, n: nat)
    requires Stacked(st) && InHeap(st) && n <= |lines| && Reached(st, lines, n).Success?
    ensures Stacked(Reached(st, lines, n).value)
    decreases n
  {
    hide Stacked, Step;
    if n > 0 {
      var next := Step(st, lines[0], lines[1..]);
      StepStacked(st, lines[0], lines[1..]);
      ReachedStacked(next.value, lines[1..], n - 1);
    }
  }

  /** Whatever text is parsed, after every line the root is at the bottom of the stack, indents strictly
      increase, each container on the stack is held by the one below it, and the heap has no cycle. */
  lemma StackInvariant(text: string, n: nat)
    requires n <= |Scan(SplitLines(text))| && Reached(Initial, Scan(SplitLines(text)), n).Success?
    ensures Stacked(Reached(Initial, Scan(SplitLines(text)), n).value)
    ensures Parse(text).Success? <==> Reached(Initial, Scan(SplitLines(text)), |Scan(SplitLines(text))|).Success?
  {
    hide SplitLines, Scan, Step, Stacked;
    InitialStacked();
    ReachedStacked(Initial, Scan(SplitLines(text)), n);
    ProcessReaches(Initial, Scan(SplitLines(text)));
  }

  // ----- Printed trees

  // A mapping as the list of its fields.  A record is a mapping of scalars.
  datatype Mapping = Empty | Field(key: string, child: Child, rest: Mapping)

  datatype Child =
    | Word(word: Scalar)
    | Nested(mapping: Mapping)
    | Words(items: seq<Scalar>)
    | Records(records: seq<seq<(string, Scalar)>>)

  datatype Value = Scalar(scalar: Scalar) | Map(fields: map<string, Value>) | Sequence(items: seq<Value>)

  function Merged(m: Mapping): map<string, Value> {
    match m
    case Empty => map[]
    case Field(key, child, rest) => map[key := ValueOf(child)] + Merged(rest)
  }

  function ValueOf(c: Child): Value {
    match c
    case Word(word) => Value.Scalar(word)
    case Nested(mapping) => Map(Merged(mapping))
    case Words(items) => Sequence(seq(|items|, i requires 0 <= i < |items| => Value.Scalar(items[i])))
    case Records(records) => Sequence(seq(|records|, i requires 0 <= i < |records| => Map(RecordFields(records[i]))))
  }

  function RecordFields(record: seq<(string, Scalar)>): map<string, Value> {
    if record == [] then map[] else map[record[0].0 := Value.Scalar(record[0].1)] + RecordFields(record[1..])
  }

  // What a slot of the heap holds, in containers not older than lo.
  ghost predicate Represents(heap: Heap, lo: nat, slot: Slot, v: Value)
    decreases v
  {
    match v
    case Scalar(s) => slot == Leaf(s)
    case Map(m) =>
      && slot.Ref? && lo <= slot.index < |heap| && heap[slot.index].Object?
      && heap[slot.index].fields.Keys == m.Keys
      && forall k :: k in m ==> Represents(heap, lo, heap[slot.index].fields[k], m[k])
    case Sequence(vs) =>
      && slot.Ref? && lo <= slot.index < |heap| && heap[slot.index].List?
      && |heap[slot.index].items| == |vs|
      && forall i :: 0 <= i < |vs| ==> Represents(heap, lo, heap[slot.index].items[i], vs[i])
  }

  /** A slot holds one value. */
  lemma {:induction false} RepresentsUnique(heap: Heap, lo: nat, slot: Slot, v: Value, u: Value)
    requires Represents(heap, lo, slot, v) && Represents(heap, lo, slot, u)
    ensures v == u
    decreases v
  {
    match v
    case Scalar(_) =>
    case Map(m) =>
      forall k | k in m
        ensures k in u.fields && m[k] == u.fields[k]
      {
        RepresentsUnique(heap, lo, heap[slot.index].fields[k], m[k], u.fields[k]);
      }
      assert m == u.fields;
    case Sequence(vs) =>
      forall i | 0 <= i < |vs|
        ensures vs[i] == u.items[i]
      {
        RepresentsUnique(heap, lo, heap[slot.index].items[i], vs[i], u.items[i]);
      }
      assert vs == u.items;
  }

  // Later writes leave the containers from lo on alone.
  lemma {:induction false} RepresentsStays(heap: Heap, later: Heap, lo: nat, lower: nat, slot: Slot, v: Value)
    requires Represents(heap, lo, slot, v) && lower <= lo
    requires |heap| <= |later| && forall i :: lo <= i < |heap| ==> later[i] == heap[i]
    ensures Represents(later, lower, slot, v)
    decreases v
  {
    match v
    case Scalar(_) =>
    case Map(m) =>
      forall k | k in m
        ensures Represents(later, lower, later[slot.index].fields[k], m[k])
      {
        RepresentsStays(heap, later, lo, lower, heap[slot.index].fields[k], m[k]);
      }
    case Sequence(vs) =>
      forall i | 0 <= i < |vs|
        ensures Represents(later, lower, later[slot.index].items[i], vs[i])
      {
        RepresentsStays(heap, later, lo, lower, heap[slot.index].items[i], vs[i]);
      }
  }

  function Shown(word: Scalar): string {
    match word
    case Text(text) => text
    case Integer(digits) => digits
    case Decimal(digits) => digits
    case Boolean(value) => if value then "true" else "false"
    case Null => "null"
  }

  // Block style: children are w further in than their key, a record's later fields two further than its dash.
  function FieldLines(m: Mapping, d: nat, w: nat): seq<Line>
    decreases m
  {
    match m
    case Empty => []
    case Field(key, child, rest) => ChildLines(key, child, d, w) + FieldLines(rest, d, w)
  }

  function ChildLines(key: string, child: Child, d: nat, w: nat): seq<Line>
    decreases child
  {
    match child
    case Word(word) => [Line(d, key + ": " + Shown(word))]
    case Nested(mapping) => [Line(d, key + ":")] + FieldLines(mapping, d + w, w)
    case Words(items) => [Line(d, key + ":")] + seq(|items|, i requires 0 <= i < |items| => Line(d + w, "- " + Shown(items[i])))
    case Records(records) => [Line(d, key + ":")] + RecordsLines(records, d + w)
  }

  function RecordsLines(records: seq<seq<(string, Scalar)>>, d: nat): seq<Line> {
    if records == [] then [] else RecordLines(records[0], d) + RecordsLines(records[1..], d)
  }

  function RecordLines(record: seq<(string, Scalar)>, d: nat): seq<Line> {
    if record == [] then []
    else [Line(d, "- " + record[0].0 + ": " + Shown(record[0].1))] + WordLines(record[1..], d + 2)
  }

  function WordLines(fields: seq<(string, Scalar)>, d: nat): seq<Line> {
    seq(|fields|, i requires 0 <= i < |fields| => Line(d, fields[i].0 + ": " + Shown(fields[i].1)))
  }

  // A key that reads back: no colon, no surrounding space, not taken for a list item.
  predicate GoodKey(key: string) {
    Trim(key) == key && ':' !in key && !StartsWith(key, "- ")
  }

  // A text that stands on a line of its own.
  predicate GoodText(text: string) {
    text != "" && Trim(text) == text
  }

  // A scalar that reads back: a text must not look like anything else.
  predicate GoodWord(word: Scalar) {
    GoodText(Shown(word)) &&
    match word
    case Text(text) =>
      && !IsQuote(text[0]) && !IsQuote(text[|text| - 1])
      && text !in ["{}", "[]", "null", "~", "true", "false"] && !IsInteger(text) && !IsDecimal(text)
    case Integer(digits) => IsInteger(digits)
    case Decimal(digits) => IsDecimal(digits)
    case Boolean(_) => true
    case Null => true
  }

  predicate GoodMapping(m: Mapping) {
    match m
    case Empty => true
    case Field(key, child, rest) => GoodKey(key) && GoodChild(child) && GoodMapping(rest)
  }

  predicate GoodChild(c: Child) {
    match c
    case Word(word) => GoodWord(word)
    case Nested(mapping) => GoodMapping(mapping)
    case Words(items) => items != [] && forall i :: 0 <= i < |items| ==> GoodWord(items[i]) && ':' !in Shown(items[i])
    case Records(records) => records != [] && forall i :: 0 <= i < |records| ==> records[i] != [] && GoodRecord(records[i])
  }

  predicate GoodRecord(record: seq<(string, Scalar)>) {
    forall i :: 0 <= i < |record| ==> GoodKey(record[i].0) && GoodWord(record[i].1)
  }

  // ----- Reading one printed scalar

  lemma BareReads(s: string)
    requires s != "" && !IsQuote(s[0]) && !IsQuote(s[|s| - 1])
    ensures Unquoted(s) == s
  {
  }

  lemma IntegerEnds(s: string)
    requires IsInteger(s)
    ensures s != "" && (s[0] == '-' || '0' <= s[0] <= '9') && '0' <= s[|s| - 1] <= '9'
  {
  }

  lemma DecimalEnds(s: string)
    requires IsDecimal(s)
    ensures s != "" && (s[0] == '-' || '0' <= s[0] <= '9') && '0' <= s[|s| - 1] <= '9'
  {
    hide IsDecimal;
    var u := Unsigned(s);
    var i := PointOf(s);
    assert u[..i][0] == u[0];
    assert u[i + 1..][|u| - i - 2] == u[|u| - 1];
  }

  lemma PointOf(s: string) returns (i: nat)
    requires IsDecimal(s)
    ensures var u := Unsigned(s); 0 < i < |u| - 1 && u[i] == '.' && Digits(u[..i]) && Digits(u[i + 1..])
  {
    var u := Unsigned(s);
    i :| 0 <= i < |u| && u[i] == '.' && Digits(u[..i]) && Digits(u[i + 1..]);
  }

  lemma DigitEnds(s: string)
    requires IsInteger(s) || IsDecimal(s)
    ensures s != "" && !IsQuote(s[0]) && !IsQuote(s[|s| - 1])
    ensures s[0] == '-' || '0' <= s[0] <= '9'
    ensures '0' <= s[|s| - 1] <= '9'
  {
    hide IsInteger, IsDecimal;
    if IsInteger(s) {
      IntegerEnds(s);
    } else {
      DecimalEnds(s);
    }
  }

  lemma IntegerNotDecimal(s: string)
    requires IsDecimal(s)
    ensures !IsInteger(s)
  {
  }

  lemma NumberReads(s: string)
    ensures IsInteger(s) ==> ParseScalar(s) == Plain(Integer(s))
    ensures IsDecimal(s) ==> ParseScalar(s) == Plain(Decimal(s))
  {
    hide IsInteger, IsDecimal, Unquoted;
    if IsInteger(s) || IsDecimal(s) {
      DigitEnds(s);
      BareReads(s);
      if IsDecimal(s) {
        IntegerNotDecimal(s);
      }
    }
  }

  /** A scalar that reads back does: what it shows is parsed to itself, type and all. */
  lemma ShownReads(word: Scalar)
    requires GoodWord(word)
    ensures ParseScalar(Shown(word)) == Plain(word)
  {
    hide Trim, IsInteger, IsDecimal, Unquoted;
    NumberReads(Shown(word));
    if !word.Integer? && !word.Decimal? {
      BareReads(Shown(word));
    }
  }

  /** A pair of quotes around an unquoted scalar changes nothing: a quoted number is a number. */
  lemma QuotesChangeNothing(open: char, text: string, close: char)
    requires IsQuote(open) && IsQuote(close) && Unquoted(text) == text
    ensures ParseScalar([open] + text + [close]) == ParseScalar(text)
  {
    var quoted := [open] + text + [close];
    assert quoted[1..] == text + [close] && (text + [close])[..|text|] == text;
    assert Unquoted(quoted) == text;
    hide IsInteger, IsDecimal, Unquoted;
  }

  // The other scalars of the subset.
  lemma SymbolsRead()
    ensures ParseScalar("{}") == EmptyObject && ParseScalar("[]") == EmptyList && ParseScalar("~") == Plain(Null)
  {
    BareReads("{}");
    BareReads("[]");
    BareReads("~");
    hide Unquoted;
  }

  // An integer as it is written.
  function Written(n: int): string {
    if n < 0 then "-" + T.Decimal(-n) else T.Decimal(n)
  }

  function ReadInteger(s: string): int {
    if s != "" && s[0] == '-' then -T.DecimalValue(s[1..]) else T.DecimalValue(s)
  }

  lemma DecimalShape(m: nat)
    ensures Digits(T.Decimal(m)) && T.Decimal(m)[0] != '-' && T.DecimalValue(T.Decimal(m)) == m
  {
    hide T.Decimal, T.DecimalValue;
    var s := T.Decimal(m);
    T.DecimalReadsBack(m);
    assert forall i :: 0 <= i < |s| ==> s[i] in s;
  }

  /** Every integer is read as an integer, with its value. */
  lemma WrittenReads(n: int)
    ensures ParseScalar(Written(n)) == Plain(Integer(Written(n))) && ReadInteger(Written(n)) == n
  {
    hide ParseScalar, T.Decimal, T.DecimalValue, Digits;
    var m := if n < 0 then -n else n;
    DecimalShape(m);
    assert ("-" + T.Decimal(m))[1..] == T.Decimal(m);
    assert Unsigned(Written(n)) == T.Decimal(m);
    NumberReads(Written(n));
  }

  lemma DecimalDigit(n: nat, c: char)
    requires '0' <= c <= '9'
    ensures var m := 10 * n + (c as int - '0' as int);
      T.Decimal(m) == (if m < 10 then "" else T.Decimal(n)) + [c] && (m < 10 <==> n == 0)
  {
  }

  lemma {:induction false} DigitsAreDecimal(u: string)
    requires Digits(u) && (u[0] != '0' || |u| == 1)
    ensures var n := T.DecimalValue(u); n >= 0 && T.Decimal(n) == u && (u[0] != '0' ==> n > 0)
  {
    hide T.Decimal;
    var before, last := u[..|u| - 1], u[|u| - 1];
    assert u == before + [last];
    if before == "" {
      assert T.DecimalValue("") == 0;
    } else {
      assert before[0] == u[0];
      DigitsAreDecimal(before);
    }
    DecimalDigit(T.DecimalValue(before), last);
  }

  /** What is read as an integer is an integer as it is written, up to leading zeros and "-0". */
  lemma IntegersAreWritten(s: string)
    requires IsInteger(s) && (Unsigned(s)[0] != '0' || |s| == 1)
    ensures s == Written(ReadInteger(s))
  {
    hide T.Decimal, T.DecimalValue;
    var u := Unsigned(s);
    DigitsAreDecimal(u);
    if s[0] == '-' {
      assert s == "-" + u;
    }
  }

  // ----- Reading one printed line

  lemma TrimSpace(t: string)
    requires Trim(t) == t
    ensures Trim(" " + t) == t
  {
  }

  lemma {:induction false} TrimTwice(t: string)
    ensures Trim(t) == t ==> TrimStart(t) == t
  {
    TrimStartShortens(t);
    TrimEndShortens(TrimStart(t));
    TrimStartSuffix(t);
  }

  lemma TrimEndShortens(s: string)
    ensures |TrimEnd(s)| <= |s|
  {
  }

  lemma TrimStartSuffix(s: string)
    ensures |TrimStart(s)| == |s| ==> TrimStart(s) == s
  {
    if s != "" && IsJsSpace(s[0]) {
      TrimStartShortens(s[1..]);
    }
  }

  lemma WordLine(key: string, text: string)
    requires GoodKey(key) && Trim(text) == text
    ensures ParseKeyValue(key + ": " + text) == Success((key, text))
    ensures !StartsWith(key + ": " + text, "- ")
  {
    hide Trim;
    var line := key + ": " + text;
    assert line[|key|] == ':' && forall j :: 0 <= j < |key| ==> line[j] == key[j];
    assert IndexOf(line, ':') == |key|;
    assert line[..|key|] == key && line[|key| + 1..] == " " + text;
    TrimSpace(text);
  }

  lemma OpenLine(key: string)
    requires GoodKey(key)
    ensures ParseKeyValue(key + ":") == Success((key, ""))
    ensures !StartsWith(key + ":", "- ")
  {
  }

  lemma ItemLine(text: string)
    requires Trim(text) == text
    ensures StartsWith("- " + text, "- ") && Trim(("- " + text)[2..]) == text
  {
  }

  // The stack under a line of indentation d is base, whose top is a shallower container ref.
  ghost predicate Under(st: State, base: seq<Frame>, d: nat, ref: nat) {
    InHeap(st) && Popped(st.stack, d) == base && base != [] && base[|base| - 1].ref == ref && ref < |st.heap|
  }

  lemma StepWord(st: State, base: seq<Frame>, d: nat, ref: nat, key: string, word: Scalar, rest: seq<Line>)
    requires Under(st, base, d, ref) && st.heap[ref].Object? && GoodKey(key) && GoodWord(word)
    ensures Step(st, Line(d, key + ": " + Shown(word)), rest)
            == Success(State(st.heap[ref := Object(st.heap[ref].fields[key := Leaf(word)])], base))
  {
    hide GoodKey, ParseScalar, StartsWith, ParseKeyValue, Trim;
    ShownReads(word);
    WordLine(key, Shown(word));
  }

  lemma StepOpen(st: State, base: seq<Frame>, d: nat, ref: nat, key: string, rest: seq<Line>, child: Node)
    requires Under(st, base, d, ref) && st.heap[ref].Object? && GoodKey(key)
    requires child == if OpensList(rest, d) then List([]) else Object(map[])
    ensures Step(st, Line(d, key + ":"), rest)
            == Success(State((st.heap + [child])[ref := Object(st.heap[ref].fields[key := Ref(|st.heap|)])],
                             base + [Frame(d, |st.heap|)]))
  {
    hide GoodKey, StartsWith, ParseKeyValue, OpensList;
    OpenLine(key);
    PoppedIsPrefix(st.stack, d);
  }

  lemma StepItem(st: State, base: seq<Frame>, d: nat, ref: nat, word: Scalar, rest: seq<Line>)
    requires Under(st, base, d, ref) && st.heap[ref].List? && GoodWord(word) && ':' !in Shown(word)
    ensures Step(st, Line(d, "- " + Shown(word)), rest)
            == Success(State(st.heap[ref := List(st.heap[ref].items + [Leaf(word)])], base))
  {
    hide ParseScalar, StartsWith, Trim;
    ShownReads(word);
    ItemLine(Shown(word));
    assert base + [] == base;
  }

  lemma StepRecord(st: State, base: seq<Frame>, d: nat, ref: nat, key: string, word: Scalar, rest: seq<Line>)
    requires Under(st, base, d, ref) && st.heap[ref].List? && GoodKey(key) && GoodWord(word)
    ensures var c := |st.heap|;
            Step(st, Line(d, "- " + key + ": " + Shown(word)), rest)
            == Success(State((st.heap + [Object(map[key := Leaf(word)])])[ref := List(st.heap[ref].items + [Ref(c)])],
                             base + [Frame(d, c)]))
  {
    hide ParseScalar, StartsWith, Trim, ParseKeyValue, GoodKey;
    ShownReads(word);
    var item := key + ": " + Shown(word);
    assert "- " + key + ": " + Shown(word) == "- " + item;
    TrimmedPair(key, Shown(word));
    ItemLine(item);
    WordLine(key, Shown(word));
    var stored := st.heap + [Object(map[])];
    assert stored[|st.heap| := Object(map[key := Leaf(word)])] == st.heap + [Object(map[key := Leaf(word)])];
  }

  lemma TrimmedPair(key: string, text: string)
    requires GoodKey(key) && GoodText(text)
    ensures Trim(key + ": " + text) == key + ": " + text
  {
    hide ParseScalar, StartsWith;
    var line := key + ": " + text;
    TrimTwice(key);
    TrimTwice(text);
    FirstNotSpace(key);
    assert line[|line| - 1] == text[|text| - 1];
    LastNotSpace(text);
    if key != "" {
      assert line[0] == key[0];
    }
  }

  lemma FirstNotSpace(s: string)
    requires TrimStart(s) == s
    ensures s != "" ==> !IsJsSpace(s[0])
  {
    if s != "" {
      TrimStartShortens(s[1..]);
    }
  }

  lemma LastNotSpace(s: string)
    requires Trim(s) == s
    ensures s != "" ==> !IsJsSpace(s[|s| - 1])
  {
    TrimTwice(s);
    if s != "" {
      TrimEndShortens(s[..|s| - 1]);
    }
  }

  lemma ProcessOne(st: State, line: Line, rest: seq<Line>, next: State)
    requires InHeap(st) && Step(st, line, rest) == Success(next)
    ensures InHeap(next) && Process(st, [line] + rest) == Process(next, rest)
  {
  }

  // ----- Runs over printed lines

  lemma {:induction false} PoppedTwice(stack: seq<Frame>, a: int, b: int)
    requires a <= b
    ensures Popped(Popped(stack, b), a) == Popped(stack, a)
  {
    if stack != [] && b <= stack[|stack| - 1].indent {
      PoppedTwice(stack[..|stack| - 1], a, b);
    }
  }

  // Under a deeper line lies base with its new frame; under a shallower one base again.
  lemma PushedUnder(base: seq<Frame>, d: nat, c: nat, e: nat)
    requires Popped(base, d) == base && d < e
    ensures Popped(base + [Frame(d, c)], e) == base + [Frame(d, c)]
    ensures Popped(base + [Frame(d, c)], d) == base
  {
  }

  lemma BackUnder(stack: seq<Frame>, base: seq<Frame>, d: nat, c: nat, e: nat)
    requires Popped(base, d) == base && d < e && Popped(stack, e) == base + [Frame(d, c)]
    ensures Popped(stack, d) == base
  {
  }

  // From h to g only container ref changed, and containers were added.
  ghost predicate Grown(h: Heap, g: Heap, ref: nat) {
    |h| <= |g| && forall i :: 0 <= i < |h| && i != ref ==> g[i] == h[i]
  }

  // Container ref's mapping was extended by m, whose containers are new.
  ghost predicate Extended(h: Heap, g: Heap, ref: nat, m: map<string, Value>) {
    && ref < |h| && Grown(h, g, ref) && h[ref].Object? && g[ref].Object?
    && g[ref].fields.Keys == h[ref].fields.Keys + m.Keys
    && (forall k :: k in m ==> Represents(g, |h|, g[ref].fields[k], m[k]))
    && (forall k :: k in h[ref].fields && k !in m ==> g[ref].fields[k] == h[ref].fields[k])
  }

  // Container ref's list was extended by vs, whose containers are new.
  ghost predicate Lengthened(h: Heap, g: Heap, ref: nat, vs: seq<Value>) {
    && ref < |h| && Grown(h, g, ref) && h[ref].List? && g[ref].List?
    && |g[ref].items| == |h[ref].items| + |vs|
    && g[ref].items[..|h[ref].items|] == h[ref].items
    && (forall i :: 0 <= i < |vs| ==> Represents(g, |h|, g[ref].items[|h[ref].items| + i], vs[i]))
  }

  lemma ExtendedTwice(h: Heap, g: Heap, f: Heap, ref: nat, m: map<string, Value>, n: map<string, Value>)
    requires Extended(h, g, ref, m) && Extended(g, f, ref, n)
    ensures Extended(h, f, ref, m + n)
  {
    hide Represents;
    forall k | k in m + n
      ensures Represents(f, |h|, f[ref].fields[k], (m + n)[k])
    {
      if k in n {
        RepresentsStays(f, f, |g|, |h|, f[ref].fields[k], n[k]);
      } else {
        RepresentsStays(g, f, |h|, |h|, g[ref].fields[k], m[k]);
      }
    }
  }

  lemma LengthenedTwice(h: Heap, g: Heap, f: Heap, ref: nat, vs: seq<Value>, us: seq<Value>)
    requires Lengthened(h, g, ref, vs) && Lengthened(g, f, ref, us)
    ensures Lengthened(h, f, ref, vs + us)
  {
    hide Represents;
    var n := |h[ref].items|;
    forall i | 0 <= i < |vs + us|
      ensures Represents(f, |h|, f[ref].items[n + i], (vs + us)[i])
    {
      if i < |vs| {
        RepresentsStays(g, f, |h|, |h|, g[ref].items[n + i], vs[i]);
        assert f[ref].items[..|g[ref].items|][n + i] == g[ref].items[n + i];
      } else {
        RepresentsStays(f, f, |g|, |h|, f[ref].items[n + i], us[i - |vs|]);
      }
    }
    assert f[ref].items[..n] == f[ref].items[..|g[ref].items|][..n];
  }

  lemma {:induction false} RunWordLines(st: State, base: seq<Frame>, d: nat, ref: nat, fields: seq<(string, Scalar)>, rest: seq<Line>) returns (t: State)
    requires Under(st, base, d, ref) && st.heap[ref].Object? && GoodRecord(fields)
    ensures Under(t, base, d, ref) && Process(st, WordLines(fields, d) + rest) == Process(t, rest)
    ensures Extended(st.heap, t.heap, ref, RecordFields(fields))
    decreases |fields|
  {
    hide GoodKey, GoodWord, Step, Process;
    t := st;
    if fields == [] {
      assert WordLines(fields, d) + rest == rest;
    } else {
      var (key, word) := fields[0];
      var after := WordLines(fields[1..], d) + rest;
      var line := Line(d, key + ": " + Shown(word));
      assert WordLines(fields, d) + rest == [line] + after;
      var next := State(st.heap[ref := Object(st.heap[ref].fields[key := Leaf(word)])], base);
      StepWord(st, base, d, ref, key, word, after);
      ProcessOne(st, line, after, next);
      PoppedBelow(st.stack, d);
      assert Extended(st.heap, next.heap, ref, map[key := Value.Scalar(word)]);
      t := RunWordLines(next, base, d, ref, fields[1..], rest);
      ExtendedTwice(st.heap, next.heap, t.heap, ref, map[key := Value.Scalar(word)], RecordFields(fields[1..]));
    }
  }

  lemma {:induction false} RunItems(st: State, base: seq<Frame>, d: nat, ref: nat, items: seq<Scalar>, rest: seq<Line>) returns (t: State)
    requires Under(st, base, d, ref) && st.heap[ref].List?
    requires forall i :: 0 <= i < |items| ==> GoodWord(items[i]) && ':' !in Shown(items[i])
    ensures Under(t, base, d, ref)
    ensures Process(st, seq(|items|, i requires 0 <= i < |items| => Line(d, "- " + Shown(items[i]))) + rest) == Process(t, rest)
    ensures Lengthened(st.heap, t.heap, ref, seq(|items|, i requires 0 <= i < |items| => Value.Scalar(items[i])))
    decreases |items|
  {
    hide GoodWord, Step, Process;
    t := st;
    var lines := seq(|items|, i requires 0 <= i < |items| => Line(d, "- " + Shown(items[i])));
    var values := seq(|items|, i requires 0 <= i < |items| => Value.Scalar(items[i]));
    if items == [] {
      assert lines + rest == rest;
    } else {
      var tail := items[1..];
      var after := seq(|tail|, i requires 0 <= i < |tail| => Line(d, "- " + Shown(tail[i]))) + rest;
      var line := Line(d, "- " + Shown(items[0]));
      assert lines + rest == [line] + after;
      var next := State(st.heap[ref := List(st.heap[ref].items + [Leaf(items[0])])], base);
      StepItem(st, base, d, ref, items[0], after);
      ProcessOne(st, line, after, next);
      PoppedBelow(st.stack, d);
      var v := Value.Scalar(items[0]);
      assert Lengthened(st.heap, next.heap, ref, [v]);
      t := RunItems(next, base, d, ref, tail, rest);
      var vs := seq(|tail|, i requires 0 <= i < |tail| => Value.Scalar(tail[i]));
      LengthenedTwice(st.heap, next.heap, t.heap, ref, [v], vs);
      assert values == [v] + vs;
    }
  }

  lemma RunRecord(st: State, base: seq<Frame>, d: nat, ref: nat, record: seq<(string, Scalar)>, rest: seq<Line>) returns (t: State)
    requires Under(st, base, d, ref) && st.heap[ref].List? && record != [] && GoodRecord(record)
    ensures Under(t, base, d, ref) && Process(st, RecordLines(record, d) + rest) == Process(t, rest)
    ensures Lengthened(st.heap, t.heap, ref, [Map(RecordFields(record))])
  {
    hide GoodKey, GoodWord, Step, Process, WordLines;
    var (key, word) := record[0];
    var c, tail := |st.heap|, record[1..];
    var line, after := Line(d, "- " + key + ": " + Shown(word)), WordLines(tail, d + 2) + rest;
    assert RecordLines(record, d) + rest == [line] + after;
    var next := State((st.heap + [Object(map[key := Leaf(word)])])[ref := List(st.heap[ref].items + [Ref(c)])],
                      base + [Frame(d, c)]);
    StepRecord(st, base, d, ref, key, word, after);
    ProcessOne(st, line, after, next);
    PoppedFixed(st.stack, d);
    PushedUnder(base, d, c, d + 2);
    t := RunWordLines(next, base + [Frame(d, c)], d + 2, c, tail, rest);
    BackUnder(t.stack, base, d, c, d + 2);
    var more, all := RecordFields(tail), RecordFields(record);
    forall k | k in all
      ensures Represents(t.heap, |st.heap|, t.heap[c].fields[k], all[k])
    {
      if k in more {
        RepresentsStays(t.heap, t.heap, |next.heap|, |st.heap|, t.heap[c].fields[k], more[k]);
      }
    }
    assert Represents(t.heap, |st.heap|, Ref(c), Map(all));
  }

  lemma PoppedFixed(stack: seq<Frame>, d: int)
    ensures Popped(Popped(stack, d), d) == Popped(stack, d)
  {
  }

  lemma {:induction false} RunRecords(st: State, base: seq<Frame>, d: nat, ref: nat, records: seq<seq<(string, Scalar)>>, rest: seq<Line>) returns (t: State)
    requires Under(st, base, d, ref) && st.heap[ref].List?
    requires forall i :: 0 <= i < |records| ==> records[i] != [] && GoodRecord(records[i])
    ensures Under(t, base, d, ref) && Process(st, RecordsLines(records, d) + rest) == Process(t, rest)
    ensures Lengthened(st.heap, t.heap, ref, seq(|records|, i requires 0 <= i < |records| => Map(RecordFields(records[i]))))
    decreases |records|
  {
    hide Process, RecordLines, GoodRecord, RecordFields, Under;
    t := st;
    UnderFacts(st, base, d, ref);
    if records == [] {
      assert RecordsLines(records, d) + rest == rest;
    } else {
      var tail := records[1..];
      var after := RecordsLines(tail, d) + rest;
      assert RecordsLines(records, d) + rest == RecordLines(records[0], d) + after;
      var next := RunRecord(st, base, d, ref, records[0], after);
      UnderFacts(next, base, d, ref);
      t := RunRecords(next, base, d, ref, tail, rest);
      UnderFacts(t, base, d, ref);
      var first := [Map(RecordFields(records[0]))];
      var others := seq(|tail|, i requires 0 <= i < |tail| => Map(RecordFields(tail[i])));
      LengthenedTwice(st.heap, next.heap, t.heap, ref, first, others);
      assert seq(|records|, i requires 0 <= i < |records| => Map(RecordFields(records[i]))) == first + others;
    }
  }

  lemma UnderFacts(st: State, base: seq<Frame>, d: nat, ref: nat)
    requires Under(st, base, d, ref)
    ensures InHeap(st) && ref < |st.heap| && base != [] && Popped(base, d) == base
  {
    PoppedFixed(st.stack, d);
  }

  // What follows a mapping's lines is no deeper than the mapping.
  predicate Follows(rest: seq<Line>, d: nat) {
    rest == [] || rest[0].indent <= d
  }

  lemma FirstFieldLine(m: Mapping, d: nat, w: nat)
    requires GoodMapping(m) && m.Field?
    ensures FieldLines(m, d, w) != [] && FieldLines(m, d, w)[0].indent == d && !StartsWith(FieldLines(m, d, w)[0].text, "- ")
  {
    hide GoodKey;
    if m.child.Word? {
      hide ParseScalar, Trim;
      WordLine(m.key, Shown(m.child.word));
    } else {
      OpenLine(m.key);
    }
  }

  // A key line that opens a container c, and the state in which its lines are read.
  lemma Opened(st: State, base: seq<Frame>, d: nat, ref: nat, key: string, inner: seq<Line>, e: nat, isList: bool) returns (next: State)
    requires Under(st, base, d, ref) && st.heap[ref].Object? && GoodKey(key) && d < e && isList == OpensList(inner, d)
    ensures var c := |st.heap|;
            && Under(next, base + [Frame(d, c)], e, c) && next.heap[c] == (if isList then List([]) else Object(map[]))
            && |next.heap| == c + 1 && Grown(st.heap, next.heap, ref)
            && next.heap[ref] == Object(st.heap[ref].fields[key := Ref(c)])
            && Process(st, [Line(d, key + ":")] + inner) == Process(next, inner)
  {
    hide GoodKey, Step, Process, OpensList;
    var c := |st.heap|;
    var child := if isList then List([]) else Object(map[]);
    next := State((st.heap + [child])[ref := Object(st.heap[ref].fields[key := Ref(c)])], base + [Frame(d, c)]);
    StepOpen(st, base, d, ref, key, inner, child);
    ProcessOne(st, Line(d, key + ":"), inner, next);
    UnderFacts(st, base, d, ref);
    PushedUnder(base, d, c, e);
  }

  // The opened container has been filled with a value.
  lemma Filled(h: Heap, next: Heap, g: Heap, ref: nat, key: string, v: Value)
    requires ref < |h| && h[ref].Object? && Grown(h, next, ref) && |next| == |h| + 1 && |next| <= |g|
    requires next[ref] == Object(h[ref].fields[key := Ref(|h|)])
    requires forall i :: 0 <= i < |h| ==> g[i] == next[i]
    requires Represents(g, |h|, Ref(|h|), v)
    ensures Extended(h, g, ref, map[key := v])
  {
  }

  lemma RunMapping(st: State, base: seq<Frame>, d: nat, w: nat, ref: nat, m: Mapping, rest: seq<Line>) returns (t: State)
    requires Under(st, base, d, ref) && st.heap[ref].Object? && GoodMapping(m) && Follows(rest, d) && w >= 1
    ensures Under(t, base, d, ref) && Process(st, FieldLines(m, d, w) + rest) == Process(t, rest)
    ensures Extended(st.heap, t.heap, ref, Merged(m))
    decreases m, 0
  {
    hide GoodKey, GoodChild, Process, ChildLines, Represents, ValueOf, Under, StartsWith;
    UnderFacts(st, base, d, ref);
    match m
    case Empty =>
      t := st;
      assert FieldLines(m, d, w) + rest == rest;
    case Field(key, child, others) =>
      var after := FieldLines(others, d, w) + rest;
      if others.Field? {
        FirstFieldLine(others, d, w);
      }
      assert FieldLines(m, d, w) + rest == ChildLines(key, child, d, w) + after;
      var next := RunChild(st, base, d, w, ref, key, child, after);
      UnderFacts(next, base, d, ref);
      t := RunMapping(next, base, d, w, ref, others, rest);
      UnderFacts(t, base, d, ref);
      ExtendedTwice(st.heap, next.heap, t.heap, ref, map[key := ValueOf(child)], Merged(others));
  }

  lemma RunChild(st: State, base: seq<Frame>, d: nat, w: nat, ref: nat, key: string, child: Child, rest: seq<Line>) returns (t: State)
    requires Under(st, base, d, ref) && st.heap[ref].Object? && GoodKey(key) && GoodChild(child) && Follows(rest, d) && w >= 1
    ensures Under(t, base, d, ref) && Process(st, ChildLines(key, child, d, w) + rest) == Process(t, rest)
    ensures Extended(st.heap, t.heap, ref, map[key := ValueOf(child)])
    decreases child, 0
  {
    hide GoodKey, GoodWord, GoodRecord, GoodMapping, Process, Merged, Extended, Under, RecordsLines, RecordFields, FieldLines;
    match child
    case Word(word) =>
      t := RunWord(st, base, d, ref, key, word, rest);
    case Nested(mapping) =>
      t := RunNested(st, base, d, w, ref, key, mapping, rest);
    case Words(items) =>
      var lines := seq(|items|, i requires 0 <= i < |items| => Line(d + w, "- " + Shown(items[i])));
      assert ChildLines(key, child, d, w) + rest == [Line(d, key + ":")] + (lines + rest);
      t := RunWords(st, base, d, w, ref, key, items, rest);
    case Records(records) =>
      assert ChildLines(key, child, d, w) + rest == [Line(d, key + ":")] + (RecordsLines(records, d + w) + rest);
      t := RunRecordList(st, base, d, w, ref, key, records, rest);
  }

  lemma RunWord(st: State, base: seq<Frame>, d: nat, ref: nat, key: string, word: Scalar, rest: seq<Line>) returns (t: State)
    requires Under(st, base, d, ref) && st.heap[ref].Object? && GoodKey(key) && GoodWord(word)
    ensures Under(t, base, d, ref) && Process(st, [Line(d, key + ": " + Shown(word))] + rest) == Process(t, rest)
    ensures Extended(st.heap, t.heap, ref, map[key := Value.Scalar(word)])
  {
    hide GoodKey, GoodWord, Process, Step;
    t := State(st.heap[ref := Object(st.heap[ref].fields[key := Leaf(word)])], base);
    UnderFacts(st, base, d, ref);
    StepWord(st, base, d, ref, key, word, rest);
    ProcessOne(st, Line(d, key + ": " + Shown(word)), rest, t);
  }

  lemma RunWords(st: State, base: seq<Frame>, d: nat, w: nat, ref: nat, key: string, items: seq<Scalar>, rest: seq<Line>) returns (t: State)
    requires Under(st, base, d, ref) && st.heap[ref].Object? && GoodKey(key) && w >= 1
    requires items != [] && forall i :: 0 <= i < |items| ==> GoodWord(items[i]) && ':' !in Shown(items[i])
    ensures Under(t, base, d, ref)
    ensures var lines := seq(|items|, i requires 0 <= i < |items| => Line(d + w, "- " + Shown(items[i])));
            Process(st, [Line(d, key + ":")] + (lines + rest)) == Process(t, rest)
    ensures Extended(st.heap, t.heap, ref, map[key := ValueOf(Words(items))])
  {
    hide GoodKey, GoodWord, Process, Extended, Under, Lengthened;
    UnderFacts(st, base, d, ref);
    var lines := seq(|items|, i requires 0 <= i < |items| => Line(d + w, "- " + Shown(items[i])));
    ListOpens(lines + rest, d, Shown(items[0]));
    var next := Opened(st, base, d, ref, key, lines + rest, d + w, true);
    UnderFacts(next, base + [Frame(d, |st.heap|)], d + w, |st.heap|);
    t := RunItems(next, base + [Frame(d, |st.heap|)], d + w, |st.heap|, items, rest);
    FilledList(st, next, t, base, d, d + w, ref, key, ValueOf(Words(items)).items);
  }

  lemma RunRecordList(st: State, base: seq<Frame>, d: nat, w: nat, ref: nat, key: string, records: seq<seq<(string, Scalar)>>, rest: seq<Line>) returns (t: State)
    requires Under(st, base, d, ref) && st.heap[ref].Object? && GoodKey(key) && w >= 1
    requires records != [] && forall i :: 0 <= i < |records| ==> records[i] != [] && GoodRecord(records[i])
    ensures Under(t, base, d, ref)
    ensures Process(st, [Line(d, key + ":")] + (RecordsLines(records, d + w) + rest)) == Process(t, rest)
    ensures Extended(st.heap, t.heap, ref, map[key := ValueOf(Records(records))])
  {
    hide GoodKey, GoodRecord, Process, Extended, Under, Lengthened, RecordsLines, RecordFields, Represents, Step;
    UnderFacts(st, base, d, ref);
    var lines := RecordsLines(records, d + w);
    FirstRecordLine(records, d + w, rest);
    ListOpens(lines + rest, d, records[0][0].0 + ": " + Shown(records[0][0].1));
    var next := Opened(st, base, d, ref, key, lines + rest, d + w, true);
    UnderFacts(next, base + [Frame(d, |st.heap|)], d + w, |st.heap|);
    t := RunRecords(next, base + [Frame(d, |st.heap|)], d + w, |st.heap|, records, rest);
    FilledList(st, next, t, base, d, d + w, ref, key, ValueOf(Records(records)).items);
  }

  lemma FirstRecordLine(records: seq<seq<(string, Scalar)>>, d: nat, rest: seq<Line>)
    requires records != [] && records[0] != []
    ensures var lines := RecordsLines(records, d) + rest;
            lines != [] && lines[0] == Line(d, "- " + (records[0][0].0 + ": " + Shown(records[0][0].1)))
  {
  }

  lemma ListOpens(lines: seq<Line>, d: nat, text: string)
    requires lines != [] && lines[0].indent > d && lines[0].text == "- " + text
    ensures OpensList(lines, d)
  {
  }

  lemma FilledList(st: State, next: State, t: State, base: seq<Frame>, d: nat, e: nat, ref: nat, key: string, vs: seq<Value>)
    requires Under(st, base, d, ref) && st.heap[ref].Object? && d < e
    requires |next.heap| == |st.heap| + 1 && Grown(st.heap, next.heap, ref) && next.heap[|st.heap|] == List([])
    requires next.heap[ref] == Object(st.heap[ref].fields[key := Ref(|st.heap|)])
    requires Under(t, base + [Frame(d, |st.heap|)], e, |st.heap|) && Lengthened(next.heap, t.heap, |st.heap|, vs)
    ensures Under(t, base, d, ref) && Extended(st.heap, t.heap, ref, map[key := Sequence(vs)])
  {
    var c := |st.heap|;
    UnderFacts(st, base, d, ref);
    BackUnder(t.stack, base, d, c, e);
    forall i | 0 <= i < |vs|
      ensures Represents(t.heap, c, t.heap[c].items[i], vs[i])
    {
      RepresentsStays(t.heap, t.heap, c + 1, c, t.heap[c].items[0 + i], vs[i]);
    }
    Filled(st.heap, next.heap, t.heap, ref, key, Sequence(vs));
  }

  lemma FilledMapping(st: State, next: State, t: State, base: seq<Frame>, d: nat, e: nat, ref: nat, key: string, m: map<string, Value>)
    requires Under(st, base, d, ref) && st.heap[ref].Object? && d < e
    requires |next.heap| == |st.heap| + 1 && Grown(st.heap, next.heap, ref) && next.heap[|st.heap|] == Object(map[])
    requires next.heap[ref] == Object(st.heap[ref].fields[key := Ref(|st.heap|)])
    requires Under(t, base + [Frame(d, |st.heap|)], e, |st.heap|) && Extended(next.heap, t.heap, |st.heap|, m)
    ensures Under(t, base, d, ref) && Extended(st.heap, t.heap, ref, map[key := Map(m)])
  {
    var c := |st.heap|;
    UnderFacts(st, base, d, ref);
    BackUnder(t.stack, base, d, c, e);
    forall k | k in m
      ensures Represents(t.heap, c, t.heap[c].fields[k], m[k])
    {
      RepresentsStays(t.heap, t.heap, c + 1, c, t.heap[c].fields[k], m[k]);
    }
    Filled(st.heap, next.heap, t.heap, ref, key, Map(m));
  }

  lemma MappingOpens(m: Mapping, d: nat, e: nat, w: nat, rest: seq<Line>)
    requires GoodMapping(m) && Follows(rest, d)
    ensures !OpensList(FieldLines(m, e, w) + rest, d)
  {
    if m.Field? {
      hide GoodMapping, FieldLines, StartsWith;
      FirstFieldLine(m, e, w);
    }
  }

  lemma RunNested(st: State, base: seq<Frame>, d: nat, w: nat, ref: nat, key: string, mapping: Mapping, rest: seq<Line>) returns (t: State)
    requires Under(st, base, d, ref) && st.heap[ref].Object? && GoodKey(key) && GoodMapping(mapping) && Follows(rest, d) && w >= 1
    ensures Under(t, base, d, ref) && Process(st, [Line(d, key + ":")] + FieldLines(mapping, d + w, w) + rest) == Process(t, rest)
    ensures Extended(st.heap, t.heap, ref, map[key := Map(Merged(mapping))])
    decreases mapping, 1
  {
    hide GoodKey, Process, Merged, Step, GoodMapping, Represents, FieldLines, Under, Extended, OpensList;
    UnderFacts(st, base, d, ref);
    var c, inner := |st.heap|, FieldLines(mapping, d + w, w) + rest;
    MappingOpens(mapping, d, d + w, w, rest);
    assert [Line(d, key + ":")] + FieldLines(mapping, d + w, w) + rest == [Line(d, key + ":")] + inner;
    var next := Opened(st, base, d, ref, key, inner, d + w, false);
    UnderFacts(next, base + [Frame(d, c)], d + w, c);
    t := RunMapping(next, base + [Frame(d, c)], d + w, w, c, mapping, rest);
    FilledMapping(st, next, t, base, d, d + w, ref, key, Merged(mapping));
  }

  /** Parsing undoes printing: whatever comments and blank lines surround the printed lines of a mapping,
      and whatever the indentation width, the parsed heap holds the mapping's value at its root. */
  lemma ParseOfPrinted(m: Mapping, w: nat, text: string)
    requires GoodMapping(m) && w >= 1 && Scan(SplitLines(text)) == FieldLines(m, 0, w)
    ensures Parse(text).Success? && Represents(Parse(text).value, 0, Ref(0), Map(Merged(m)))
  {
    hide GoodMapping, SplitLines, Scan, FieldLines;
    var t := RunMapping(Initial, Initial.stack, 0, w, 0, m, []);
    assert FieldLines(m, 0, w) + [] == FieldLines(m, 0, w);
    forall k | k in Merged(m)
      ensures Represents(t.heap, 0, t.heap[0].fields[k], Merged(m)[k])
    {
      RepresentsStays(t.heap, t.heap, 1, 0, t.heap[0].fields[k], Merged(m)[k]);
    }
  }

  // ----- Text of printed lines

  function Spaces(n: nat): (s: string)
    ensures |s| == n
  {
    seq(n, _ => ' ')
  }

  function Print(lines: seq<Line>): string {
    if lines == [] then "" else Spaces(lines[0].indent) + lines[0].text + "\n" + Print(lines[1..])
  }

  // Text without a comment sign or a line end.
  predicate Unmarked(s: string) {
    '#' !in s && '\n' !in s
  }

  predicate Printable(l: Line) {
    l.text != "" && Trim(l.text) == l.text && Unmarked(l.text)
  }

  lemma {:induction false} SplitOne(line: string, rest: string)
    requires '\n' !in line && (line == "" || line[|line| - 1] != '\r')
    ensures SplitLines(line + "\n" + rest) == [line] + SplitLines(rest)
  {
    var text := line + "\n" + rest;
    if line == "" {
      assert text[1..] == rest;
    } else {
      assert text[0] == line[0] && line[0] != '\n';
      assert text[1..] == line[1..] + "\n" + rest;
      if |line| == 1 {
        assert text[0] != '\r';
      } else {
        assert text[1] == line[1];
      }
      SplitOne(line[1..], rest);
      assert [line[0]] + line[1..] == line;
    }
  }

  lemma {:induction false} NoComment(line: string, quotes: Quotes)
    requires '#' !in line
    ensures Uncommented(line, quotes) == line
  {
    if line != "" {
      NoComment(line[1..], quotes.After(line[0]));
    }
  }

  lemma {:induction false} TrimSpaces(n: nat, text: string)
    requires TrimStart(text) == text
    ensures TrimStart(Spaces(n) + text) == text
  {
    if n == 0 {
      assert Spaces(n) + text == text;
    } else {
      assert (Spaces(n) + text)[0] == ' ' && (Spaces(n) + text)[1..] == Spaces(n - 1) + text;
      TrimSpaces(n - 1, text);
    }
  }

  lemma PrintedSignificant(l: Line)
    requires Printable(l)
    ensures Significant(Spaces(l.indent) + l.text) == Some(l)
  {
    var raw := Spaces(l.indent) + l.text;
    NoComment(raw, Unquoting);
    LastNotSpace(l.text);
    assert raw[|raw| - 1] == l.text[|l.text| - 1];
    assert TrimEnd(raw) == raw;
    TrimTwice(l.text);
    TrimSpaces(l.indent, l.text);
  }

  lemma {:induction false} ScanPrinted(lines: seq<Line>)
    requires forall i :: 0 <= i < |lines| ==> Printable(lines[i])
    ensures Scan(SplitLines(Print(lines))) == lines
  {
    hide Significant, Uncommented, Printable;
    if lines == [] {
      NothingSignificant();
      assert [""][1..] == [];
    } else {
      var l, rest := lines[0], lines[1..];
      assert forall i :: 0 <= i < |rest| ==> rest[i] == lines[i + 1];
      ScanPrinted(rest);
      var raw := Spaces(l.indent) + l.text;
      LineEnds(l);
      SplitOne(raw, Print(rest));
      PrintedSignificant(l);
      assert ([raw] + SplitLines(Print(rest)))[1..] == SplitLines(Print(rest));
    }
  }

  lemma NothingSignificant()
    ensures Significant("") == None
  {
  }

  lemma LineEnds(l: Line)
    requires Printable(l)
    ensures var raw := Spaces(l.indent) + l.text;
            '\n' !in raw && raw != "" && raw[|raw| - 1] != '\r'
  {
    LastNotSpace(l.text);
  }

  predicate UnmarkedMapping(m: Mapping) {
    match m
    case Empty => true
    case Field(key, child, rest) => Unmarked(key) && UnmarkedChild(child) && UnmarkedMapping(rest)
  }

  predicate UnmarkedChild(c: Child) {
    match c
    case Word(word) => Unmarked(Shown(word))
    case Nested(mapping) => UnmarkedMapping(mapping)
    case Words(items) => forall i :: 0 <= i < |items| ==> Unmarked(Shown(items[i]))
    case Records(records) => forall i, j :: 0 <= i < |records| && 0 <= j < |records[i]| ==> Unmarked(records[i][j].0) && Unmarked(Shown(records[i][j].1))
  }

  lemma PairPrintable(key: string, word: Scalar, d: nat)
    requires GoodKey(key) && GoodWord(word) && Unmarked(key) && Unmarked(Shown(word))
    ensures Printable(Line(d, key + ": " + Shown(word))) && Printable(Line(d, "- " + key + ": " + Shown(word)))
  {
    hide IsInteger, IsDecimal, StartsWith;
    var pair := key + ": " + Shown(word);
    TrimmedPair(key, Shown(word));
    assert "- " + key + ": " + Shown(word) == "- " + pair;
    DashPrintable(pair, d);
  }

  lemma DashPrintable(text: string, d: nat)
    requires text != "" && Trim(text) == text && Unmarked(text)
    ensures Printable(Line(d, "- " + text))
  {
    LastNotSpace(text);
    var line := "- " + text;
    assert line[|line| - 1] == text[|text| - 1];
  }

  lemma KeyPrintable(key: string, d: nat)
    requires GoodKey(key) && Unmarked(key)
    ensures Printable(Line(d, key + ":"))
  {
    TrimTwice(key);
    FirstNotSpace(key);
    var line := key + ":";
    assert line[|line| - 1] == ':';
    if key != "" {
      assert line[0] == key[0];
    }
  }

  predicate AllPrintable(lines: seq<Line>) {
    forall i :: 0 <= i < |lines| ==> Printable(lines[i])
  }

  lemma PrintableConcat(a: seq<Line>, b: seq<Line>)
    requires AllPrintable(a) && AllPrintable(b)
    ensures AllPrintable(a + b)
  {
  }

  lemma {:induction false} RecordsPrintable(records: seq<seq<(string, Scalar)>>, d: nat)
    requires forall i :: 0 <= i < |records| ==> records[i] != [] && GoodRecord(records[i])
    requires UnmarkedChild(Records(records))
    ensures AllPrintable(RecordsLines(records, d))
  {
    hide GoodKey, GoodWord, Unmarked, Printable;
    if records != [] {
      var record := records[0];
      forall j, e: nat | 0 <= j < |record|
        ensures Printable(Line(e, record[j].0 + ": " + Shown(record[j].1))) && Printable(Line(e, "- " + record[j].0 + ": " + Shown(record[j].1)))
      {
        PairPrintable(record[j].0, record[j].1, e);
      }
      assert AllPrintable(RecordLines(record, d));
      RecordsPrintable(records[1..], d);
      PrintableConcat(RecordLines(record, d), RecordsLines(records[1..], d));
    }
  }

  lemma {:induction false} FieldsPrintable(m: Mapping, d: nat, w: nat)
    requires GoodMapping(m) && UnmarkedMapping(m)
    ensures AllPrintable(FieldLines(m, d, w))
    decreases m
  {
    hide GoodKey, GoodWord, Unmarked, Printable;
    match m
    case Empty =>
    case Field(key, child, rest) =>
      FieldsPrintable(rest, d, w);
      KeyPrintable(key, d);
      match child {
        case Word(word) => PairPrintable(key, word, d);
        case Nested(mapping) => FieldsPrintable(mapping, d + w, w);
        case Words(items) =>
          forall i | 0 <= i < |items|
            ensures Printable(Line(d + w, "- " + Shown(items[i])))
          {
            WordPrintable(items[i], d + w);
          }
        case Records(records) => RecordsPrintable(records, d + w);
      }
      assert AllPrintable(ChildLines(key, child, d, w));
      PrintableConcat(ChildLines(key, child, d, w), FieldLines(rest, d, w));
  }

  lemma WordPrintable(word: Scalar, d: nat)
    requires GoodWord(word) && Unmarked(Shown(word))
    ensures Printable(Line(d, "- " + Shown(word)))
  {
    hide IsInteger, IsDecimal;
    DashPrintable(Shown(word), d);
  }

  /** The printed text itself, for a mapping whose keys and words hold no comment sign and no line end. */
  lemma ParseOfPrint(m: Mapping, w: nat)
    requires GoodMapping(m) && UnmarkedMapping(m) && w >= 1
    ensures var parsed := Parse(Print(FieldLines(m, 0, w)));
            parsed.Success? && Represents(parsed.value, 0, Ref(0), Map(Merged(m)))
  {
    hide Parse, Represents, GoodMapping, UnmarkedMapping, Print, Scan, SplitLines, Printable;
    FieldsPrintable(m, 0, w);
    ScanPrinted(FieldLines(m, 0, w));
    ParseOfPrinted(m, w, Print(FieldLines(m, 0, w)));
  }
}
