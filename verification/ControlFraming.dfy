/** The newline framing of the control socket, and the texts `writeResponse` puts on it. */
module ControlFraming {
  import opened Options
  import opened ScriptText

  const NEWLINE := '\n'

  /** `indexOf("\n")`, with the length standing for "not found". */
  function NewlineIndex(s: string): (i: nat)
    ensures i <= |s| && NEWLINE !in s[..i] && (i < |s| ==> s[i] == NEWLINE)
  {
    if s == "" || s[0] == NEWLINE then 0 else 1 + NewlineIndex(s[1..])
  }

  // ---------------------------------------------------------------- lines of a text

  /** The terminated lines of a text, without their newlines. */
  function Lines(s: string): seq<string>
    decreases |s|
  {
    var i := NewlineIndex(s);
    if i == |s| then [] else [s[..i]] + Lines(s[i + 1..])
  }

  /** What follows the last newline. */
  function Tail(s: string): string
    decreases |s|
  {
    var i := NewlineIndex(s);
    if i == |s| then s else Tail(s[i + 1..])
  }

  /** Every line with its newline put back, one after the other. */
  function Unlines(lines: seq<string>): string {
    if lines == [] then "" else lines[0] + [NEWLINE] + Unlines(lines[1..])
  }

  predicate OneLine(s: string) { NEWLINE !in s }

  lemma {:induction false} NewlineComesAfter(line: string, rest: string)
    requires OneLine(line)
    ensures NewlineIndex(line) == |line|
    ensures NewlineIndex(line + [NEWLINE] + rest) == |line|
  {
    var s := line + [NEWLINE] + rest;
    if line != "" {
      assert s[1..] == line[1..] + [NEWLINE] + rest;
      assert line[0] in line && s[0] == line[0];
      NewlineComesAfter(line[1..], rest);
    }
  }

  lemma NoNewlineNoLines(s: string)
    requires OneLine(s)
    ensures Lines(s) == [] && Tail(s) == s
  {
    NewlineComesAfter(s, "");
  }

  lemma LineThenRest(line: string, rest: string)
    requires OneLine(line)
    ensures Lines(line + [NEWLINE] + rest) == [line] + Lines(rest)
    ensures Tail(line + [NEWLINE] + rest) == Tail(rest)
  {
    var s := line + [NEWLINE] + rest;
    NewlineComesAfter(line, rest);
    assert s[..|line|] == line && s[|line| + 1..] == rest;
  }

  /** The first line, and the two functions on what comes after it. */
  lemma FirstLine(s: string)
    requires NewlineIndex(s) < |s|
    ensures var i := NewlineIndex(s);
      var line, rest := s[..i], s[i + 1..];
      && OneLine(line) && s == line + [NEWLINE] + rest
      && Lines(s) == [line] + Lines(rest) && Tail(s) == Tail(rest)
  {
  }

  lemma {:induction false} SplitJoins(s: string)
    ensures Unlines(Lines(s)) + Tail(s) == s
    ensures OneLine(Tail(s)) && forall line <- Lines(s) :: OneLine(line)
    decreases |s|
  {
    hide Lines, Tail;
    var i := NewlineIndex(s);
    if i == |s| {
      assert s[..i] == s;
      NoNewlineNoLines(s);
    } else {
      var line, rest := s[..i], s[i + 1..];
      FirstLine(s);
      SplitJoins(rest);
      assert Lines(s)[1..] == Lines(rest);
      assert Unlines(Lines(s)) + Tail(s) == line + [NEWLINE] + (Unlines(Lines(rest)) + Tail(rest));
    }
  }

  lemma {:induction false} SplitOfJoined(lines: seq<string>, tail: string)
    requires OneLine(tail) && forall line <- lines :: OneLine(line)
    ensures Lines(Unlines(lines) + tail) == lines && Tail(Unlines(lines) + tail) == tail
  {
    hide Lines, Tail;
    if lines == [] {
      assert Unlines(lines) + tail == tail;
      NoNewlineNoLines(tail);
    } else {
      SplitOfJoined(lines[1..], tail);
      LineThenRest(lines[0], Unlines(lines[1..]) + tail);
      assert Unlines(lines) + tail == lines[0] + [NEWLINE] + (Unlines(lines[1..]) + tail);
    }
  }

  /** Lines and tail are the one way to read a text as newline-terminated lines and an unterminated rest. */
  lemma LinesAreTheOnlySplit(s: string, lines: seq<string>, tail: string)
    ensures (lines == Lines(s) && tail == Tail(s))
      <==> (s == Unlines(lines) + tail && OneLine(tail) && forall line <- lines :: OneLine(line))
  {
    hide Lines, Tail, Unlines;
    SplitJoins(s);
    if s == Unlines(lines) + tail && OneLine(tail) && forall line <- lines :: OneLine(line) {
      SplitOfJoined(lines, tail);
    }
  }

  /** Splitting what arrives later together with the unterminated tail gives the remaining lines. */
  lemma {:induction false} SplitResumes(a: string, b: string)
    ensures Lines(a + b) == Lines(a) + Lines(Tail(a) + b)
    ensures Tail(a + b) == Tail(Tail(a) + b)
    decreases |a|
  {
    var i := NewlineIndex(a);
    if i < |a| {
      FirstNewlineStays(a, b);
      assert (a + b)[..i] == a[..i];
      assert (a + b)[i + 1..] == a[i + 1..] + b;
      SplitResumes(a[i + 1..], b);
    }
  }

  lemma {:induction false} FirstNewlineStays(a: string, b: string)
    requires NewlineIndex(a) < |a|
    ensures NewlineIndex(a + b) == NewlineIndex(a)
  {
    if a[0] != NEWLINE {
      assert (a + b)[1..] == a[1..] + b;
      FirstNewlineStays(a[1..], b);
    }
  }

  // ---------------------------------------------------------------- what is dispatched

  /** The lines as they are handed on: trimmed, and only the non-empty ones. */
  function Commands(lines: seq<string>): seq<string> {
    if lines == [] then []
    else (if Trim(lines[0]) == "" then [] else [Trim(lines[0])]) + Commands(lines[1..])
  }

  predicate Blank(line: string) { forall c <- line :: IsSpace(c) }

  /** A line is handed on trimmed, and a blank one not at all. */
  lemma OneCommand(line: string)
    ensures Commands([line]) == if Blank(line) then [] else [Trim(line)]
  {
    hide Trim;
    TrimResult(line);
    assert forall i :: 0 <= i < |line| ==> line[i] in line;
    assert Commands([]) == [];
  }

  /** Lines are handed on one by one: what is handed on of several is what is handed on of each, in order. */
  lemma {:induction false} CommandsConcat(a: seq<string>, b: seq<string>)
    ensures Commands(a + b) == Commands(a) + Commands(b)
  {
    hide Trim;
    if a == [] {
      assert a + b == b;
    } else {
      var first := if Trim(a[0]) == "" then [] else [Trim(a[0])];
      CommandsConcat(a[1..], b);
      assert (a + b)[0] == a[0] && (a + b)[1..] == a[1..] + b;
      assert Commands(a + b) == first + Commands(a[1..] + b);
      assert Commands(a) == first + Commands(a[1..]);
    }
  }

  /** The first line of a text is dispatched trimmed, or not at all, and then what its rest dispatches. */
  lemma FirstCommand(s: string)
    requires NewlineIndex(s) < |s|
    ensures var line, rest := Trim(s[..NewlineIndex(s)]), s[NewlineIndex(s) + 1..];
      && Commands(Lines(s)) == (if line == "" then [] else [line]) + Commands(Lines(rest))
      && Tail(s) == Tail(rest)
  {
    hide Trim, Lines, Tail;
    FirstLine(s);
    assert Lines(s)[1..] == Lines(s[NewlineIndex(s) + 1..]);
  }

  class Connection {
    var buffer: string

    constructor ()
      ensures buffer == ""
    {
      buffer := "";
    }

    /** The `data` handler: returns the lines it dispatches, in order. */
    method OnData(chunk: string) returns (dispatched: seq<string>)
      modifies this
      ensures dispatched == Commands(Lines(old(buffer) + chunk))
      ensures buffer == Tail(old(buffer) + chunk)
    {
      hide Trim, Lines, Tail, Commands;
      dispatched := [];
      buffer := buffer + chunk;
      ghost var whole := buffer;
      var newlineIndex := NewlineIndex(buffer);
      while newlineIndex < |buffer|
        invariant newlineIndex == NewlineIndex(buffer)
        invariant dispatched + Commands(Lines(buffer)) == Commands(Lines(whole))
        invariant Tail(buffer) == Tail(whole)
        decreases |buffer|
      {
        var line := Trim(buffer[..newlineIndex]);
        FirstCommand(buffer);
        buffer := buffer[newlineIndex + 1..];
        newlineIndex := NewlineIndex(buffer);
        if line == "" { continue; }
        dispatched := dispatched + [line];
      }
      assert buffer[..newlineIndex] == buffer;
      NoNewlineNoLines(buffer);
      NothingToDispatch();
    }
  }

  lemma NothingToDispatch()
    ensures Commands([]) == []
  {
  }

  // ---------------------------------------------------------------- chunking does not matter

  function Joined(chunks: seq<string>): string {
    if chunks == [] then "" else chunks[0] + Joined(chunks[1..])
  }

  /** All lines dispatched while the chunks arrive one by one, and the buffer kept at the end. */
  function Fed(buffer: string, chunks: seq<string>): (seq<string>, string)
    decreases |chunks|
  {
    if chunks == [] then ([], buffer)
    else
      var text := buffer + chunks[0];
      var later := Fed(Tail(text), chunks[1..]);
      (Commands(Lines(text)) + later.0, later.1)
  }

  lemma {:induction false} FedFrom(buffer: string, chunks: seq<string>)
    requires OneLine(buffer)
    ensures Fed(buffer, chunks) == (Commands(Lines(buffer + Joined(chunks))), Tail(buffer + Joined(chunks)))
    decreases |chunks|
  {
    hide Lines, Tail;
    if chunks == [] {
      assert buffer + Joined(chunks) == buffer;
      NoNewlineNoLines(buffer);
    } else {
      var text, rest := buffer + chunks[0], Joined(chunks[1..]);
      SplitJoins(text);
      FedFrom(Tail(text), chunks[1..]);
      SplitResumes(text, rest);
      CommandsConcat(Lines(text), Lines(Tail(text) + rest));
      assert buffer + Joined(chunks) == text + rest;
    }
  }

  /**
   However the stream is cut, the dispatched lines are the non-empty trimmed lines of the whole
   stream, in order, and the buffer is its unterminated tail.
   */
  lemma ChunkingIsInvisible(chunks: seq<string>)
    ensures Fed("", chunks) == (Commands(Lines(Joined(chunks))), Tail(Joined(chunks)))
  {
    FedFrom("", chunks);
    assert "" + Joined(chunks) == Joined(chunks);
  }

  // ---------------------------------------------------------------- written responses come back whole

  type Digit = n: nat | n < 10

  /** A finite number as the language prints it: `12`, `-0.5`, `1.5e-7`, `1e+21`. */
  datatype Number = Number(negative: bool, whole: nat, fraction: seq<Digit>, exponent: Option<int>)

  /** A value `JSON.stringify` prints; object members keep their order. */
  datatype Value =
    | NullValue
    | BoolValue(flag: bool)
    | NumberValue(number: Number)
    | TextValue(text: string)
    | ListValue(items: seq<Value>)
    | ObjectValue(members: seq<Field>)

  datatype Field = Field(name: string, value: Value)

  function HexDigit(n: nat): char
    requires n < 16
  {
    "0123456789abcdef"[n]
  }

  /** Section 7 of RFC 8259: quotation mark, backslash and control characters never appear as themselves. */
  function Escaped(c: char): string {
    match c
    case '\"' => "\\\""
    case '\\' => "\\\\"
    case '\n' => "\\n"
    case '\r' => "\\r"
    case '\t' => "\\t"
    case _ =>
      var n := c as int;
      if n == 8 then "\\b"
      else if n == 12 then "\\f"
      else if n < 0x20 then "\\u00" + [HexDigit(n / 16), HexDigit(n % 16)]
      else [c]
  }

  function EscapedAll(s: string): string {
    if s == "" then "" else Escaped(s[0]) + EscapedAll(s[1..])
  }

  function Quoted(s: string): string { "\"" + EscapedAll(s) + "\"" }

  function Digits(n: nat): string {
    if n < 10 then [HexDigit(n)] else Digits(n / 10) + [HexDigit(n % 10)]
  }

  function FractionText(digits: seq<Digit>): string {
    if digits == [] then "" else [HexDigit(digits[0])] + FractionText(digits[1..])
  }

  function ExponentText(n: int): string { if n < 0 then "e-" + Digits(-n) else "e+" + Digits(n) }

  function NumberText(n: Number): string {
    (if n.negative then "-" else "") + Digits(n.whole)
    + (if n.fraction == [] then "" else "." + FractionText(n.fraction))
    + (if n.exponent.None? then "" else ExponentText(n.exponent.value))
  }

  function Text(v: Value): string
    decreases v, 1
  {
    match v
    case NullValue => "null"
    case BoolValue(flag) => if flag then "true" else "false"
    case NumberValue(n) => NumberText(n)
    case TextValue(text) => Quoted(text)
    case ListValue(items) => "[" + ItemsText(items) + "]"
    case ObjectValue(members) => "{" + MembersText(members) + "}"
  }

  function ItemsText(items: seq<Value>): string
    decreases items, 0
  {
    if items == [] then ""
    else if |items| == 1 then Text(items[0])
    else Text(items[0]) + "," + ItemsText(items[1..])
  }

  function MembersText(members: seq<Field>): string
    decreases members, 0
  {
    if members == [] then ""
    else
      var first := Quoted(members[0].name) + ":" + Text(members[0].value);
      if |members| == 1 then first else first + "," + MembersText(members[1..])
  }

  function HexValue(c: char): Option<nat> {
    if '0' <= c <= '9' then Some(c as nat - '0' as nat)
    else if 'a' <= c <= 'f' then Some(c as nat - 'a' as nat + 10)
    else if 'A' <= c <= 'F' then Some(c as nat - 'A' as nat + 10)
    else None
  }

  /** One character of a JSON string as a reader takes it, and how many characters it took; None where it ends. */
  function ReadOne(text: string): Option<(char, nat)> {
    if text == "" || text[0] == '\"' || text[0] as int < 0x20 then None
    else if text[0] != '\\' then Some((text[0], 1))
    else if |text| < 2 then None
    else match text[1]
      case '\"' => Some(('\"', 2))
      case '\\' => Some(('\\', 2))
      case '/' => Some(('/', 2))
      case 'b' => Some((8 as char, 2))
      case 'f' => Some((12 as char, 2))
      case 'n' => Some(('\n', 2))
      case 'r' => Some(('\r', 2))
      case 't' => Some(('\t', 2))
      case 'u' =>
        if |text| < 6 || text[2..4] != "00" || HexValue(text[4]).None? || HexValue(text[5]).None? then None
        else Some(((16 * HexValue(text[4]).value + HexValue(text[5]).value) as char, 6))
      case _ => None
  }

  /** The characters of a string up to its closing quotation mark, and what follows that. */
  function ReadQuoted(text: string): Option<(string, string)>
    decreases |text|
  {
    if text == "" then None
    else if text[0] == '\"' then Some(("", text[1..]))
    else match ReadOne(text)
      case None => None
      case Some((c, n)) =>
        if n == 0 || n > |text| then None
        else match ReadQuoted(text[n..])
          case None => None
          case Some((s, rest)) => Some(([c] + s, rest))
  }

  /** An escaped character is read back as itself; it stands for itself from the space on, but for two characters. */
  lemma EscapedExactly(c: char, more: string)
    ensures ReadOne(Escaped(c) + more) == Some((c, |Escaped(c)|)) && Escaped(c) != "" && Escaped(c)[0] != '\"'
    ensures Escaped(c) == [c] <==> c as int >= 0x20 && c != '\"' && c != '\\'
  {
    var n, e := c as int, Escaped(c);
    var text := e + more;
    assert text[..|e|] == e;
    if n < 0x20 && |e| == 6 {
      assert text[2..4] == e[2..4] == "00";
      assert text[4] == HexDigit(n / 16) && text[5] == HexDigit(n % 16);
      HexReadsBack(n / 16);
      HexReadsBack(n % 16);
    }
  }

  lemma HexReadsBack(n: nat)
    requires n < 16
    ensures HexValue(HexDigit(n)) == Some(n)
  {
  }

  /** A quoted text is read back whole, and the reader stops where it ends. */
  lemma {:induction false} QuotedReadsBack(s: string, rest: string)
    ensures ReadQuoted(EscapedAll(s) + "\"" + rest) == Some((s, rest))
  {
    hide Escaped, ReadOne;
    if s == "" {
      assert EscapedAll(s) + "\"" + rest == "\"" + rest;
    } else {
      var e, more := Escaped(s[0]), EscapedAll(s[1..]) + "\"" + rest;
      var text := EscapedAll(s) + "\"" + rest;
      assert text == e + more;
      EscapedExactly(s[0], more);
      QuotedReadsBack(s[1..], rest);
      assert text[|e|..] == more && text[0] == e[0];
      assert [s[0]] + s[1..] == s;
    }
  }

  lemma {:induction false} EscapedAllOneLine(s: string)
    ensures OneLine(EscapedAll(s))
  {
    if s != "" {
      EscapedAllOneLine(s[1..]);
      assert OneLine(Escaped(s[0])) by {
        var n := s[0] as int;
        if n < 0x20 { assert forall d: nat :: d < 16 ==> HexDigit(d) != NEWLINE; }
      }
    }
  }

  lemma {:induction false} DigitsOneLine(n: nat)
    ensures OneLine(Digits(n))
  {
    if n >= 10 { DigitsOneLine(n / 10); }
  }

  lemma {:induction false} FractionOneLine(digits: seq<Digit>)
    ensures OneLine(FractionText(digits))
  {
    if digits != [] { FractionOneLine(digits[1..]); }
  }

  lemma NumberOneLine(n: Number)
    ensures OneLine(NumberText(n))
  {
    hide Digits, FractionText;
    DigitsOneLine(n.whole);
    FractionOneLine(n.fraction);
    if n.exponent.Some? {
      var e := n.exponent.value;
      DigitsOneLine(if e < 0 then -e else e);
    }
  }

  lemma {:induction false} TextOneLine(v: Value)
    ensures OneLine(Text(v))
    decreases v, 1
  {
    hide EscapedAll, NumberText, ItemsText, MembersText;
    match v
    case NullValue =>
    case BoolValue(_) =>
    case NumberValue(n) => NumberOneLine(n);
    case TextValue(text) => EscapedAllOneLine(text);
    case ListValue(items) => ItemsOneLine(items);
    case ObjectValue(members) => MembersOneLine(members);
  }

  lemma {:induction false} ItemsOneLine(items: seq<Value>)
    ensures OneLine(ItemsText(items))
    decreases items, 0
  {
    if items != [] {
      TextOneLine(items[0]);
      ItemsOneLine(items[1..]);
    }
  }

  lemma {:induction false} MembersOneLine(members: seq<Field>)
    ensures OneLine(MembersText(members))
    decreases members, 0
  {
    if members != [] {
      EscapedAllOneLine(members[0].name);
      TextOneLine(members[0].value);
      MembersOneLine(members[1..]);
    }
  }

  /** `writeResponse`, once per response. */
  function Written(responses: seq<Value>): string {
    if responses == [] then "" else Text(responses[0]) + "\n" + Written(responses[1..])
  }

  function Texts(responses: seq<Value>): seq<string> {
    if responses == [] then [] else [Text(responses[0])] + Texts(responses[1..])
  }

  lemma ObjectTextTrimmed(v: Value)
    requires v.ObjectValue?
    ensures Text(v) != "" && Trimmed(Text(v))
  {
    assert Text(v) == "{" + MembersText(v.members) + "}";
  }

  lemma {:induction false} WrittenLines(responses: seq<Value>)
    requires forall r <- responses :: r.ObjectValue?
    ensures Written(responses) == Unlines(Texts(responses))
    ensures forall line <- Texts(responses) :: OneLine(line)
    ensures Commands(Texts(responses)) == Texts(responses)
  {
    hide Text, Trim, Trimmed;
    if responses != [] {
      var line := Text(responses[0]);
      TextOneLine(responses[0]);
      ObjectTextTrimmed(responses[0]);
      TrimOfTrimmed(line);
      WrittenLines(responses[1..]);
      assert Texts(responses)[1..] == Texts(responses[1..]);
    }
  }

  /** However the bytes of a sequence of written responses are cut, the peer's framing returns them one per line. */
  lemma WrittenResponsesComeBack(responses: seq<Value>, chunks: seq<string>)
    requires forall r <- responses :: r.ObjectValue?
    requires Joined(chunks) == Written(responses)
    ensures Fed("", chunks) == (Texts(responses), "")
  {
    WrittenLines(responses);
    assert Unlines(Texts(responses)) + "" == Written(responses);
    SplitOfJoined(Texts(responses), "");
    ChunkingIsInvisible(chunks);
  }
}
