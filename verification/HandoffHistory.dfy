/** The conversation summary that a handoff writes for the next agent, and how it is read back. */
module HandoffHistory {
  import opened Items

  // ---- text ----

  /** The characters that trimming removes. */
  predicate IsSpace(c: char) {
    || '\U{0009}' <= c <= '\U{000D}' || c == ' ' || c == '\U{0085}' || c == '\U{00A0}' || c == '\U{1680}'
    || '\U{2000}' <= c <= '\U{200A}' || c == '\U{2028}' || c == '\U{2029}' || c == '\U{202F}' || c == '\U{205F}'
      || c == '\U{3000}'
  }

  function TrimStart(s: string): string {
    if s != "" && IsSpace(s[0]) then TrimStart(s[1..]) else s
  }

  function TrimEnd(s: string): string {
    if s != "" && IsSpace(s[|s| - 1]) then TrimEnd(s[..|s| - 1]) else s
  }

  function Trim(s: string): string { TrimEnd(TrimStart(s)) }

  function SplitOnce(s: string, c: char): (r: Option<(string, string)>)
    ensures r.Some? ==> s == r.value.0 + [c] + r.value.1 && c !in r.value.0
    ensures r.None? <==> c !in s
  {
    if s == "" then None
    else if s[0] == c then
      assert s == "" + [c] + s[1..];
      Some(("", s[1..]))
    else match SplitOnce(s[1..], c)
      case None => None
      case Some(parts) =>
        assert s == [s[0]] + parts.0 + [c] + parts.1;
        Some(([s[0]] + parts.0, parts.1))
  }

  lemma {:induction false} SplitOnceIs(a: string, c: char, b: string)
    requires c !in a
    ensures SplitOnce(a + [c] + b, c) == Some((a, b))
  {
    if a == "" {
      assert (a + [c] + b)[1..] == b;
    } else {
      assert a == [a[0]] + a[1..];
      assert (a + [c] + b)[1..] == a[1..] + [c] + b;
      SplitOnceIs(a[1..], c, b);
    }
  }

  predicate Matches(s: string, pattern: string, i: nat) {
    i + |pattern| <= |s| && s[i..i + |pattern|] == pattern
  }

  /** The first occurrence at or after `from`. */
  function FindFrom(s: string, pattern: string, from: nat): (r: Option<nat>)
    requires from <= |s|
    ensures match r
      case Some(i) => from <= i <= |s| && Matches(s, pattern, i) && forall j: nat ::
        from <= j < i ==> !Matches(s, pattern, j)
      case None => forall j: nat :: from <= j <= |s| ==> !Matches(s, pattern, j)
    decreases |s| - from
  {
    if Matches(s, pattern, from) then Some(from)
    else if from == |s| then None
    else FindFrom(s, pattern, from + 1)
  }

  function Find(s: string, pattern: string): Option<nat> { FindFrom(s, pattern, 0) }

  ghost predicate Contains(s: string, pattern: string) {
    exists i: nat :: Matches(s, pattern, i)
  }

  function Lines(s: string): seq<string>
    decreases |s|
  {
    if s == "" then []
    else match SplitOnce(s, '\n')
      case None => [s]
      case Some(parts) => [parts.0] + Lines(parts.1)
  }

  function WithoutReturn(line: string): string {
    if line != "" && line[|line| - 1] == '\r' then line[..|line| - 1] else line
  }

  function Join(parts: seq<string>): string {
    if parts == [] then "" else if |parts| == 1 then parts[0] else parts[0] + "\n" + Join(parts[1..])
  }

  // ---- numbers ----

  const USIZE_END := 0x1_0000_0000_0000_0000

  predicate IsDigit(c: char) { '0' <= c <= '9' }

  function Digit(d: nat): char
    requires d < 10
  {
    ['0', '1', '2', '3', '4', '5', '6', '7', '8', '9'][d]
  }

  function Decimal(n: nat): string {
    if n < 10 then [Digit(n)] else Decimal(n / 10) + [Digit(n % 10)]
  }

  function DigitsValue(s: string): Option<nat> {
    if s == "" then Some(0)
    else match DigitsValue(s[..|s| - 1])
      case None => None
      case Some(v) => if IsDigit(s[|s| - 1]) then Some(10 * v + (s[|s| - 1] as int - '0' as int)) else None
  }

  /** An optional plus sign, then at least one digit, and no overflow. */
  function ParseUsize(s: string): Option<nat> {
    var digits := if s != "" && s[0] == '+' then s[1..] else s;
    if digits == "" then None
    else match DigitsValue(digits)
      case None => None
      case Some(v) => if v < USIZE_END then Some(v) else None
  }

  lemma DigitsPush(s: string, v: nat, d: nat)
    requires DigitsValue(s) == Some(v) && d < 10
    ensures DigitsValue(s + [Digit(d)]) == Some(10 * v + d) && IsDigit(Digit(d))
  {
    assert (s + [Digit(d)])[..|s|] == s;
  }

  lemma {:induction false} DecimalParses(n: nat)
    ensures Decimal(n) != "" && DigitsValue(Decimal(n)) == Some(n) && forall c :: c in Decimal(n) ==> IsDigit(c)
  {
    if n < 10 {
      assert [Digit(n)][..0] == "";
    } else {
      DecimalParses(n / 10);
      DigitsPush(Decimal(n / 10), n / 10, n % 10);
    }
  }

  // ---- writing the summary ----

  const HEADER_START := "For context, here is the "
  const HEADER_MIDDLE := "conversation so far between "
  const HEADER_END := "the user and the previous agent:"
  const HEADER := HEADER_START + HEADER_MIDDLE + HEADER_END
  const NO_TURNS := "(no previous turns recorded)"

  datatype Wrappers = Wrappers(start: string, end: string)

  const DEFAULT_WRAPPERS := Wrappers("<CONVERSATION HISTORY>", "</CONVERSATION HISTORY>")

  /** Members that are not texts are written as JSON; `render` is that serialisation. */
  function StringifyContent(value: Json, render: Json -> string): string {
    if value.Str? then value.s else render(value)
  }

  function ContentOf(value: Json, render: Json -> string): string {
    match Get(value, "content")
    case None => ""
    case Some(content) => StringifyContent(content, render)
  }

  function FormatTranscriptItem(item: InputItem, render: Json -> string): string {
    match item
    case Text(text) => "user: " + text
    case JsonItem(value) =>
      match GetStr(value, "role")
      case Some(role) =>
        var content := ContentOf(value, render);
        if content == "" then role else role + ": " + content
      case None =>
        (match GetStr(value, "type") case Some(t) => t case None => "item") + ": " + StringifyContent(value, render)
  }

  function SummaryLines(transcript: seq<InputItem>, render: Json -> string): seq<string> {
    if transcript == [] then [NO_TURNS]
    else
      seq(|transcript|, i requires 0 <= i < |transcript| =>
        Decimal(i + 1) + ". " + FormatTranscriptItem(transcript[i], render))
  }

  function Message(role: string, content: string): InputItem {
    JsonItem(Obj(map["role" := Str(role), "content" := Str(content)]))
  }

  function BuildSummaryMessage(transcript: seq<InputItem>, w: Wrappers, render: Json -> string): InputItem {
    Message("assistant", Join([HEADER, w.start] + SummaryLines(transcript, render) + [w.end]))
  }

  // ---- reading it back ----

  function ParseSummaryLine(line: string): Option<InputItem> {
    var stripped := Trim(match SplitOnce(line, '.')
      case Some(parts) => if ParseUsize(parts.0).Some? then Trim(parts.1) else line
      case None => line);
    match SplitOnce(stripped, ':')
    case None => None
    case Some(parts) => if Trim(parts.1) == "" then None else Some(Message(Trim(parts.0), Trim(parts.1)))
  }

  function ReadLine(line: string): Option<InputItem> {
    var trimmed := Trim(WithoutReturn(line));
    if trimmed == "" then None else ParseSummaryLine(trimmed)
  }

  /** The lines that can be read, in order. */
  function ParseLines(lines: seq<string>): seq<InputItem> {
    if lines == [] then []
    else match ReadLine(lines[0])
      case None => ParseLines(lines[1..])
      case Some(item) => [item] + ParseLines(lines[1..])
  }

  /** `Panics`: the end marker begins inside the start marker, so that the text between them would end
      before it begins. */
  datatype Extraction = NotNested | Nested(items: seq<InputItem>) | Panics

  function Between(content: string, start: nat, end: nat): Extraction
    requires start <= end <= |content|
  {
    Nested(ParseLines(Lines(content[start..end])))
  }

  function ExtractText(content: string, w: Wrappers): Extraction {
    var start, end := Find(content, w.start), Find(content, w.end);
    if start.None? || end.None? || end.value <= start.value then NotNested
    else if end.value < start.value + |w.start| then Panics
    else Between(content, start.value + |w.start|, end.value)
  }

  function Extract(item: InputItem, w: Wrappers): Extraction {
    if item.Text? || GetStr(item.value, "content").None? then NotNested
    else ExtractText(GetStr(item.value, "content").value, w)
  }

  // ---- one line ----

  lemma {:induction false} TrimEndAppend(a: string, b: string)
    ensures TrimEnd(a + b) == if TrimEnd(b) == "" then TrimEnd(a) else a + TrimEnd(b)
  {
    if b == "" {
      assert a + b == a;
    } else if IsSpace(b[|b| - 1]) {
      assert (a + b)[..|a + b| - 1] == a + b[..|b| - 1];
      TrimEndAppend(a, b[..|b| - 1]);
    }
  }

  lemma {:induction false} TrimStartAppend(a: string, b: string)
    ensures TrimStart(a + b) == if TrimStart(a) == "" then TrimStart(b) else TrimStart(a) + b
  {
    if a == "" {
      assert a + b == b;
    } else if IsSpace(a[0]) {
      assert (a + b)[1..] == a[1..] + b;
      TrimStartAppend(a[1..], b);
    }
  }

  lemma {:induction false} TrimStartKeeps(s: string)
    ensures TrimStart(s) != "" ==> !IsSpace(TrimStart(s)[0])
    ensures |TrimStart(s)| <= |s| && forall c :: c in TrimStart(s) ==> c in s
    ensures TrimStart(s) == "" <==> TrimEnd(s) == ""
  {
    if s != "" {
      assert s == [s[0]] + s[1..];
      TrimEndAppend([s[0]], s[1..]);
      assert [s[0]][..0] == "";
      if IsSpace(s[0]) { TrimStartKeeps(s[1..]); }
    }
  }

  lemma {:induction false} TrimEndKeeps(s: string)
    ensures TrimEnd(s) != "" ==> !IsSpace(TrimEnd(s)[|TrimEnd(s)| - 1])
    ensures TrimEnd(s) <= s && (TrimEnd(s) != "" ==> TrimEnd(s)[0] == s[0])
  {
    if s != "" && IsSpace(s[|s| - 1]) { TrimEndKeeps(s[..|s| - 1]); }
  }

  ghost predicate Trimmed(s: string) { s == "" || (!IsSpace(s[0]) && !IsSpace(s[|s| - 1])) }

  lemma TrimmedStays(s: string)
    ensures Trimmed(Trim(s))
    ensures Trimmed(s) <==> Trim(s) == s
  {
    TrimStartKeeps(s);
    TrimEndKeeps(TrimStart(s));
  }

  lemma TrimSpaceBefore(s: string)
    ensures Trim(" " + s) == Trim(s)
  {
    assert (" " + s)[1..] == s;
  }

  /** A numbered line as it is printed. */
  function Line(n: nat, role: string, content: string): string {
    Decimal(n) + ". " + role + ": " + content
  }

  lemma DecimalStart(n: nat, rest: string)
    ensures TrimStart(Decimal(n) + rest) == Decimal(n) + rest
    ensures '.' !in Decimal(n)
    ensures n < USIZE_END ==> ParseUsize(Decimal(n)).Some?
  {
    DecimalParses(n);
    assert Decimal(n)[0] in Decimal(n) && IsDigit(Decimal(n)[0]);
    assert (Decimal(n) + rest)[0] == Decimal(n)[0];
  }

  lemma TrimmedLine(n: nat, role: string, content: string)
    ensures Trim(Line(n, role, content)) == Decimal(n) + ". " + role + ":" + TrimEnd(" " + content)
  {
    var front := Decimal(n) + ". " + role + ":";
    assert Line(n, role, content) == Decimal(n) + (". " + role + ": " + content);
    DecimalStart(n, ". " + role + ": " + content);
    assert Line(n, role, content) == front + (" " + content);
    TrimEndAppend(front, " " + content);
    assert TrimEnd(front) == front by { assert front[|front| - 1] == ':'; }
  }

  lemma TrimTail(head: string, tail: string)
    requires tail != "" && !IsSpace(tail[0]) && !IsSpace(tail[|tail| - 1])
    ensures Trim(head + tail) == TrimStart(head) + tail
  {
    hide IsSpace;
    TrimStartAppend(head, tail);
    TrimEndAppend(TrimStart(head), tail);
  }

  lemma TrimWithColon(role: string, tail: string)
    requires tail == "" || !IsSpace(tail[|tail| - 1])
    ensures Trim(" " + role + ":" + tail) == TrimStart(role) + ":" + tail
  {
    assert !IsSpace(':');
    hide IsSpace, Trim;
    var rest := ":" + tail;
    assert rest[|rest| - 1] == (if tail == "" then ':' else tail[|tail| - 1]);
    TrimTail(role, rest);
    TrimSpaceBefore(role + rest);
    Regroup(" ", role, ":", tail);
    Regroup("", TrimStart(role), ":", tail);
    assert "" + TrimStart(role) == TrimStart(role);
    assert "" + (TrimStart(role) + rest) == TrimStart(role) + rest;
  }

  lemma Regroup(a: string, b: string, c: string, d: string)
    ensures a + b + c + d == a + (b + (c + d))
  {}

  lemma TrimOfTrimEnd(content: string)
    ensures Trim(TrimEnd(" " + content)) == Trim(content)
    ensures TrimEnd(" " + content) == "" || !IsSpace(TrimEnd(" " + content)[|TrimEnd(" " + content)| - 1])
  {
    var padded := " " + content;
    TrimEndKeeps(padded);
    TrimCommutes(padded);
    TrimSpaceBefore(content);
    TrimEndTwice(TrimStart(padded));
  }

  lemma TrimEndTwice(s: string)
    ensures TrimEnd(TrimEnd(s)) == TrimEnd(s)
  {
    TrimEndKeeps(s);
  }

  lemma {:induction false} TrimCommutes(s: string)
    ensures TrimStart(TrimEnd(s)) == TrimEnd(TrimStart(s))
  {
    if s != "" && IsSpace(s[0]) {
      TrimCommutes(s[1..]);
      assert s == [s[0]] + s[1..];
      TrimEndAppend([s[0]], s[1..]);
      assert [s[0]][..0] == "";
      TrimStartKeeps(s[1..]);
      if TrimEnd(s[1..]) != "" { assert ([s[0]] + TrimEnd(s[1..]))[1..] == TrimEnd(s[1..]); }
    } else {
      TrimEndKeeps(s);
    }
  }

  /** Reading a printed line gives the role and the content back, trimmed; a role with a colon in it
      comes back cut off at the colon. */
  lemma LineReads(n: nat, role: string, content: string)
    requires n < USIZE_END && ':' !in role
    ensures ParseSummaryLine(Trim(Line(n, role, content)))
         == if Trim(content) == "" then None else Some(Message(Trim(role), Trim(content)))
  {
    var tail := TrimEnd(" " + content);
    TrimmedLine(n, role, content);
    var line := Decimal(n) + ". " + role + ":" + tail;
    DecimalStart(n, "");
    assert line == Decimal(n) + ['.'] + (" " + role + ":" + tail);
    SplitOnceIs(Decimal(n), '.', " " + role + ":" + tail);
    TrimOfTrimEnd(content);
    TrimWithColon(role, tail);
    var stripped := TrimStart(role) + ":" + tail;
    TrimmedStays(" " + role + ":" + tail);
    TrimmedStays(stripped);
    TrimStartKeeps(role);
    assert stripped == TrimStart(role) + [':'] + tail;
    SplitOnceIs(TrimStart(role), ':', tail);
    TrimStartTwice(role);
  }

  lemma TrimStartTwice(s: string)
    ensures TrimStart(TrimStart(s)) == TrimStart(s)
  {
    TrimStartKeeps(s);
  }

  lemma MessageParts(role: string, content: string, role2: string, content2: string)
    ensures Message(role, content) == Message(role2, content2) <==> role == role2 && content == content2
  {
    var m, m2 := Message(role, content), Message(role2, content2);
    assert GetStr(m.value, "role") == Some(role) && GetStr(m2.value, "role") == Some(role2);
    assert GetStr(m.value, "content") == Some(content) && GetStr(m2.value, "content") == Some(content2);
  }

  lemma NoColonInRole(line: string, role: string, content: string)
    requires ParseSummaryLine(line) == Some(Message(role, content))
    ensures ':' !in role
  {
    var stripped := Trim(match SplitOnce(line, '.')
      case Some(parts) => if ParseUsize(parts.0).Some? then Trim(parts.1) else line
      case None => line);
    var parts := SplitOnce(stripped, ':').value;
    MessageParts(role, content, Trim(parts.0), Trim(parts.1));
    TrimStartKeeps(parts.0);
    TrimEndKeeps(TrimStart(parts.0));
  }

  /** A line comes back unchanged exactly if its role has no colon, nothing needs trimming and there
      is some content. */
  lemma LineRoundTrips(n: nat, role: string, content: string)
    requires n < USIZE_END
    ensures ParseSummaryLine(Trim(Line(n, role, content))) == Some(Message(role, content))
       <==> ':' !in role && Trimmed(role) && Trimmed(content) && content != ""
  {
    TrimmedStays(role);
    TrimmedStays(content);
    if ':' in role {
      if ParseSummaryLine(Trim(Line(n, role, content))) == Some(Message(role, content)) {
        NoColonInRole(Trim(Line(n, role, content)), role, content);
      }
    } else {
      LineReads(n, role, content);
      MessageParts(role, content, Trim(role), Trim(content));
    }
  }

  // ---- finding the lines again ----

  /** The lines, each ended by a line break. */
  function Block(lines: seq<string>): string {
    if lines == [] then "" else lines[0] + "\n" + Block(lines[1..])
  }

  lemma {:induction false} JoinIsBlock(lines: seq<string>, last: string)
    ensures Join(lines + [last]) == Block(lines) + last
  {
    if lines != [] {
      JoinIsBlock(lines[1..], last);
      assert (lines + [last])[1..] == lines[1..] + [last];
    }
  }

  ghost predicate OneLine(s: string) { '\n' !in s }

  lemma MatchCovers(s: string, pattern: string, i: nat, p: nat)
    requires Matches(s, pattern, i) && i <= p < i + |pattern|
    ensures s[p] in pattern
  {
    assert s[p] == s[i..i + |pattern|][p - i];
  }

  lemma MatchLeft(a: string, b: string, pattern: string, i: nat)
    requires i + |pattern| <= |a|
    ensures Matches(a + b, pattern, i) == Matches(a, pattern, i)
  {
    assert (a + b)[i..i + |pattern|] == a[i..i + |pattern|];
  }

  lemma MatchRight(a: string, b: string, pattern: string, i: nat)
    ensures Matches(a + b, pattern, |a| + i) == Matches(b, pattern, i)
  {
    if i + |pattern| <= |b| { assert (a + b)[|a| + i..|a| + i + |pattern|] == b[i..i + |pattern|]; }
  }

  /** A one-line pattern that no line contains does not begin anywhere in a block of lines. */
  lemma {:induction false} NoMatchInBlock(lines: seq<string>, rest: string, pattern: string, i: nat)
    requires OneLine(pattern) && pattern != "" && i < |Block(lines)|
    requires forall k :: 0 <= k < |lines| ==> !Contains(lines[k], pattern)
    ensures !Matches(Block(lines) + rest, pattern, i)
  {
    var text, first := Block(lines) + rest, lines[0];
    assert text == first + ("\n" + Block(lines[1..]) + rest);
    assert text[|first|] == '\n';
    if i + |pattern| <= |first| {
      MatchLeft(first, "\n" + Block(lines[1..]) + rest, pattern, i);
      assert !Contains(lines[0], pattern);
    } else if i <= |first| {
      if Matches(text, pattern, i) { MatchCovers(text, pattern, i, |first|); }
    } else {
      NoMatchInBlock(lines[1..], rest, pattern, i - |first| - 1);
      assert text == (first + "\n") + (Block(lines[1..]) + rest);
      MatchRight(first + "\n", Block(lines[1..]) + rest, pattern, i - |first| - 1);
    }
  }

  /** The pattern after the block is found first. */
  lemma FindAfterBlock(lines: seq<string>, pattern: string, rest: string)
    requires OneLine(pattern) && pattern != ""
    requires forall k :: 0 <= k < |lines| ==> !Contains(lines[k], pattern)
    ensures Find(Block(lines) + pattern + rest, pattern) == Some(|Block(lines)|)
  {
    var text := Block(lines) + pattern + rest;
    assert text == Block(lines) + (pattern + rest);
    assert Matches(text, pattern, |Block(lines)|);
    forall i: nat | i < |Block(lines)| ensures !Matches(text, pattern, i) {
      NoMatchInBlock(lines, pattern + rest, pattern, i);
    }
  }

  lemma {:induction false} LinesOfBlock(lines: seq<string>)
    requires forall k :: 0 <= k < |lines| ==> OneLine(lines[k])
    ensures Lines(Block(lines)) == lines
  {
    if lines != [] {
      assert Block(lines) == lines[0] + ['\n'] + Block(lines[1..]);
      SplitOnceIs(lines[0], '\n', Block(lines[1..]));
      LinesOfBlock(lines[1..]);
    }
  }

  lemma TwoLinesFirst(header: string, start: string, lines: seq<string>)
    ensures Block([header, start] + lines) == header + "\n" + start + "\n" + Block(lines)
    ensures Block([header]) == header + "\n"
  {
    var all := [header, start] + lines;
    assert all[1..] == [start] + lines && ([start] + lines)[1..] == lines;
    assert Block(all) == header + "\n" + (start + "\n" + Block(lines));
    assert [header][1..] == [];
  }

  lemma FindsEnd(header: string, lines: seq<string>, w: Wrappers)
    requires OneLine(w.end) && w.end != "" && !Contains(header, w.end) && !Contains(w.start, w.end)
    requires forall k :: 0 <= k < |lines| ==> !Contains(lines[k], w.end)
    ensures Find(header + "\n" + w.start + "\n" + Block(lines) + w.end, w.end)
      == Some(|header| + 1 + |w.start| + 1 + |Block(lines)|)
  {
    var before := [header, w.start] + lines;
    TwoLinesFirst(header, w.start, lines);
    forall k | 0 <= k < |before| ensures !Contains(before[k], w.end) {
      assert k >= 2 ==> before[k] == lines[k - 2];
    }
    FindAfterBlock(before, w.end, "");
    assert Block(before) + w.end + "" == header + "\n" + w.start + "\n" + Block(lines) + w.end;
  }

  lemma FindsStart(header: string, w: Wrappers, rest: string)
    requires OneLine(w.start) && w.start != "" && !Contains(header, w.start)
    ensures Find(header + "\n" + w.start + rest, w.start) == Some(|header| + 1)
  {
    TwoLinesFirst(header, w.start, []);
    FindAfterBlock([header], w.start, rest);
  }

  lemma SummaryText(header: string, lines: seq<string>, w: Wrappers)
    ensures Join([header, w.start] + lines + [w.end]) == header + "\n" + w.start + ("\n" + Block(lines) + w.end)
  {
    JoinIsBlock([header, w.start] + lines, w.end);
    TwoLinesFirst(header, w.start, lines);
  }

  lemma FindsMarkers(header: string, lines: seq<string>, w: Wrappers, content: string, start: nat, end: nat)
    requires OneLine(w.start) && w.start != "" && OneLine(w.end) && w.end != ""
    requires !Contains(header, w.start) && !Contains(header, w.end) && !Contains(w.start, w.end)
    requires forall k :: 0 <= k < |lines| ==> !Contains(lines[k], w.end)
    requires content == header + "\n" + w.start + ("\n" + Block(lines) + w.end)
    requires start == |header| + 1 && end == start + |w.start| + 1 + |Block(lines)|
    ensures Find(content, w.start) == Some(start) && Find(content, w.end) == Some(end)
  {
    hide Find;
    FindsEnd(header, lines, w);
    FindsStart(header, w, "\n" + Block(lines) + w.end);
    assert content == header + "\n" + w.start + "\n" + Block(lines) + w.end;
  }

  lemma ExtractsMiddle(front: string, body: string, back: string, w: Wrappers, content: string, start: nat, end: nat)
    requires content == front + (body + back) && body != ""
    requires start + |w.start| == |front| && end == |front| + |body|
    requires Find(content, w.start) == Some(start) && Find(content, w.end) == Some(end)
    ensures ExtractText(content, w) == Nested(ParseLines(Lines(body)))
  {
    hide Find, ParseLines, Lines;
    assert content[|front|..end] == body;
  }

  /** The text between the markers of a summary is the lines it was built from. */
  lemma ExtractsBody(header: string, lines: seq<string>, w: Wrappers, content: string)
    requires OneLine(w.start) && w.start != "" && OneLine(w.end) && w.end != ""
    requires !Contains(header, w.start) && !Contains(header, w.end) && !Contains(w.start, w.end)
    requires forall k :: 0 <= k < |lines| ==> !Contains(lines[k], w.end)
    requires content == header + "\n" + w.start + ("\n" + Block(lines) + w.end)
    ensures ExtractText(content, w) == Nested(ParseLines(Lines("\n" + Block(lines))))
  {
    hide ExtractText, Find, ParseLines, Lines, Contains, OneLine;
    var start := |header| + 1;
    var end := start + |w.start| + 1 + |Block(lines)|;
    FindsMarkers(header, lines, w, content, start, end);
    ExtractsMiddle(header + "\n" + w.start, "\n" + Block(lines), w.end, w, content, start, end);
  }

  lemma {:induction false} ReadLines(lines: seq<string>, read: seq<InputItem>)
    requires |lines| == |read| && forall k :: 0 <= k < |lines| ==> ReadLine(lines[k]) == Some(read[k])
    ensures ParseLines(lines) == read
  {
    if lines != [] {
      ReadLines(lines[1..], read[1..]);
      assert read == [read[0]] + read[1..];
    }
  }

  // ---- the round trip ----

  /** The role and the content that an item is printed with. */
  function Parts(item: InputItem, render: Json -> string): (string, string) {
    match item
    case Text(text) => ("user", text)
    case JsonItem(value) =>
      match GetStr(value, "role")
      case Some(role) => (role, ContentOf(value, render))
      case None => (match GetStr(value, "type") case Some(t) => t case None => "item", StringifyContent(value, render))
  }

  function Entry(item: InputItem, render: Json -> string): InputItem {
    Message(Parts(item, render).0, Parts(item, render).1)
  }

  function Entries(transcript: seq<InputItem>, render: Json -> string): seq<InputItem> {
    seq(|transcript|, i requires 0 <= i < |transcript| => Entry(transcript[i], render))
  }

  /** An item whose printed line says all there is to say about it. */
  ghost predicate Readable(item: InputItem, w: Wrappers, render: Json -> string) {
    var (role, content) := Parts(item, render);
    && ':' !in role && Trimmed(role) && OneLine(role)
    && content != "" && Trimmed(content) && OneLine(content)
    && !Contains(role + ": " + content, w.end)
  }

  ghost predicate AllReadable(transcript: seq<InputItem>, w: Wrappers, render: Json -> string) {
    && |transcript| < USIZE_END
    && forall i :: 0 <= i < |transcript| ==> Readable(transcript[i], w, render)
  }

  lemma NotContainedAfter(prefix: string, text: string, pattern: string)
    requires pattern != "" && pattern[0] !in prefix && !Contains(text, pattern)
    ensures !Contains(prefix + text, pattern)
  {
    forall i: nat ensures !Matches(prefix + text, pattern, i) {
      if i >= |prefix| {
        MatchRight(prefix, text, pattern, i - |prefix|);
      } else if Matches(prefix + text, pattern, i) {
        MatchStarts(prefix + text, pattern, i);
      }
    }
  }

  lemma MatchStarts(s: string, pattern: string, i: nat)
    requires Matches(s, pattern, i) && pattern != ""
    ensures i < |s| && s[i] == pattern[0]
  {
    assert s[i..i + |pattern|][0] == s[i];
  }

  lemma NumberIsPlain(n: nat)
    ensures OneLine(Decimal(n) + ". ") && '<' !in Decimal(n) + ". "
  {
    DecimalParses(n);
  }

  lemma OneLineAppend(a: string, b: string)
    requires OneLine(a) && OneLine(b)
    ensures OneLine(a + b)
  {}

  lemma LineOf(item: InputItem, n: nat, w: Wrappers, render: Json -> string)
    requires Readable(item, w, render) && n < USIZE_END && w.end != "" && w.end[0] == '<'
    ensures var line := Decimal(n) + ". " + FormatTranscriptItem(item, render);
      OneLine(line) && !Contains(line, w.end) && ReadLine(line) == Some(Entry(item, render))
  {
    var (role, content) := Parts(item, render);
    var prefix, text := Decimal(n) + ". ", role + ": " + content;
    assert FormatTranscriptItem(item, render) == text;
    assert OneLine(text);
    hide ReadLine, IsSpace, Parts, FormatTranscriptItem, OneLine;
    LineReadsBack(n, role, content);
    NumberIsPlain(n);
    OneLineAppend(prefix, text);
    NotContainedAfter(prefix, text, w.end);
  }

  lemma LineReadsBack(n: nat, role: string, content: string)
    requires n < USIZE_END && ':' !in role && Trimmed(role) && content != "" && Trimmed(content)
    ensures ReadLine(Decimal(n) + ". " + (role + ": " + content)) == Some(Message(role, content))
  {
    hide ReadLine, ParseSummaryLine, Trim, Line, Decimal;
    LineRoundTrips(n, role, content);
    TrimmedLineFull(n, role, content);
    LineHasNoReturn(n, role, content);
    TrimmedReads(Line(n, role, content));
  }

  lemma LineHasNoReturn(n: nat, role: string, content: string)
    requires content != "" && Trimmed(content)
    ensures Decimal(n) + ". " + (role + ": " + content) == Line(n, role, content)
    ensures WithoutReturn(Line(n, role, content)) == Line(n, role, content)
  {
    hide Decimal;
    var line := Line(n, role, content);
    assert Decimal(n) + ". " + (role + ": " + content) == line;
    assert line[|line| - 1] == content[|content| - 1];
  }

  lemma TrimmedLineFull(n: nat, role: string, content: string)
    ensures Trim(Line(n, role, content)) != ""
  {
    hide Trim, Decimal;
    TrimmedLine(n, role, content);
  }

  lemma TrimmedReads(line: string)
    requires WithoutReturn(line) == line && Trim(line) != ""
    ensures ReadLine(line) == ParseSummaryLine(Trim(line))
  {
    hide ParseSummaryLine, Trim, WithoutReturn;
  }

  lemma DefaultMarkers()
    ensures OneLine(DEFAULT_WRAPPERS.start) && OneLine(DEFAULT_WRAPPERS.end)
    ensures DEFAULT_WRAPPERS.start != "" && DEFAULT_WRAPPERS.end != "" && DEFAULT_WRAPPERS.end[0] == '<'
    ensures !Contains(DEFAULT_WRAPPERS.start, DEFAULT_WRAPPERS.end)
  {}

  lemma HeaderHasNoMarker(w: Wrappers)
    requires w.start != "" && w.start[0] == '<' && w.end != "" && w.end[0] == '<'
    ensures !Contains(HEADER, w.start) && !Contains(HEADER, w.end)
  {
    assert forall i :: 0 <= i < |HEADER_START| ==> HEADER_START[i] != '<';
    assert forall i :: 0 <= i < |HEADER_MIDDLE| ==> HEADER_MIDDLE[i] != '<';
    assert forall i :: 0 <= i < |HEADER_END| ==> HEADER_END[i] != '<';
    NotContainedAfter(HEADER, "", w.start);
    NotContainedAfter(HEADER, "", w.end);
    assert HEADER + "" == HEADER;
  }

  lemma {:induction false} ReadEntries(lines: seq<string>, transcript: seq<InputItem>, render: Json -> string)
    requires |lines| == |transcript|
    requires forall k :: 0 <= k < |lines| ==> ReadLine(lines[k]) == Some(Entry(transcript[k], render))
    ensures ParseLines(lines) == Entries(transcript, render)
  {
    hide ReadLine, Entry;
    ReadLines(lines, Entries(transcript, render));
  }

  lemma ReadEmptyLine(lines: seq<string>)
    ensures ParseLines([""] + lines) == ParseLines(lines)
  {
    assert ([""] + lines)[1..] == lines;
  }

  lemma NoTurnsShape()
    ensures NO_TURNS != "" && NO_TURNS[0] == '(' && NO_TURNS[|NO_TURNS| - 1] == ')'
    ensures '<' !in NO_TURNS && ':' !in NO_TURNS && '.' !in NO_TURNS && '\n' !in NO_TURNS
  {}

  /** A line that is neither numbered nor has a role is not read. */
  lemma NoRoleUnread(line: string)
    requires line != "" && line[0] == '(' && line[|line| - 1] == ')' && ':' !in line && '.' !in line
    ensures ParseLines([line]) == []
  {
    TrimmedStays(line);
    assert [line][1..] == [];
  }

  lemma NoTurnsReads()
    ensures OneLine(NO_TURNS) && !Contains(NO_TURNS, DEFAULT_WRAPPERS.end) && ParseLines([NO_TURNS]) == []
  {
    NoTurnsShape();
    NoRoleUnread(NO_TURNS);
    NoMarkerIn(NO_TURNS, DEFAULT_WRAPPERS.end);
  }

  lemma NoMarkerIn(text: string, end: string)
    requires end != "" && end[0] !in text
    ensures !Contains(text, end)
  {
    NotContainedAfter(text, "", end);
    assert text + "" == text;
  }

  lemma SummaryLinesRead(transcript: seq<InputItem>, render: Json -> string)
    requires AllReadable(transcript, DEFAULT_WRAPPERS, render)
    ensures forall k :: 0 <= k < |SummaryLines(transcript, render)| ==>
      OneLine(SummaryLines(transcript, render)[k])
        && !Contains(SummaryLines(transcript, render)[k], DEFAULT_WRAPPERS.end)
    ensures ParseLines(SummaryLines(transcript, render)) == Entries(transcript, render)
  {
    var lines, w := SummaryLines(transcript, render), DEFAULT_WRAPPERS;
    hide Contains, OneLine, ReadLine, Entry, Readable, ParseLines;
    if transcript == [] {
      NoTurnsReads();
      assert Entries(transcript, render) == [];
    } else {
      DefaultMarkers();
      forall k | 0 <= k < |lines| ensures OneLine(lines[k]) && !Contains(lines[k], w.end)
        && ReadLine(lines[k]) == Some(Entry(transcript[k], render)) {
        assert Readable(transcript[k], w, render);
        LineOf(transcript[k], k + 1, w, render);
      }
      ReadEntries(lines, transcript, render);
    }
  }

  lemma BodyReads(lines: seq<string>)
    requires forall k :: 0 <= k < |lines| ==> OneLine(lines[k])
    ensures ParseLines(Lines("\n" + Block(lines))) == ParseLines(lines)
  {
    hide ParseLines, Lines;
    EmptyLineFirst(lines);
    LinesOfBlock([""] + lines);
    ReadEmptyLine(lines);
  }

  lemma EmptyLineFirst(lines: seq<string>)
    ensures Block([""] + lines) == "\n" + Block(lines)
  {
    assert ([""] + lines)[1..] == lines;
    assert "" + "\n" == "\n";
  }

  lemma MessageContent(role: string, content: string)
    ensures GetStr(Message(role, content).value, "content") == Some(content)
    ensures GetStr(Message(role, content).value, "role") == Some(role)
  {}

  /** Reading a summary back gives the transcript it was built from, each item as its role and content. */
  lemma SummaryRoundTrip(transcript: seq<InputItem>, render: Json -> string)
    requires AllReadable(transcript, DEFAULT_WRAPPERS, render)
    ensures Extract(BuildSummaryMessage(transcript, DEFAULT_WRAPPERS, render), DEFAULT_WRAPPERS)
      == Nested(Entries(transcript, render))
  {
    var w, lines := DEFAULT_WRAPPERS, SummaryLines(transcript, render);
    DefaultMarkers();
    HeaderHasNoMarker(w);
    SummaryLinesRead(transcript, render);
    BodyReads(lines);
    var header := HEADER;
    var content := Join([header, w.start] + lines + [w.end]);
    SummaryText(header, lines, w);
    hide ExtractText, Contains, SummaryLines, OneLine, AllReadable, GetStr;
    ExtractsBody(header, lines, w, content);
    MessageContent("assistant", content);
  }

  /** A summary of a summary's entries is that summary: nothing is nested twice. */
  lemma EntriesPrintAlike(transcript: seq<InputItem>, w: Wrappers, render: Json -> string)
    requires AllReadable(transcript, w, render)
    ensures BuildSummaryMessage(Entries(transcript, render), w, render) == BuildSummaryMessage(transcript, w, render)
    ensures AllReadable(Entries(transcript, render), w, render)
  {
    var entries := Entries(transcript, render);
    forall i | 0 <= i < |entries|
      ensures FormatTranscriptItem(entries[i], render) == FormatTranscriptItem(transcript[i], render)
      ensures Readable(entries[i], w, render)
    {
      assert Readable(transcript[i], w, render);
      EntryPrintsAlike(transcript[i], w, render);
    }
    assert SummaryLines(entries, render) == SummaryLines(transcript, render);
  }

  lemma EntryPrintsAlike(item: InputItem, w: Wrappers, render: Json -> string)
    requires Readable(item, w, render)
    ensures Parts(Entry(item, render), render) == Parts(item, render) && Readable(Entry(item, render), w, render)
    ensures FormatTranscriptItem(Entry(item, render), render) == FormatTranscriptItem(item, render)
  {
    MessageContent(Parts(item, render).0, Parts(item, render).1);
  }

  // ---- nesting at a handoff ----

  /** None: reading one of the items back panics. */
  function Flatten(items: seq<InputItem>, w: Wrappers): Option<seq<InputItem>> {
    if items == [] then Some([])
    else match (Extract(items[0], w), Flatten(items[1..], w))
      case (Nested(inner), Some(rest)) => Some(inner + rest)
      case (NotNested, Some(rest)) => Some([items[0]] + rest)
      case _ => None
  }

  datatype HandoffInput = HandoffInput(inputHistory: seq<InputItem>, preHandoffItems: seq<RunItem>,
                                       newItems: seq<RunItem>, inputItems: Option<seq<RunItem>>)

  function BuildTranscript(data: HandoffInput, w: Wrappers): Option<seq<InputItem>> {
    match Flatten(data.inputHistory, w)
    case None => None
    case Some(history) =>
      Some(history + RunItemsToInputItems(data.preHandoffItems, Preserve)
        + RunItemsToInputItems(data.newItems, Preserve))
  }

  function Forwarded(items: seq<RunItem>): seq<RunItem> {
    FilterMap((item: RunItem) => if item.ToolCall? || item.ToolCallOutput? || item.Reasoning? then None
      else Some(item), items)
  }

  type Mapper = seq<InputItem> -> seq<InputItem>

  function NestHandoffHistory(data: HandoffInput, mapper: Option<Mapper>, w: Wrappers,
                              render: Json -> string): Option<HandoffInput> {
    match BuildTranscript(data, w)
    case None => None
    case Some(transcript) =>
      var history := if mapper.Some? then mapper.value(transcript) else [BuildSummaryMessage(transcript, w, render)];
      Some(HandoffInput(history, Forwarded(data.preHandoffItems), data.newItems, Some(Forwarded(data.newItems))))
  }

  lemma DefaultExtractNeverPanics(item: InputItem)
    ensures !Extract(item, DEFAULT_WRAPPERS).Panics?
  {
    DefaultMarkers();
    if item.JsonItem? && GetStr(item.value, "content").Some? {
      TextNeverPanics(GetStr(item.value, "content").value, DEFAULT_WRAPPERS);
    }
  }

  /** The text in which the end marker begins `k` characters after the start marker. */
  function Overlaid(w: Wrappers, k: nat): string
    requires k <= |w.start|
  {
    if k + |w.end| <= |w.start| then w.start else w.start[..k] + w.end
  }

  /** Both markers fit into that text, and the end marker does not begin with it. */
  predicate OverlapsAt(w: Wrappers, k: nat) {
    0 < k < |w.start| && w.start <= Overlaid(w, k) && Matches(Overlaid(w, k), w.end, k) && !(w.end <= Overlaid(w, k))
  }

  lemma OverlapPanics(w: Wrappers, k: nat)
    requires OverlapsAt(w, k)
    ensures ExtractText(Overlaid(w, k), w).Panics?
  {
    var content := Overlaid(w, k);
    assert Matches(content, w.start, 0);
    assert !Matches(content, w.end, 0);
    assert Find(content, w.start) == Some(0);
    assert Find(content, w.end).Some? && 0 < Find(content, w.end).value <= k;
  }

  /** Where the markers overlap in a text, it reads as their overlay. */
  lemma OverlayInText(content: string, w: Wrappers, start: nat, k: nat)
    requires k < |w.start| && Matches(content, w.start, start) && Matches(content, w.end, start + k)
    ensures Matches(content, Overlaid(w, k), start)
    ensures w.start <= Overlaid(w, k)
  {
    var rest := content[start..];
    assert rest[..|w.start|] == w.start;
    assert rest[k..k + |w.end|] == w.end;
    if k + |w.end| > |w.start| {
      assert rest[..k + |w.end|] == rest[..k] + w.end;
      assert rest[..k] == w.start[..k];
      assert Overlaid(w, k) == rest[..k + |w.end|];
      assert rest[..k + |w.end|][..|w.start|] == w.start;
      assert content[start..start + k + |w.end|] == rest[..k + |w.end|];
    }
  }

  lemma SliceOfSlice<T>(s: seq<T>, a: nat, b: nat, i: nat, j: nat)
    requires i <= j && a + j <= b <= |s|
    ensures s[a..b][i..j] == s[a + i..a + j]
  {
    var some, same := s[a..b][i..j], s[a + i..a + j];
    assert |some| == |same|;
    forall k | 0 <= k < |some| ensures some[k] == same[k] {
      assert some[k] == s[a..b][i + k] == s[a + (i + k)];
    }
  }

  lemma OverlayHolds(content: string, w: Wrappers, start: nat, k: nat)
    requires 0 < k < |w.start| && Matches(content, Overlaid(w, k), start) && Matches(content, w.end, start + k)
    requires w.start <= Overlaid(w, k) && !Matches(content, w.end, start)
    ensures OverlapsAt(w, k)
  {
    var text := Overlaid(w, k);
    SliceOfSlice(content, start, start + |text|, k, k + |w.end|);
    SliceOfSlice(content, start, start + |text|, 0, |w.end|);
  }

  /** How far into the start marker the first end marker begins, where that panics. */
  lemma PanicOverlaps(content: string, w: Wrappers) returns (k: nat)
    requires ExtractText(content, w).Panics?
    ensures OverlapsAt(w, k)
  {
    hide OverlapsAt, Overlaid;
    var start, end := Find(content, w.start).value, Find(content, w.end).value;
    k := end - start;
    OverlayInText(content, w, start, k);
    OverlayHolds(content, w, start, k);
  }

  /** Markers for which some text panics are exactly those that can overlap: the end marker fits into the start
      marker or continues it from some later character on, without fitting at its beginning. */
  lemma PanicsExactly(w: Wrappers)
    ensures (exists content :: ExtractText(content, w).Panics?) <==> (exists k: nat :: OverlapsAt(w, k))
  {
    hide ExtractText, OverlapsAt;
    if content :| ExtractText(content, w).Panics? {
      var k := PanicOverlaps(content, w);
    }
    if k: nat :| OverlapsAt(w, k) {
      OverlapPanics(w, k);
    }
  }

  /** For instance an end marker that is the start marker less its first character. */
  lemma MarkersCanOverlap()
    ensures ExtractText("<<HISTORY>", Wrappers("<<HISTORY>", "<HISTORY>")).Panics?
  {
    var w := Wrappers("<<HISTORY>", "<HISTORY>");
    assert Overlaid(w, 1) == "<<HISTORY>";
    assert w.end[1] != Overlaid(w, 1)[1];
    OverlapPanics(w, 1);
  }

  /** The markers cannot overlap when the first character of the end marker is not further on in the
      start marker. */
  lemma TextNeverPanics(content: string, w: Wrappers)
    requires w.end != "" && forall i :: 0 < i < |w.start| ==> w.start[i] != w.end[0]
    ensures !ExtractText(content, w).Panics?
  {
    var start, end := Find(content, w.start), Find(content, w.end);
    if start.Some? && end.Some? && start.value < end.value < start.value + |w.start| {
      MatchStarts(content, w.end, end.value);
    }
  }

  lemma {:induction false} FlattenNeverPanics(items: seq<InputItem>)
    ensures Flatten(items, DEFAULT_WRAPPERS).Some?
  {
    if items != [] {
      DefaultExtractNeverPanics(items[0]);
      FlattenNeverPanics(items[1..]);
    }
  }

  lemma BuildNeverPanics(data: HandoffInput, mapper: Option<Mapper>, render: Json -> string)
    ensures NestHandoffHistory(data, mapper, DEFAULT_WRAPPERS, render).Some?
  {
    FlattenNeverPanics(data.inputHistory);
  }

  lemma FlattenOne(item: InputItem, inner: seq<InputItem>, w: Wrappers)
    requires Extract(item, w) == Nested(inner)
    ensures Flatten([item], w) == Some(inner)
  {
    assert [item][1..] == [];
    assert inner + [] == inner;
  }

  /** A second handoff takes the nested summary apart again and appends what is new, so that the next
      summary lists every turn once; with nothing new the summary stays as it is. */
  lemma RenestingFlattens(first: HandoffInput, second: HandoffInput, render: Json -> string)
    requires BuildTranscript(first, DEFAULT_WRAPPERS).Some?
    requires AllReadable(BuildTranscript(first, DEFAULT_WRAPPERS).value, DEFAULT_WRAPPERS, render)
    requires second.inputHistory == NestHandoffHistory(first, None, DEFAULT_WRAPPERS, render).value.inputHistory
    ensures BuildTranscript(second, DEFAULT_WRAPPERS)
         == Some(Entries(BuildTranscript(first, DEFAULT_WRAPPERS).value, render)
           + RunItemsToInputItems(second.preHandoffItems, Preserve)
                 + RunItemsToInputItems(second.newItems, Preserve))
    ensures second.preHandoffItems == [] && second.newItems == [] ==>
      NestHandoffHistory(second, None, DEFAULT_WRAPPERS, render).value.inputHistory == second.inputHistory
  {
    hide Extract, BuildSummaryMessage, RunItemToInputItem;
    var transcript := BuildTranscript(first, DEFAULT_WRAPPERS).value;
    var entries := Entries(transcript, render);
    SummaryRoundTrip(transcript, render);
    FlattenOne(BuildSummaryMessage(transcript, DEFAULT_WRAPPERS, render), entries, DEFAULT_WRAPPERS);
    EntriesPrintAlike(transcript, DEFAULT_WRAPPERS, render);
    if second.preHandoffItems == [] && second.newItems == [] {
      assert entries + [] + [] == entries;
    }
  }
}
