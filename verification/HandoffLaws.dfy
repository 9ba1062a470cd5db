/** What a handoff passes on, and what lines its summary is written in and read from. */
module HandoffLaws {
  import opened Items
  import opened HandoffHistory

  // ---- what is passed on ----

  predicate Passes(item: RunItem) { item.MessageOutput? || item.HandoffCall? || item.HandoffOutput? }

  function Passing(items: seq<RunItem>): seq<RunItem> {
    if items == [] then []
    else Passing(items[..|items| - 1]) + (if Passes(items[|items| - 1]) then [items[|items| - 1]] else [])
  }

  function Converted(items: seq<RunItem>): seq<InputItem> {
    seq(|items|, i requires 0 <= i < |items| => ToInputItem(items[i]))
  }

  /** Earlier summaries give way to the entries they hold. */
  function Unfolded(items: seq<InputItem>, w: Wrappers): seq<InputItem> {
    if items == [] then []
    else
      var last := Extract(items[|items| - 1], w);
      Unfolded(items[..|items| - 1], w) + (if last.Nested? then last.items else [items[|items| - 1]])
  }

  ghost predicate AnyPanics(items: seq<InputItem>, w: Wrappers) {
    exists i :: 0 <= i < |items| && Extract(items[i], w).Panics?
  }

  lemma {:induction false} ForwardedPush(items: seq<RunItem>, last: RunItem)
    ensures Forwarded(items + [last]) == Forwarded(items) + if Passes(last) then [last] else []
  {
    if items == [] {
      assert [last][1..] == [];
      assert [] + [last] == [last];
    } else {
      ForwardedPush(items[1..], last);
      assert (items + [last])[1..] == items[1..] + [last];
    }
  }

  lemma {:induction false} ForwardedLaw(items: seq<RunItem>)
    ensures Forwarded(items) == Passing(items)
  {
    if items != [] {
      var init, last := items[..|items| - 1], items[|items| - 1];
      ForwardedLaw(init);
      ForwardedPush(init, last);
      assert items == init + [last];
    }
  }

  lemma {:induction false} ConvertedLaw(items: seq<RunItem>)
    ensures RunItemsToInputItems(items, Preserve) == Converted(items)
  {
    if items != [] {
      ConvertedLaw(items[1..]);
      assert Converted(items) == [ToInputItem(items[0])] + Converted(items[1..]);
    }
  }

  lemma {:induction false} FlattenPush(items: seq<InputItem>, last: InputItem, w: Wrappers)
    ensures Flatten(items + [last], w)
         == if Flatten(items, w).None? || Extract(last, w).Panics? then None
           else Some(Flatten(items, w).value + (if Extract(last, w).Nested? then Extract(last, w).items else [last]))
  {
    hide Extract;
    if items == [] {
      assert [last][1..] == [];
      var tail := if Extract(last, w).Nested? then Extract(last, w).items else [last];
      assert tail + [] == tail && [] + tail == tail;
    } else {
      FlattenPush(items[1..], last, w);
      assert (items + [last])[1..] == items[1..] + [last];
      var first, rest := Extract(items[0], w), Flatten(items[1..], w);
      if !first.Panics? && rest.Some? {
        var head := if first.Nested? then first.items else [items[0]];
        var tail := if Extract(last, w).Nested? then Extract(last, w).items else [last];
        assert Flatten(items, w) == Some(head + rest.value);
        assert head + (rest.value + tail) == head + rest.value + tail;
      }
    }
  }

  lemma {:induction false} FlattenLaw(items: seq<InputItem>, w: Wrappers)
    ensures Flatten(items, w) == if AnyPanics(items, w) then None else Some(Unfolded(items, w))
  {
    hide Extract;
    if items != [] {
      var init, last := items[..|items| - 1], items[|items| - 1];
      FlattenLaw(init, w);
      FlattenPush(init, last, w);
      assert items == init + [last];
      assert AnyPanics(items, w) <==> AnyPanics(init, w) || Extract(last, w).Panics? by {
        assert forall i :: 0 <= i < |init| ==> items[i] == init[i];
        assert items[|init|] == last;
      }
    }
  }

  /** The next agent gets the mapped transcript, or one summary of it, the messages and handoffs that came before,
      and of the new items all, and the messages and handoffs once more as its input. */
  lemma NestLaw(data: HandoffInput, mapper: Option<Mapper>, w: Wrappers, render: Json -> string)
    ensures var transcript :=
              Unfolded(data.inputHistory, w) + Converted(data.preHandoffItems) + Converted(data.newItems);
      NestHandoffHistory(data, mapper, w, render)
        == if AnyPanics(data.inputHistory, w) then None
           else Some(HandoffInput(
             if mapper.Some? then mapper.value(transcript) else [BuildSummaryMessage(transcript, w, render)],
             Passing(data.preHandoffItems), data.newItems, Some(Passing(data.newItems))))
  {
    hide Flatten, Unfolded, AnyPanics, Forwarded, Passing, RunItemsToInputItems, BuildSummaryMessage;
    FlattenLaw(data.inputHistory, w);
    ConvertedLaw(data.preHandoffItems);
    ConvertedLaw(data.newItems);
    ForwardedLaw(data.preHandoffItems);
    ForwardedLaw(data.newItems);
  }

  // ---- how items are written ----

  /** A text is the user's; a JSON item is written by its role and content, or by its type and all of it. */
  lemma PrintLaw(item: InputItem, render: Json -> string)
    ensures item.Text? ==> FormatTranscriptItem(item, render) == "user: " + item.text
    ensures item.JsonItem? ==>
      forall role: string :: GetStr(item.value, "role") == Some(role) ==>
        && (Get(item.value, "content").None? || Get(item.value, "content") == Some(Str("")) ==>
              FormatTranscriptItem(item, render) == role)
        && (forall content: string :: content != "" && Get(item.value, "content") == Some(Str(content)) ==>
              FormatTranscriptItem(item, render) == role + ": " + content)
        && (forall content: Json ::
              Get(item.value, "content") == Some(content) && !content.Str? && render(content) != "" ==>
              FormatTranscriptItem(item, render) == role + ": " + render(content))
    ensures item.JsonItem? && GetStr(item.value, "role").None? ==>
      var all := if item.value.Str? then item.value.s else render(item.value);
      && (GetStr(item.value, "type").None? ==> FormatTranscriptItem(item, render) == "item: " + all)
      && (forall kind: string :: GetStr(item.value, "type") == Some(kind) ==>
            FormatTranscriptItem(item, render) == kind + ": " + all)
  {
    assert "item" + ": " == "item: ";
  }

  /** A summary is the assistant's; between the markers stand the items, one to a line and numbered from one, or
      a line that says there are none. */
  lemma SummaryLaw(transcript: seq<InputItem>, w: Wrappers, render: Json -> string)
    ensures var summary := BuildSummaryMessage(transcript, w, render);
      && summary.JsonItem? && GetStr(summary.value, "role") == Some("assistant")
      && GetStr(summary.value, "content").Some?
      && exists lines :: Numbered(transcript, lines, render)
           && GetStr(summary.value, "content").value == HEADER + "\n" + w.start + ("\n" + Block(lines) + w.end)
  {
    hide FormatTranscriptItem, Block;
    var lines := SummaryLines(transcript, render);
    MessageContent("assistant", Join([HEADER, w.start] + lines + [w.end]));
    SummaryText(HEADER, lines, w);
    assert Numbered(transcript, lines, render);
  }

  ghost predicate Numbered(transcript: seq<InputItem>, lines: seq<string>, render: Json -> string) {
    if transcript == [] then lines == ["(no previous turns recorded)"]
    else
      && |lines| == |transcript|
      && forall i :: 0 <= i < |lines| ==>
        lines[i] == Decimal(i + 1) + ". " + FormatTranscriptItem(transcript[i], render)
  }

  // ---- how lines are read ----

  /** The lines of a text hold no line breaks and, joined by them, are the text; a last line break is dropped. */
  lemma {:induction false} LinesLaw(text: string)
    ensures forall i :: 0 <= i < |Lines(text)| ==> '\n' !in Lines(text)[i]
    ensures Lines(text) == [] <==> text == ""
    ensures text != "" ==>
      || text == Join(Lines(text)) + "\n"
      || (text == Join(Lines(text)) && Lines(text)[|Lines(text)| - 1] != "")
    decreases |text|
  {
    hide SplitOnce;
    if text != "" && SplitOnce(text, '\n').Some? {
      var parts := SplitOnce(text, '\n').value;
      LinesLaw(parts.1);
      var rest := Lines(parts.1);
      assert Lines(text) == [parts.0] + rest;
      if parts.1 == "" {
        assert [parts.0] + rest == [parts.0];
      } else {
        assert ([parts.0] + rest)[1..] == rest;
        assert Join(Lines(text)) == parts.0 + "\n" + Join(rest);
        assert Join(Lines(text)) + "\n" == parts.0 + "\n" + (Join(rest) + "\n");
      }
    }
  }

  predicate AllDigits(digits: string) { forall i :: 0 <= i < |digits| ==> '0' <= digits[i] <= '9' }

  function Amount(digits: string): nat
    requires AllDigits(digits)
  {
    if digits == "" then 0
    else
      10 * Amount(digits[..|digits| - 1]) + (digits[|digits| - 1] as int - '0' as int)
  }

  lemma {:induction false} DigitsLaw(digits: string)
    ensures DigitsValue(digits) == if AllDigits(digits) then Some(Amount(digits)) else None
  {
    if digits != "" {
      var init, last := digits[..|digits| - 1], digits[|digits| - 1];
      DigitsLaw(init);
      assert forall i :: 0 <= i < |init| ==> init[i] == digits[i];
      assert digits == init + [last];
    }
  }

  predicate IsNumber(text: string, value: nat) {
    || (text != "" && AllDigits(text) && Amount(text) == value < 0x1_0000_0000_0000_0000)
    || (|text| > 1 && text[0] == '+' && AllDigits(text[1..]) && Amount(text[1..]) == value < 0x1_0000_0000_0000_0000)
  }

  /** A number is some digits, with an optional plus sign, and fits into 64 bits. */
  lemma NumberLaw(text: string, value: nat)
    ensures ParseUsize(text) == Some(value) <==> IsNumber(text, value)
  {
    hide DigitsValue, Amount;
    DigitsLaw(text);
    if text != "" {
      DigitsLaw(text[1..]);
    }
  }

  /** The rest of a line after its number, if it has one: digits, with an optional plus sign, up to the first
      full stop. */
  ghost predicate After(line: string, rest: string) {
    || (exists number: string :: '.' !in number && ParseUsize(number).Some? && line == number + "." + rest)
    || (line == rest && forall number: string, more: string ::
          '.' !in number && ParseUsize(number).Some? ==> line != number + "." + more)
  }

  lemma SplitOnceAt(line: string, number: string, more: string)
    requires '.' !in number && line == number + "." + more
    ensures SplitOnce(line, '.') == Some((number, more))
  {
    SplitOnceIs(number, '.', more);
  }

  lemma NoNumber(line: string)
    requires forall number: string, more: string ::
               '.' !in number && ParseUsize(number).Some? ==> line != number + "." + more
    ensures SplitOnce(line, '.').Some? ==> ParseUsize(SplitOnce(line, '.').value.0).None?
  {
    hide ParseUsize;
    if SplitOnce(line, '.').Some? {
      var parts := SplitOnce(line, '.').value;
      var split := parts.0 + "." + parts.1;
      assert line == split;
    }
  }

  lemma Stripped(line: string, rest: string)
    requires After(line, rest)
    ensures Trim(match SplitOnce(line, '.')
                 case Some(parts) => if ParseUsize(parts.0).Some? then Trim(parts.1) else line
                 case None => line) == Trim(rest)
  {
    if number: string :| '.' !in number && ParseUsize(number).Some? && line == number + "." + rest {
      SplitOnceAt(line, number, rest);
      TrimmedStays(rest);
      TrimmedStays(Trim(rest));
    } else {
      NoNumber(line);
    }
  }

  lemma NoColonTrimmed(rest: string)
    requires ':' !in rest
    ensures ':' !in Trim(rest)
  {
    TrimStartKeeps(rest);
    TrimEndKeeps(TrimStart(rest));
  }

  lemma TrimFront(role: string, content: string)
    ensures TrimStart(role + ":" + content) == TrimStart(role) + ":" + content
  {
    var tail := ":" + content;
    TrimStartAppend(role, tail);
    assert TrimStart(tail) == tail;
    hide TrimStart;
    assert role + ":" + content == role + tail;
    assert TrimStart(role) + ":" + content == TrimStart(role) + tail;
    if TrimStart(role) == "" { assert "" + tail == tail; }
  }

  lemma TrimBack(role: string, content: string)
    ensures TrimEnd(role + ":" + content) == role + ":" + TrimEnd(content)
  {
    var front := role + ":";
    TrimEndAppend(front, content);
    assert TrimEnd(front) == front;
    hide TrimEnd;
    if TrimEnd(content) == "" { assert front + "" == front; }
  }

  lemma TrimAround(role: string, content: string)
    ensures Trim(role + ":" + content) == TrimStart(role) + ":" + TrimEnd(content)
  {
    hide TrimStart, TrimEnd;
    TrimFront(role, content);
    TrimBack(TrimStart(role), content);
  }

  lemma TrimBoth(content: string)
    ensures Trim(TrimEnd(content)) == Trim(content)
  {
    TrimCommutes(content);
    TrimEndTwice(TrimStart(content));
  }

  /** Behind its number a line is read at its first colon, and not at all without one or with nothing behind it. */
  lemma ParseLaw(line: string, rest: string, role: string, content: string)
    requires After(line, rest)
    ensures ':' !in rest ==> ParseSummaryLine(line) == None
    ensures ':' !in role && rest == role + ":" + content ==>
      ParseSummaryLine(line) == if Trim(content) == "" then None else Some(Message(Trim(role), Trim(content)))
  {
    Stripped(line, rest);
    if ':' !in rest { NoColonTrimmed(rest); }
    if ':' !in role && rest == role + ":" + content {
      TrimAround(role, content);
      TrimStartKeeps(role);
      SplitOnceIs(TrimStart(role), ':', TrimEnd(content));
      TrimStartTwice(role);
      TrimBoth(content);
    }
  }

  /** Of several lines those are read that can be, in order. */
  lemma {:induction false} ParseLinesLaw(lines: seq<string>, last: string)
    ensures ParseLines(lines + [last])
         == ParseLines(lines) + if ReadLine(last).Some? then [ReadLine(last).value] else []
  {
    hide ReadLine;
    if lines == [] {
      assert [last][1..] == [];
      assert [] + [last] == [last];
    } else {
      ParseLinesLaw(lines[1..], last);
      assert (lines + [last])[1..] == lines[1..] + [last];
    }
  }

  ghost predicate Blank(s: string) { forall i :: 0 <= i < |s| ==> IsSpace(s[i]) }

  lemma {:induction false} TrimStartLaw(s: string) returns (front: string)
    ensures s == front + TrimStart(s) && Blank(front)
  {
    front := "";
    if s != "" && IsSpace(s[0]) {
      var rest := TrimStartLaw(s[1..]);
      front := [s[0]] + rest;
    }
  }

  lemma {:induction false} TrimEndLaw(s: string) returns (back: string)
    ensures s == TrimEnd(s) + back && Blank(back)
  {
    back := "";
    if s != "" && IsSpace(s[|s| - 1]) {
      var rest := TrimEndLaw(s[..|s| - 1]);
      back := rest + [s[|s| - 1]];
    }
  }

  /** Trimming takes the blanks off both ends, and nothing else. */
  lemma TrimLaw(s: string) returns (front: string, back: string)
    ensures s == front + Trim(s) + back && Blank(front) && Blank(back)
    ensures Trim(s) != "" ==> !IsSpace(Trim(s)[0]) && !IsSpace(Trim(s)[|Trim(s)| - 1])
  {
    front := TrimStartLaw(s);
    back := TrimEndLaw(TrimStart(s));
    TrimmedStays(s);
    hide TrimStart, TrimEnd;
    assert front + (Trim(s) + back) == front + Trim(s) + back;
  }

  /** A line is read as it is when trimmed. */
  lemma ReadLaw(line: string)
    ensures ReadLine(line) == if Trim(line) == "" then None else ParseSummaryLine(Trim(line))
  {
    hide ParseSummaryLine;
    if line != "" && line[|line| - 1] == '\r' {
      var init := line[..|line| - 1];
      assert line == init + ['\r'];
      TrimCommutes(line);
      TrimCommutes(init);
    }
  }

  ghost predicate Occurs(text: string, pattern: string, i: nat) {
    i + |pattern| <= |text| && forall k :: 0 <= k < |pattern| ==> text[i + k] == pattern[k]
  }

  ghost predicate FirstAt(text: string, pattern: string, i: nat) {
    Occurs(text, pattern, i) && forall j: nat :: j < i ==> !Occurs(text, pattern, j)
  }

  ghost predicate Nowhere(text: string, pattern: string) { forall i: nat :: !Occurs(text, pattern, i) }

  lemma OccursLaw(text: string, pattern: string, i: nat)
    ensures Occurs(text, pattern, i) <==> Matches(text, pattern, i)
  {
    if i + |pattern| <= |text| {
      var part := text[i..i + |pattern|];
      assert forall k :: 0 <= k < |part| ==> part[k] == text[i + k];
    }
  }

  lemma FindLaw(text: string, pattern: string)
    ensures match Find(text, pattern)
      case None => Nowhere(text, pattern)
      case Some(i) => FirstAt(text, pattern, i)
  {
    hide Occurs, Matches;
    forall i: nat ensures Occurs(text, pattern, i) <==> Matches(text, pattern, i) { OccursLaw(text, pattern, i); }
    FarOff(text, pattern);
  }

  lemma FarOff(text: string, pattern: string)
    ensures forall i: nat :: i > |text| ==> !Occurs(text, pattern, i)
  {}

  lemma OnlyFirst(text: string, pattern: string, i: nat)
    requires FirstAt(text, pattern, i)
    ensures Find(text, pattern) == Some(i)
  {
    hide Occurs;
    FindLaw(text, pattern);
  }

  /** An item holds a summary if its "content" is a text with both markers, the first end marker behind the first start
      marker; the summary is read from what is between them. */
  lemma ExtractLaw(item: InputItem, w: Wrappers, start: nat, end: nat)
    ensures item.Text? || GetStr(item.value, "content").None? ==> Extract(item, w) == NotNested
    ensures item.JsonItem? && GetStr(item.value, "content").Some? ==>
      var text := GetStr(item.value, "content").value;
      && (Nowhere(text, w.start) || Nowhere(text, w.end) ==> Extract(item, w) == NotNested)
      && (FirstAt(text, w.start, start) && FirstAt(text, w.end, end) ==>
            Extract(item, w) == if end <= start then NotNested
                                else if end < start + |w.start| then Panics
                                else Nested(ParseLines(Lines(text[start + |w.start|..end]))))
  {
    hide Find, ParseLines, Lines, FirstAt, Nowhere;
    if item.JsonItem? && GetStr(item.value, "content").Some? {
      var text := GetStr(item.value, "content").value;
      FindLaw(text, w.start);
      FindLaw(text, w.end);
      if FirstAt(text, w.start, start) { OnlyFirst(text, w.start, start); }
      if FirstAt(text, w.end, end) { OnlyFirst(text, w.end, end); }
      NotBoth(text, w.start);
      NotBoth(text, w.end);
    }
  }

  lemma NotBoth(text: string, pattern: string)
    ensures Nowhere(text, pattern) ==> forall i: nat :: !FirstAt(text, pattern, i)
  {}
}
