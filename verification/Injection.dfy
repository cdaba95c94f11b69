/** The text of an injected batch, which messages it carries, and the headers read back from it. */
module Injection {
  import opened Options
  import opened JsText
  import opened MessageHeaders

  const RUNTIME_STATE := "runtime_state"
  const TASK_RECEIPT := "untrusted_" + "task_receipt"
  const STICKER_CATALOG := "untrusted_" + "sticker_catalog"
  const TELEGRAM_HISTORY := "untrusted_" + "telegram_history"
  const NEW_MESSAGES := "untrusted_" + "new_messages"
  const START := "<" + RUNTIME_STATE + ">"
  const END := "</" + RUNTIME_STATE + ">"

  /** Everything a batch says; `receipt` and `catalog` are written only when there is one. */
  datatype Batch = Batch(
    runtime: string, receipt: Option<string>, catalog: Option<string>, history: seq<Snapshot>, omitted: nat,
    current: seq<Snapshot>, showTopic: bool, inlineReplies: set<string>)

  // ---- layout ----

  function Decimal(n: nat): string {
    if n < 10 then [('0' as int + n) as char] else Decimal(n / 10) + [('0' as int + n % 10) as char]
  }

  const OMITTED := " earlier new messages" + " omitted to fit" + " the model context"

  function OmissionLine(n: nat): string { "[" + Decimal(n) + OMITTED + "]" }

  function Printed(ss: seq<Snapshot>, showTopic: bool, inlineReplies: set<string>): seq<string> {
    if ss == [] then [] else [Formatted(ss[0], showTopic, inlineReplies)] + Printed(ss[1..], showTopic, inlineReplies)
  }

  function JoinLines(parts: seq<string>): string { if parts == [] then "" else Join(parts, '\n') }

  function Section(tag: string, content: Option<string>): seq<string> {
    if content.None? then [] else ["<" + tag + ">", content.value, "</" + tag + ">"]
  }

  function HistoryText(b: Batch): Option<string> {
    if b.history == [] then None else Some(JoinLines(Printed(b.history, b.showTopic, b.inlineReplies)))
  }

  function CurrentText(b: Batch): string {
    (if b.omitted == 0 then "" else OmissionLine(b.omitted) + "\n") + JoinLines(Printed(b.current, b.showTopic, b.inlineReplies))
  }

  /** What follows the runtime block. */
  function Tail(b: Batch): seq<string> {
    Section(TASK_RECEIPT, b.receipt) + Section(STICKER_CATALOG, b.catalog)
    + Section(TELEGRAM_HISTORY, HistoryText(b))
    + Section(NEW_MESSAGES, Some(CurrentText(b)))
  }

  function TextOf(b: Batch): string { Join([START, b.runtime, END] + Tail(b), '\n') }

  // ---- reading back ----

  function HeadersOf(lines: seq<string>): seq<Header> {
    if lines == [] then []
    else
      var h := ParseLine(lines[0]);
      (if h.Some? then [h.value] else []) + HeadersOf(lines[1..])
  }

  function LastIndex(lines: seq<string>, line: string): int {
    if lines == [] then -1
    else if lines[|lines| - 1] == line then |lines| - 1
    else LastIndex(lines[..|lines| - 1], line)
  }

  lemma {:induction false} HeadersAppend(a: seq<string>, b: seq<string>)
    ensures HeadersOf(a + b) == HeadersOf(a) + HeadersOf(b)
    decreases a
  {
    hide ParseLine;
    if a == [] {
      assert a + b == b;
    } else {
      assert (a + b)[0] == a[0] && (a + b)[1..] == a[1..] + b;
      HeadersAppend(a[1..], b);
      var h := ParseLine(a[0]);
      var first := if h.Some? then [h.value] else [];
      assert HeadersOf(a + b) == first + (HeadersOf(a[1..]) + HeadersOf(b));
    }
  }

  lemma {:induction false} LastIndexRange(lines: seq<string>, line: string)
    ensures -1 <= LastIndex(lines, line) < |lines|
    decreases |lines|
  {
    if lines != [] && lines[|lines| - 1] != line { LastIndexRange(lines[..|lines| - 1], line); }
  }

  /** One pass over the lines after the last end of a runtime block. */
  method ParseSnapshotLines(text: string) returns (headers: seq<Header>)
    ensures headers == ReadBack(text)
  {
    hide ParseLine, Split;
    var lines := Split(text, '\n');
    LastIndexRange(lines, END);
    var start := LastIndex(lines, END) + 1;
    headers := [];
    for k := start to |lines|
      invariant headers == HeadersOf(lines[start..k])
    {
      assert lines[start..k + 1] == lines[start..k] + [lines[k]];
      HeadersAppend(lines[start..k], [lines[k]]);
      var header := ParseLine(lines[k]);
      assert HeadersOf([lines[k]]) == (if header.Some? then [header.value] else []) + HeadersOf([lines[k]][1..]);
      if header.Some? { headers := headers + [header.value]; }
    }
    assert lines[start..|lines|] == lines[start..];
  }

  function ReadBack(text: string): seq<Header> {
    var lines := Split(text, '\n');
    LastIndexRange(lines, END);
    HeadersOf(lines[LastIndex(lines, END) + 1..])
  }

  function FirstSeen(headers: seq<Header>): seq<string> {
    if headers == [] then []
    else
      var before, id := FirstSeen(headers[..|headers| - 1]), headers[|headers| - 1].messageId;
      if id in before then before else before + [id]
  }

  /** The ids a batch carries, each once, in the order they first appear. */
  method CollectInjectedMessageIds(text: string) returns (ids: seq<string>)
    ensures ids == FirstSeen(ReadBack(text))
    ensures forall id :: id in ids <==> exists h :: h in ReadBack(text) && h.messageId == id
    ensures forall i, j | 0 <= i < j < |ids| :: ids[i] != ids[j]
  {
    var headers := ParseSnapshotLines(text);
    ids := [];
    hide ReadBack;
    for k := 0 to |headers|
      invariant ids == FirstSeen(headers[..k])
      invariant forall id :: id in ids <==> exists h :: h in headers[..k] && h.messageId == id
      invariant forall i, j | 0 <= i < j < |ids| :: ids[i] != ids[j]
    {
      assert headers[..k + 1] == headers[..k] + [headers[k]] && headers[..k + 1][..k] == headers[..k];
      if headers[k].messageId !in ids { ids := ids + [headers[k].messageId]; }
    }
    assert headers[..|headers|] == headers;
  }

  // ---- no other line reads as a header ----

  /** A line that is neither a header nor the end of a runtime block. */
  predicate Silent(line: string) { line != END && ParseLine(line).None? }

  predicate AllSilent(lines: seq<string>) { forall line | line in lines :: Silent(line) }

  lemma {:induction false} SilentLines(lines: seq<string>)
    requires AllSilent(lines)
    ensures HeadersOf(lines) == []
    decreases lines
  {
    hide ParseLine;
    if lines != [] {
      var first := lines[0];
      assert first in lines && Silent(first);
      assert forall x | x in lines[1..] :: x in lines;
      SilentLines(lines[1..]);
    }
  }

  lemma NoBracketSilent(line: string)
    requires line == "" || (line[0] != '[' && line != END)
    ensures Silent(line)
  {
    assert END != "";
  }

  lemma {:induction false} DecimalDigits(n: nat)
    ensures Digits(Decimal(n))
    decreases n
  {
    if n >= 10 { DecimalDigits(n / 10); }
  }

  lemma OmittedWords()
    ensures Free(OMITTED, ']') && Free(OMITTED, '\n')
  {
  }

  lemma FreeAppend(a: string, b: string, c: char)
    requires Free(a, c) && Free(b, c)
    ensures Free(a + b, c)
  {
  }

  lemma OmissionSilent(n: nat)
    ensures Silent(OmissionLine(n)) && Free(OmissionLine(n), '\n')
  {
    DecimalDigits(n);
    OmittedWords();
    assert Free(Decimal(n), ']') && Free(Decimal(n), '\n') && Free("[", ']') && Free("[", '\n') && Free("]", '\n');
    hide Decimal, Free, OMITTED, Digits;
    FreeAppend("[", Decimal(n), ']');
    FreeAppend("[", Decimal(n), '\n');
    FreeAppend("[" + Decimal(n), OMITTED, ']');
    FreeAppend("[" + Decimal(n), OMITTED, '\n');
    FreeAppend("[" + Decimal(n) + OMITTED, "]", '\n');
    LastBracketSilent(OmissionLine(n), "[" + Decimal(n) + OMITTED);
  }

  lemma MatchesHasBracket(line: string, id: string, bracket: string, name: string)
    requires Matches(line, id, bracket, name)
    ensures exists k :: 0 <= k < |line| - 1 && line[k] == ']'
  {
    hide PositiveDecimal, OneLine;
    assert line[2 + |id| + |bracket|] == ']';
  }

  /** A line whose only closing bracket is its last character has no name to read. */
  lemma LastBracketSilent(line: string, head: string)
    requires line == head + "]" && Free(head, ']')
    ensures Silent(line)
  {
    assert forall k | 0 <= k < |line| - 1 :: line[k] == head[k] && head[k] in head;
    if ParseLine(line).Some? {
      ParseLineFinds(line);
      var id, bracket, name :| Matches(line, id, bracket, name);
      hide ParseLine, Matches;
      MatchesHasBracket(line, id, bracket, name);
      assert false;
    }
    assert line[|line| - 1] == ']' && END[|END| - 1] == '>';
  }

  lemma IndentSilent(line: string)
    ensures Silent("  " + line)
  {
    NoBracketSilent("  " + line);
  }

  // ---- one message ----

  lemma {:induction false} IndentedSilent(lines: seq<string>)
    requires forall l | l in lines :: Free(l, '\n')
    ensures AllSilent(Indented(lines)) && forall l | l in Indented(lines) :: Free(l, '\n')
    decreases lines
  {
    if lines != [] {
      var first := lines[0];
      assert first in lines && forall l | l in lines[1..] :: l in lines;
      IndentSilent(first);
      hide Silent;
      IndentedSilent(lines[1..]);
    }
  }

  lemma {:induction false} MediaFree(media: seq<Media>)
    requires forall m | m in media :: MediaFields(m)
    ensures forall l | l in MediaLines(media) :: Free(l, '\n')
    decreases media
  {
    if media != [] {
      var first := media[0];
      assert first in media && forall m | m in media[1..] :: m in media;
      assert Free(MediaLine(first), '\n');
      hide MediaLine, MediaFields;
      MediaFree(media[1..]);
    }
  }

  lemma QuotesFree(s: Snapshot, inlineReplies: set<string>)
    ensures forall l | l in Forwarded(s) :: Free(l, '\n')
    ensures forall l | l in Quoted(s, inlineReplies) :: Free(l, '\n')
  {
    if s.forwardedFrom.Some? { SingleLineMeans(s.forwardedFrom.value); }
    if s.quote.Some? {
      SingleLineMeans(s.quote.value.sender);
      SingleLineMeans(s.quote.value.content);
    }
    hide SingleLine;
  }

  lemma ContentFree(content: Option<string>)
    ensures forall l | l in ContentLines(content) :: Free(l, '\n')
  {
    if content.Some? { SplitPieces(content.value, '\n'); }
  }

  /** No line of a body has a line feed in it, whatever Telegram sent. */
  lemma BodyFree(s: Snapshot, inlineReplies: set<string>)
    requires RuntimeFields(s)
    ensures forall l | l in Body(s, inlineReplies) :: Free(l, '\n')
  {
    MediaFree(s.media);
    QuotesFree(s, inlineReplies);
    ContentFree(s.text);
    ContentFree(s.caption);
    assert Free("[" + s.kind + "]", '\n');
    hide Forwarded, Quoted, ContentLines, MediaLines, Free;
  }

  lemma HeaderFree(s: Snapshot, showTopic: bool)
    requires RuntimeFields(s)
    ensures Free(HeaderLine(s, showTopic), '\n') && HeaderLine(s, showTopic) != END
  {
    HeaderReadsBack(s, showTopic);
    var line := HeaderLine(s, showTopic);
    ParseLineFinds(line);
    var id, bracket, name :| Matches(line, id, bracket, name);
    hide HeaderLine, ParseLine, RuntimeFields;
    MatchesFree(line, id, bracket, name);
    assert line[0] == '[' && END[0] == '<';
  }

  lemma MatchesFree(line: string, id: string, bracket: string, name: string)
    requires Matches(line, id, bracket, name)
    ensures Free(line, '\n') && line[0] == '['
  {
    assert Free(id, '\n') && Free(name, '\n');
  }

  /** A printed message is its header and silent lines. */
  lemma MessageReadsBack(s: Snapshot, showTopic: bool, inlineReplies: set<string>)
    requires RuntimeFields(s)
    ensures Split(Formatted(s, showTopic, inlineReplies), '\n') == Lines(s, showTopic, inlineReplies)
    ensures HeadersOf(Lines(s, showTopic, inlineReplies)) == [Expected(s)]
    ensures END !in Lines(s, showTopic, inlineReplies)
  {
    var body := Body(s, inlineReplies);
    BodyFree(s, inlineReplies);
    HeaderFree(s, showTopic);
    HeaderReadsBack(s, showTopic);
    hide Body, HeaderLine, RuntimeFields, Expected, ParseLine, Split, Free;
    IndentedSilent(body);
    SilentLines(Indented(body));
    hide Indented;
    var lines := Lines(s, showTopic, inlineReplies);
    SplitJoin(lines, '\n');
    SplitAllFree(lines, '\n');
    HeaderThenSilent(HeaderLine(s, showTopic), Indented(body), Expected(s));
  }

  lemma HeaderThenSilent(header: string, rest: seq<string>, expected: Header)
    requires ParseLine(header) == Some(expected) && HeadersOf(rest) == [] && header != END && AllSilent(rest)
    ensures HeadersOf([header] + rest) == [expected] && END !in [header] + rest
  {
    hide ParseLine;
    assert ([header] + rest)[1..] == rest;
  }

  // ---- a run of messages ----

  function ExpectedAll(ss: seq<Snapshot>): seq<Header> {
    if ss == [] then [] else [Expected(ss[0])] + ExpectedAll(ss[1..])
  }

  lemma {:induction false} MessagesReadBack(ss: seq<Snapshot>, showTopic: bool, inlineReplies: set<string>)
    requires forall s | s in ss :: RuntimeFields(s)
    ensures HeadersOf(SplitAll(Printed(ss, showTopic, inlineReplies), '\n')) == ExpectedAll(ss)
    ensures END !in SplitAll(Printed(ss, showTopic, inlineReplies), '\n')
    decreases ss
  {
    hide RuntimeFields, Formatted, Lines, Split, Expected, ParseLine;
    if ss != [] {
      var first := ss[0];
      assert first in ss && forall s | s in ss[1..] :: s in ss;
      MessageReadsBack(first, showTopic, inlineReplies);
      MessagesReadBack(ss[1..], showTopic, inlineReplies);
      var rest := Printed(ss[1..], showTopic, inlineReplies);
      var all := Printed(ss, showTopic, inlineReplies);
      assert all == [Formatted(first, showTopic, inlineReplies)] + rest && all[1..] == rest;
      HeadersAppend(Lines(first, showTopic, inlineReplies), SplitAll(rest, '\n'));
    }
  }

  lemma EmptyLine(c: char)
    ensures Split("", c) == [""] && HeadersOf([""]) == [] && END !in [""]
  {
    assert HeadersOf([""][1..]) == [];
    assert END != "";
  }

  lemma JoinedReadBack(ss: seq<Snapshot>, showTopic: bool, inlineReplies: set<string>)
    requires forall s | s in ss :: RuntimeFields(s)
    ensures HeadersOf(Split(JoinLines(Printed(ss, showTopic, inlineReplies)), '\n')) == ExpectedAll(ss)
    ensures END !in Split(JoinLines(Printed(ss, showTopic, inlineReplies)), '\n')
  {
    hide RuntimeFields, Formatted, Split, ParseLine;
    if ss == [] {
      EmptyLine('\n');
    } else {
      MessagesReadBack(ss, showTopic, inlineReplies);
      SplitJoin(Printed(ss, showTopic, inlineReplies), '\n');
    }
  }

  lemma CurrentReadBack(b: Batch)
    requires forall s | s in b.current :: RuntimeFields(s)
    ensures HeadersOf(Split(CurrentText(b), '\n')) == ExpectedAll(b.current) && END !in Split(CurrentText(b), '\n')
  {
    hide RuntimeFields, Split, ParseLine, OmissionLine;
    JoinedReadBack(b.current, b.showTopic, b.inlineReplies);
    var messages := JoinLines(Printed(b.current, b.showTopic, b.inlineReplies));
    hide Printed;
    if b.omitted == 0 {
      assert "" + messages == messages;
    } else {
      OmissionSilent(b.omitted);
      SplitHead(OmissionLine(b.omitted), '\n', messages);
      SilentLines([OmissionLine(b.omitted)]);
      HeadersAppend([OmissionLine(b.omitted)], Split(messages, '\n'));
    }
  }

  // ---- the whole batch ----

  /** The receipt is one line of JSON, the catalog one line of `id:emoji` pairs; neither holds a line feed. */
  predicate RuntimeText(b: Batch) {
    && (b.receipt.Some? ==> Free(b.receipt.value, '\n') && "{" <= b.receipt.value)
    && (b.catalog.Some? ==> Free(b.catalog.value, '\n') && b.catalog.value != "" && Digit(b.catalog.value[0]))
    && (forall s | s in b.history + b.current :: RuntimeFields(s))
  }

  lemma Enclosed(tag: string, other: string)
    requires "</" + tag + ">" == "</" + other + ">"
    ensures tag == other
  {
    assert ("</" + tag + ">")[2..][..|tag|] == tag;
    assert |"</" + tag + ">"| == |"</" + other + ">"|;
    assert ("</" + other + ">")[2..][..|other|] == other;
  }

  predicate Tag(tag: string) { Free(tag, '\n') && tag != RUNTIME_STATE && !("/" <= tag) }

  lemma TagsSilent(tag: string)
    requires Tag(tag)
    ensures Silent("<" + tag + ">") && Silent("</" + tag + ">")
    ensures Free("<" + tag + ">", '\n') && Free("</" + tag + ">", '\n')
  {
    var a, z := "<" + tag + ">", "</" + tag + ">";
    assert a != END by {
      assert END[1] == '/';
      assert tag != "" ==> a[1] == tag[0];
    }
    hide RUNTIME_STATE;
    if z == END { Enclosed(tag, RUNTIME_STATE); }
    hide END;
    NoBracketSilent(a);
    NoBracketSilent(z);
  }

  /** A section that says nothing about messages reads back as nothing. */
  lemma SectionReadBack(tag: string, content: Option<string>, expected: seq<Header>)
    requires Tag(tag)
    requires content.Some? ==> HeadersOf(Split(content.value, '\n')) == expected && END !in Split(content.value, '\n')
    requires content.None? ==> expected == []
    ensures HeadersOf(SplitAll(Section(tag, content), '\n')) == expected
    ensures END !in SplitAll(Section(tag, content), '\n')
  {
    hide ParseLine, Split, END;
    if content.Some? {
      TagsSilent(tag);
      hide Silent;
      TaggedReadBack("<" + tag + ">", content.value, "</" + tag + ">", expected);
    }
  }

  lemma SplitThree(a: string, b: string, c: string, at: char)
    ensures SplitAll([a, b, c], at) == Split(a, at) + (Split(b, at) + Split(c, at))
  {
    hide Split;
    var parts := [a, b, c];
    assert SplitAll([c], at) == Split(c, at) + SplitAll([c][1..], at);
    assert parts[1..] == [b, c] && [b, c][1..] == [c];
    assert SplitAll([b, c], at) == Split(b, at) + SplitAll([c], at);
  }

  lemma TaggedReadBack(open: string, content: string, close: string, expected: seq<Header>)
    requires Silent(open) && Silent(close) && Free(open, '\n') && Free(close, '\n')
    requires HeadersOf(Split(content, '\n')) == expected && END !in Split(content, '\n')
    ensures HeadersOf(SplitAll([open, content, close], '\n')) == expected
    ensures END !in SplitAll([open, content, close], '\n')
  {
    hide ParseLine, END;
    SplitFree(open, '\n');
    SplitFree(close, '\n');
    hide Split, Free;
    SplitThree(open, content, close, '\n');
    SilentLines([open]);
    SilentLines([close]);
    HeadersAppend(Split(content, '\n'), [close]);
    HeadersAppend([open], Split(content, '\n') + [close]);
  }

  lemma LineReadBack(line: string)
    requires Free(line, '\n') && Silent(line)
    ensures HeadersOf(Split(line, '\n')) == [] && END !in Split(line, '\n')
  {
    SplitFree(line, '\n');
    hide ParseLine;
    SilentLines([line]);
  }

  /** One line that names no message, in a section of its own. */
  lemma OneLineSection(tag: string, content: Option<string>)
    requires Tag(tag)
    requires content.Some? ==> Free(content.value, '\n') && content.value != "" && content.value[0] !in {'[', '<'}
    ensures HeadersOf(SplitAll(Section(tag, content), '\n')) == [] && END !in SplitAll(Section(tag, content), '\n')
  {
    RuntimeTags();
    hide END, Split, SplitAll, Section;
    if content.Some? {
      NoBracketSilent(content.value);
      LineReadBack(content.value);
    }
    SectionReadBack(tag, content, []);
  }

  lemma MessageSections(b: Batch)
    requires forall s | s in b.history + b.current :: RuntimeFields(s)
    ensures HeadersOf(SplitAll(Section(TELEGRAM_HISTORY, HistoryText(b)), '\n')) == ExpectedAll(b.history)
    ensures HeadersOf(SplitAll(Section(NEW_MESSAGES, Some(CurrentText(b))), '\n')) == ExpectedAll(b.current)
    ensures END !in SplitAll(Section(TELEGRAM_HISTORY, HistoryText(b)), '\n')
    ensures END !in SplitAll(Section(NEW_MESSAGES, Some(CurrentText(b))), '\n')
  {
    hide RuntimeFields, Split, SplitAll, Section, END, CurrentText, Printed, TELEGRAM_HISTORY, NEW_MESSAGES, HeadersOf;
    assert forall s | s in b.history :: s in b.history + b.current;
    assert forall s | s in b.current :: s in b.history + b.current;
    Tags();
    JoinedReadBack(b.history, b.showTopic, b.inlineReplies);
    CurrentReadBack(b);
    SectionReadBack(TELEGRAM_HISTORY, HistoryText(b), ExpectedAll(b.history));
    SectionReadBack(NEW_MESSAGES, Some(CurrentText(b)), ExpectedAll(b.current));
  }

  lemma TailReadBack(b: Batch)
    requires RuntimeText(b)
    ensures HeadersOf(SplitAll(Tail(b), '\n')) == ExpectedAll(b.history) + ExpectedAll(b.current)
    ensures END !in SplitAll(Tail(b), '\n')
  {
    hide RuntimeFields, SplitAll, Section, END, HistoryText, CurrentText, TASK_RECEIPT, STICKER_CATALOG, TELEGRAM_HISTORY,
      NEW_MESSAGES, HeadersOf, Tag, ExpectedAll;
    Tags();
    OneLineSection(TASK_RECEIPT, b.receipt);
    OneLineSection(STICKER_CATALOG, b.catalog);
    MessageSections(b);
    FourSections(Section(TASK_RECEIPT, b.receipt), Section(STICKER_CATALOG, b.catalog),
                 Section(TELEGRAM_HISTORY, HistoryText(b)), Section(NEW_MESSAGES, Some(CurrentText(b))));
  }

  lemma UntrustedTag(rest: string)
    requires Free(rest, '\n')
    ensures Tag("untrusted_" + rest)
  {
    var tag := "untrusted_" + rest;
    FreeAppend("untrusted_", rest, '\n');
    assert tag[0] == 'u' && RUNTIME_STATE[0] == 'r';
    hide Free;
  }

  lemma Tags()
    ensures Tag(TASK_RECEIPT) && Tag(STICKER_CATALOG) && Tag(TELEGRAM_HISTORY) && Tag(NEW_MESSAGES)
  {
    hide Tag;
    UntrustedTag("task_receipt");
    UntrustedTag("sticker_catalog");
    UntrustedTag("telegram_history");
    UntrustedTag("new_messages");
  }

  lemma RuntimeTags()
    ensures Free(START, '\n') && Free(END, '\n') && END != "" && END[0] == '<'
  {
  }

  lemma FourSections(a: seq<string>, b: seq<string>, c: seq<string>, d: seq<string>)
    ensures HeadersOf(SplitAll(a + b + c + d, '\n'))
            == HeadersOf(SplitAll(a, '\n')) + HeadersOf(SplitAll(b, '\n')) + HeadersOf(SplitAll(c, '\n'))
               + HeadersOf(SplitAll(d, '\n'))
    ensures forall line | line in SplitAll(a + b + c + d, '\n') ::
              line in SplitAll(a, '\n') || line in SplitAll(b, '\n') || line in SplitAll(c, '\n') || line in SplitAll(d, '\n')
  {
    hide SplitAll, HeadersOf;
    SplitAllAppend(a, b, '\n');
    SplitAllAppend(a + b, c, '\n');
    SplitAllAppend(a + b + c, d, '\n');
    HeadersAppend(SplitAll(a, '\n'), SplitAll(b, '\n'));
    HeadersAppend(SplitAll(a + b, '\n'), SplitAll(c, '\n'));
    HeadersAppend(SplitAll(a + b + c, '\n'), SplitAll(d, '\n'));
  }

  lemma {:induction false} LastIndexAt(a: seq<string>, line: string, b: seq<string>)
    requires line !in b
    ensures LastIndex(a + [line] + b, line) == |a|
    decreases |b|
  {
    var all := a + [line] + b;
    if b == [] {
      assert all == a + [line];
    } else {
      var last := b[|b| - 1];
      assert last in b && all[|all| - 1] == last;
      assert all[..|all| - 1] == a + [line] + b[..|b| - 1];
      LastIndexAt(a, line, b[..|b| - 1]);
    }
  }

  lemma RuntimeBlock(runtime: string)
    ensures SplitAll([START, runtime, END], '\n') == ([START] + Split(runtime, '\n')) + [END]
  {
    RuntimeTags();
    hide START, END;
    SplitFree(START, '\n');
    SplitFree(END, '\n');
    SplitThree(START, runtime, END, '\n');
    hide Split, SplitAll;
  }

  /**
   Whatever the runtime block quotes and whatever Telegram sent, a batch reads back as the headers of
   its messages, in order, and nothing else.
   */
  lemma BatchReadsBack(b: Batch)
    requires RuntimeText(b)
    ensures ReadBack(TextOf(b)) == ExpectedAll(b.history) + ExpectedAll(b.current)
  {
    var head, tail := [START, b.runtime, END], Tail(b);
    TailReadBack(b);
    hide RuntimeText, Tail, ParseLine, START, END;
    RuntimeBlock(b.runtime);
    SplitJoin(head + tail, '\n');
    SplitAllAppend(head, tail, '\n');
    hide Split, SplitAll;
    var a, rest := [START] + Split(b.runtime, '\n'), SplitAll(tail, '\n');
    LastIndexAt(a, END, rest);
    hide LastIndex;
    assert (a + [END] + rest)[|a| + 1..] == rest;
  }

  // ---- which messages a batch carries ----

  /** The length of a string in UTF-16 code units. */
  function Units(s: string): nat {
    if s == "" then 0 else (if s[0] as int > 0xFFFF then 2 else 1) + Units(s[1..])
  }

  function Total(sizes: seq<nat>): nat { if sizes == [] then 0 else sizes[0] + Total(sizes[1..]) }

  lemma {:induction false} TotalFrom(sizes: seq<nat>, j: nat, k: nat)
    requires j <= k <= |sizes|
    ensures Total(sizes[j..]) >= Total(sizes[k..])
    decreases k - j
  {
    if j < k {
      assert sizes[j..][1..] == sizes[j + 1..];
      TotalFrom(sizes, j + 1, k);
    }
  }

  /** Takes from the newest back while the text fits; with `keepNewest` the newest is taken in any case. */
  method SelectRecent(sizes: seq<nat>, used: nat, maximum: nat, keepNewest: bool) returns (from: nat, total: nat)
    ensures from <= |sizes| && total == used + Total(sizes[from..])
    ensures total <= maximum || from == |sizes| || (keepNewest && from == |sizes| - 1)
    ensures keepNewest && sizes != [] ==> from < |sizes|
    ensures forall j | 0 <= j < from && !(keepNewest && j == |sizes| - 1) :: used + Total(sizes[j..]) > maximum
  {
    from, total := |sizes|, used;
    while from > 0
      invariant from <= |sizes| && total == used + Total(sizes[from..])
      invariant total <= maximum || from == |sizes| || (keepNewest && from == |sizes| - 1)
    {
      assert sizes[from - 1..][1..] == sizes[from..];
      if !(keepNewest && from == |sizes|) && total + sizes[from - 1] > maximum {
        break;
      }
      from := from - 1;
      total := total + sizes[from];
    }
    forall j | 0 <= j < from && !(keepNewest && j == |sizes| - 1) ensures used + Total(sizes[j..]) > maximum {
      assert sizes[from - 1..][1..] == sizes[from..];
      TotalFrom(sizes, j, from - 1);
    }
  }

  method SizesOf(ss: seq<Snapshot>, showTopic: bool) returns (sizes: seq<nat>)
    ensures |sizes| == |ss| && forall i | 0 <= i < |ss| :: sizes[i] == Units(Formatted(ss[i], showTopic, {})) + 1
  {
    hide Formatted, Units;
    sizes := [];
    for k := 0 to |ss|
      invariant |sizes| == k && forall i | 0 <= i < k :: sizes[i] == Units(Formatted(ss[i], showTopic, {})) + 1
    {
      var text := FormatSnapshot(ss[k], showTopic, {});
      sizes := sizes + [Units(text) + 1];
    }
  }

  /** Numbers the attachments of one message from `next` on; stickers are not attached. */
  function Figures(media: seq<Media>, next: nat): (r: (seq<Media>, nat))
    decreases media
  {
    if media == [] then ([], next)
    else if media[0].kind == "sticker" then
      var rest := Figures(media[1..], next);
      ([media[0]] + rest.0, rest.1)
    else
      var rest := Figures(media[1..], next + 1);
      ([media[0].(figure := Some("figure_" + Decimal(next)))] + rest.0, rest.1)
  }

  lemma FigureFree(m: Media, n: nat)
    requires MediaFields(m)
    ensures MediaFields(m.(figure := Some("figure_" + Decimal(n))))
  {
    DecimalDigits(n);
  }

  lemma {:induction false} FiguresFree(media: seq<Media>, next: nat)
    requires forall m | m in media :: MediaFields(m)
    ensures forall m | m in Figures(media, next).0 :: MediaFields(m)
    decreases media
  {
    if media != [] {
      var first := media[0];
      assert first in media && forall m | m in media[1..] :: m in media;
      FigureFree(first, next);
      FiguresFree(media[1..], next);
      FiguresFree(media[1..], next + 1);
      hide MediaFields;
    }
  }

  function Figured(ss: seq<Snapshot>, next: nat): seq<Snapshot>
    decreases ss
  {
    if ss == [] then []
    else
      var media := Figures(ss[0].media, next);
      [ss[0].(media := media.0)] + Figured(ss[1..], media.1)
  }

  /** Numbering attachments changes no header and nothing the runtime vouches for. */
  lemma {:induction false} FiguredSame(ss: seq<Snapshot>, next: nat)
    requires forall s | s in ss :: RuntimeFields(s)
    ensures (forall s | s in Figured(ss, next) :: RuntimeFields(s)) && ExpectedAll(Figured(ss, next)) == ExpectedAll(ss)
    decreases ss
  {
    if ss != [] {
      var first := ss[0];
      assert first in ss && forall s | s in ss[1..] :: s in ss;
      FiguresFree(first.media, next);
      var media := Figures(first.media, next);
      var numbered := first.(media := media.0);
      assert RuntimeFields(numbered) && Expected(numbered) == Expected(first);
      hide RuntimeFields, Expected, Figures;
      FiguredSame(ss[1..], media.1);
      assert Figured(ss, next) == [numbered] + Figured(ss[1..], media.1);
      assert ([numbered] + Figured(ss[1..], media.1))[1..] == Figured(ss[1..], media.1);
    }
  }

  function Ids(ss: seq<Snapshot>): set<string> { set s | s in ss :: s.id }

  /** The batch made of the newest messages from the two given positions on. */
  function BatchOf(history: seq<Snapshot>, current: seq<Snapshot>, runtime: string, receipt: Option<string>,
                   catalog: Option<string>, showTopic: bool, images: bool, h: nat, c: nat): Batch
    requires h <= |history| && c <= |current|
  {
    Batch(runtime, receipt, catalog, history[h..], c, if images then Figured(current[c..], 1) else current[c..], showTopic,
          Ids(history[h..]) + Ids(current[c..]))
  }

  /**
   Renders the newest messages that fit, at least the newest new one, and history only as far as it
   fits beside them; what comes out reads back as exactly the headers of the messages it carries.
   */
  method RenderInjection(history: seq<Snapshot>, current: seq<Snapshot>, runtime: string, receipt: Option<string>,
                         catalog: Option<string>, showTopic: bool, images: bool, maximum: nat)
      returns (text: string, h: nat, c: nat)
    ensures h <= |history| && c <= |current| && (current != [] ==> c < |current|)
    ensures text == TextOf(BatchOf(history, current, runtime, receipt, catalog, showTopic, images, h, c))
    ensures RuntimeText(Batch(runtime, receipt, catalog, history, 0, current, showTopic, {})) ==>
              ReadBack(text) == ExpectedAll(history[h..]) + ExpectedAll(current[c..])
  {
    var sizes := SizesOf(current, showTopic);
    var used;
    c, used := SelectRecent(sizes, 0, maximum, true);
    var older := SizesOf(history, showTopic);
    h, used := SelectRecent(older, used, maximum, false);
    var batch := BatchOf(history, current, runtime, receipt, catalog, showTopic, images, h, c);
    text := TextOf(batch);
    if RuntimeText(Batch(runtime, receipt, catalog, history, 0, current, showTopic, {})) {
      BatchFields(history, current, runtime, receipt, catalog, showTopic, images, h, c);
      hide TextOf, ReadBack, RuntimeText, Figured, ExpectedAll;
      BatchReadsBack(batch);
    }
  }

  lemma BatchFields(history: seq<Snapshot>, current: seq<Snapshot>, runtime: string, receipt: Option<string>,
                    catalog: Option<string>, showTopic: bool, images: bool, h: nat, c: nat)
    requires h <= |history| && c <= |current|
    requires RuntimeText(Batch(runtime, receipt, catalog, history, 0, current, showTopic, {}))
    ensures var b := BatchOf(history, current, runtime, receipt, catalog, showTopic, images, h, c);
            RuntimeText(b) && ExpectedAll(b.history) == ExpectedAll(history[h..]) && ExpectedAll(b.current) == ExpectedAll(current[c..])
  {
    hide RuntimeFields, ExpectedAll, Figured, Free;
    assert forall s | s in history[h..] :: s in history + current;
    assert forall s | s in current[c..] :: s in history + current;
    FiguredSame(current[c..], 1);
  }
}
