/** What a printed message and a rendered batch show, read from the text alone. */
module MessageContent {
  import opened Options
  import opened JsText
  import opened MessageHeaders
  import opened Injection

  // ---- the lines of one message ----

  /** `lines` are the lines of a text, which is given back when they are joined; no text has no lines. */
  predicate LinesOf(content: Option<string>, lines: seq<string>) {
    if content.None? then lines == []
    else lines != [] && Join(lines, '\n') == content.value && forall l | l in lines :: Free(l, '\n')
  }

  /** A text made one line, with single blanks between its words. */
  function OnOneLine(s: string): string { Glue(Words(s)) }

  predicate ForwardLine(s: Snapshot, lines: seq<string>) {
    match s.forwardedFrom
    case None => lines == []
    case Some(name) => lines == ["(forwarded from " + OnOneLine(name) + ")"]
  }

  /** The quoted message is shown unless it is in the batch itself. */
  predicate QuoteLine(s: Snapshot, inlineReplies: set<string>, lines: seq<string>) {
    if s.quote.Some? && s.replyTo.Some? && s.replyTo.value !in inlineReplies
    then lines == ["> " + OnOneLine(s.quote.value.sender) + ": " + OnOneLine(s.quote.value.content)]
    else lines == []
  }

  function Optional(before: string, o: Option<string>, after: string): string {
    match o case None => "" case Some(value) => before + value + after
  }

  /** One line per medium: its kind, its figure when it has one, its reference, its size when known. */
  predicate MediaShown(media: seq<Media>, lines: seq<string>) {
    && |lines| == |media|
    && forall k | 0 <= k < |media| ::
         lines[k] == "[" + media[k].kind + " " + Optional("", media[k].figure, " ") + media[k].imageRef
                     + Optional(" ", media[k].size, "") + "]"
  }

  datatype Parts = Parts(forward: seq<string>, quote: seq<string>, text: seq<string>, caption: seq<string>, media: seq<string>)

  predicate PartsOf(s: Snapshot, inlineReplies: set<string>, p: Parts) {
    && ForwardLine(s, p.forward) && QuoteLine(s, inlineReplies, p.quote)
    && LinesOf(s.text, p.text) && LinesOf(s.caption, p.caption) && MediaShown(s.media, p.media)
  }

  function All(p: Parts): seq<string> { p.forward + p.quote + p.text + p.caption + p.media }

  /** What a body says: the parts there are, in order, or the kind alone when there are none. */
  ghost predicate Says(s: Snapshot, inlineReplies: set<string>, body: seq<string>) {
    exists p :: PartsOf(s, inlineReplies, p) && body == if All(p) == [] then ["[" + s.kind + "]"] else All(p)
  }

  lemma ContentSays(content: Option<string>)
    ensures LinesOf(content, ContentLines(content))
  {
    if content.Some? {
      JoinSplit(content.value, '\n');
      SplitPieces(content.value, '\n');
    }
  }

  lemma {:induction false} MediaSays(media: seq<Media>)
    ensures MediaShown(media, MediaLines(media))
    decreases media
  {
    if media != [] {
      MediaSays(media[1..]);
      var rest := MediaLines(media[1..]);
      forall k | 0 <= k < |media| ensures MediaLines(media)[k] == MediaLine(media[k]) {
        if k > 0 {
          assert media[1..][k - 1] == media[k];
          assert rest[k - 1] == MediaLine(media[k]);
        }
      }
    }
  }

  lemma BodySays(s: Snapshot, inlineReplies: set<string>)
    ensures Says(s, inlineReplies, Body(s, inlineReplies))
  {
    if s.forwardedFrom.Some? { SingleLineWords(s.forwardedFrom.value); }
    if s.quote.Some? {
      SingleLineWords(s.quote.value.sender);
      SingleLineWords(s.quote.value.content);
    }
    ContentSays(s.text);
    ContentSays(s.caption);
    MediaSays(s.media);
    var p := Parts(Forwarded(s), Quoted(s, inlineReplies), ContentLines(s.text), ContentLines(s.caption), MediaLines(s.media));
    assert ForwardLine(s, p.forward) && QuoteLine(s, inlineReplies, p.quote);
    hide LinesOf, MediaShown, SingleLine, Glue, ContentLines, MediaLines, ForwardLine, QuoteLine, Forwarded, Quoted;
    assert PartsOf(s, inlineReplies, p) && All(p) == Written(s, inlineReplies);
  }

  // ---- the tokens of a header ----

  function Token(present: bool, token: string): seq<string> { if present then [token] else [] }

  /** What stands between the brackets: id and time, and after them whatever else is known, in this order. */
  function BracketTokens(s: Snapshot, showTopic: bool): seq<string> {
    [s.id, s.time]
    + Token(showTopic && s.topic.Some?, "topic:" + Optional("", s.topic, ""))
    + Token(s.byBot, "you")
    + Token(s.replyTo.Some?, "re:" + Optional("", s.replyTo, ""))
    + Token(s.senderId.Some?, "uid:" + Optional("", s.senderId, ""))
    + Token(s.username.Some? && Username(s.username.value), "@" + Optional("", s.username, ""))
  }

  /** A header line is its tokens between brackets and the sender's name, on one line. */
  predicate HeaderSays(s: Snapshot, showTopic: bool, line: string) {
    line == "[" + Glue(BracketTokens(s, showTopic)) + "] " + OnOneLine(if s.name.Some? then s.name.value else "unknown")
  }

  lemma AlsoIs(tokens: seq<string>, condition: bool, token: string)
    ensures Also(tokens, condition, token) == tokens + Token(condition, token)
  {
    assert tokens + [] == tokens;
  }

  lemma HeaderIs(s: Snapshot, showTopic: bool)
    ensures HeaderSays(s, showTopic, HeaderLine(s, showTopic))
  {
    SingleLineWords(if s.name.Some? then s.name.value else "unknown");
    var a, b, c, d, e := Token(showTopic && s.topic.Some?, "topic:" + Value(s.topic)), Token(s.byBot, "you"),
      Token(s.replyTo.Some?, "re:" + Value(s.replyTo)), Token(s.senderId.Some?, "uid:" + Value(s.senderId)),
      Token(s.username.Some? && Username(s.username.value), "@" + Value(s.username));
    var base := [s.id, s.time];
    AlsoIs(base, showTopic && s.topic.Some?, "topic:" + Value(s.topic));
    AlsoIs(base + a, s.byBot, "you");
    AlsoIs(base + a + b, s.replyTo.Some?, "re:" + Value(s.replyTo));
    AlsoIs(base + a + b + c, s.senderId.Some?, "uid:" + Value(s.senderId));
    AlsoIs(base + a + b + c + d, s.username.Some? && Username(s.username.value), "@" + Value(s.username));
    ValuesOptional(s);
    hide Also, Token, Username, SingleLine, Value, Optional, Words;
    assert TokensFrom(base, s, showTopic) == base + a + b + c + d + e;
    assert BracketTokens(s, showTopic) == base + a + b + c + d + e;
    assert base + a + b + c + d + e != [];
    hide Join;
  }

  lemma ValuesOptional(s: Snapshot)
    ensures Value(s.topic) == Optional("", s.topic, "") && Value(s.replyTo) == Optional("", s.replyTo, "")
    ensures Value(s.senderId) == Optional("", s.senderId, "") && Value(s.username) == Optional("", s.username, "")
  {
  }

  // ---- a printed message ----

  /** The lines without their first two characters, which are blanks. */
  ghost predicate Dedents(lines: seq<string>, body: seq<string>) {
    |lines| == |body| && forall k | 0 <= k < |lines| :: lines[k] == "  " + body[k]
  }

  /** The lines are those of a message: its header, and its body set two blanks in. */
  ghost predicate Shows(s: Snapshot, showTopic: bool, inlineReplies: set<string>, lines: seq<string>) {
    lines != [] && HeaderSays(s, showTopic, lines[0])
    && exists body :: Says(s, inlineReplies, body) && Dedents(lines[1..], body)
  }

  lemma {:induction false} IndentedDedents(body: seq<string>)
    ensures Dedents(Indented(body), body)
    decreases body
  {
    if body != [] { IndentedDedents(body[1..]); }
  }

  /** A printed message shows who wrote it, when, and everything it says. */
  lemma FormattedShows(s: Snapshot, showTopic: bool, inlineReplies: set<string>)
    requires RuntimeFields(s)
    ensures Shows(s, showTopic, inlineReplies, Split(Formatted(s, showTopic, inlineReplies), '\n'))
  {
    MessageReadsBack(s, showTopic, inlineReplies);
    HeaderIs(s, showTopic);
    BodySays(s, inlineReplies);
    IndentedDedents(Body(s, inlineReplies));
    hide Split, Formatted, RuntimeFields, Expected, HeadersOf, HeaderSays, Says, Body, Indented, HeaderLine, Dedents;
    var lines := Lines(s, showTopic, inlineReplies);
    assert lines[1..] == Indented(Body(s, inlineReplies));
  }

  /** In particular a message that is only a text gives that text back. */
  lemma TextShown(s: Snapshot, inlineReplies: set<string>, body: seq<string>)
    requires Says(s, inlineReplies, body)
    requires s.text.Some? && s.caption.None? && s.media == [] && s.forwardedFrom.None? && s.quote.None?
    ensures body != [] && Join(body, '\n') == s.text.value
  {
    hide Join, Free;
    var p :| PartsOf(s, inlineReplies, p) && body == if All(p) == [] then ["[" + s.kind + "]"] else All(p);
    assert All(p) == p.text;
  }

  // ---- a rendered batch ----

  /** The messages of a section, one after the other and nothing in between. */
  ghost predicate ShowsAll(ss: seq<Snapshot>, showTopic: bool, inlineReplies: set<string>, lines: seq<string>)
    decreases ss
  {
    if ss == [] then lines == []
    else
      exists n: nat :: n <= |lines| && Shows(ss[0], showTopic, inlineReplies, lines[..n])
                       && ShowsAll(ss[1..], showTopic, inlineReplies, lines[n..])
  }

  function Tagged(tag: string, content: seq<string>): seq<string> { ["<" + tag + ">"] + content + ["</" + tag + ">"] }

  /** A section is written only when there is something in it. */
  function Present(tag: string, content: Option<string>): seq<string> {
    match content case None => [] case Some(text) => Tagged(tag, Split(text, '\n'))
  }

  /** How many new messages were left out, where any were. */
  function Omission(n: nat): seq<string> {
    if n == 0 then [] else ["[" + Decimal(n) + " earlier new messages omitted to fit the model context]"]
  }

  function OrBlank(lines: seq<string>): seq<string> { if lines == [] then [""] else lines }

  /**
   The lines of a batch: the runtime block, a receipt and a catalog where there are, the history where there is any, and
   the new messages under the count of those left out.
   */
  ghost predicate Layout(b: Batch, lines: seq<string>) {
    exists history, current ::
      && ShowsAll(b.history, b.showTopic, b.inlineReplies, history)
      && ShowsAll(b.current, b.showTopic, b.inlineReplies, current)
      && lines == Tagged("runtime_state", Split(b.runtime, '\n'))
                  + Present("untrusted_task_receipt", b.receipt)
                  + Present("untrusted_sticker_catalog", b.catalog)
                  + (if b.history == [] then [] else Tagged("untrusted_telegram_history", history))
                  + Tagged("untrusted_new_messages", Omission(b.omitted) + OrBlank(current))
  }

  lemma ShowsMore(s: Snapshot, ss: seq<Snapshot>, showTopic: bool, inlineReplies: set<string>, a: seq<string>, b: seq<string>)
    requires Shows(s, showTopic, inlineReplies, a) && ShowsAll(ss, showTopic, inlineReplies, b)
    ensures ShowsAll([s] + ss, showTopic, inlineReplies, a + b)
  {
    hide Shows;
    assert (a + b)[..|a|] == a && (a + b)[|a|..] == b && ([s] + ss)[1..] == ss && ([s] + ss)[0] == s;
  }

  lemma {:induction false} PrintedShows(ss: seq<Snapshot>, showTopic: bool, inlineReplies: set<string>)
    requires forall s | s in ss :: RuntimeFields(s)
    ensures var lines := SplitAll(Printed(ss, showTopic, inlineReplies), '\n');
            ShowsAll(ss, showTopic, inlineReplies, lines) && (ss != [] ==> lines != [])
    decreases ss
  {
    hide RuntimeFields, Shows, ShowsAll, Formatted, Split;
    if ss == [] {
      NothingShown(showTopic, inlineReplies);
    } else {
      var first := ss[0];
      assert first in ss && forall s | s in ss[1..] :: s in ss;
      FormattedShows(first, showTopic, inlineReplies);
      PrintedShows(ss[1..], showTopic, inlineReplies);
      var text, rest := Formatted(first, showTopic, inlineReplies), Printed(ss[1..], showTopic, inlineReplies);
      ShowsMore(first, ss[1..], showTopic, inlineReplies, Split(text, '\n'), SplitAll(rest, '\n'));
      assert [first] + ss[1..] == ss && ([text] + rest)[1..] == rest;
    }
  }

  lemma NothingShown(showTopic: bool, inlineReplies: set<string>)
    ensures ShowsAll([], showTopic, inlineReplies, [])
  {
  }

  /** The lines of a section's messages; none leave one empty line. */
  lemma JoinedLines(ss: seq<Snapshot>, showTopic: bool, inlineReplies: set<string>)
    requires forall s | s in ss :: RuntimeFields(s)
    ensures var lines := SplitAll(Printed(ss, showTopic, inlineReplies), '\n');
            Split(JoinLines(Printed(ss, showTopic, inlineReplies)), '\n') == OrBlank(lines)
  {
    PrintedShows(ss, showTopic, inlineReplies);
    hide RuntimeFields, Formatted, Split, ShowsAll;
    if ss == [] { EmptyLine('\n'); } else { SplitJoin(Printed(ss, showTopic, inlineReplies), '\n'); }
  }

  lemma TaggedLines(tag: string, content: Option<string>)
    requires Tag(tag)
    ensures SplitAll(Section(tag, content), '\n') == Present(tag, content)
  {
    TagsSilent(tag);
    if content.Some? {
      var open, close := "<" + tag + ">", "</" + tag + ">";
      SplitFree(open, '\n');
      SplitFree(close, '\n');
      hide Split, Tag, Silent;
      SplitThree(open, content.value, close, '\n');
    }
  }

  lemma CurrentLines(b: Batch)
    requires forall s | s in b.current :: RuntimeFields(s)
    ensures var lines := SplitAll(Printed(b.current, b.showTopic, b.inlineReplies), '\n');
            Split(CurrentText(b), '\n') == Omission(b.omitted) + OrBlank(lines)
  {
    hide RuntimeFields, Split, Printed, SplitAll, Decimal;
    JoinedLines(b.current, b.showTopic, b.inlineReplies);
    var messages := JoinLines(Printed(b.current, b.showTopic, b.inlineReplies));
    if b.omitted == 0 {
      assert "" + messages == messages;
    } else {
      OmissionIs(b.omitted);
      OmissionSilent(b.omitted);
      SplitHead(OmissionLine(b.omitted), '\n', messages);
    }
  }

  /** The number a decimal text stands for. */
  function ValueOf(s: string): nat {
    if s == "" then 0 else ValueOf(s[..|s| - 1]) * 10 + if Digit(s[|s| - 1]) then s[|s| - 1] as int - '0' as int else 0
  }

  /** A number is written in decimal digits that stand for it, without a leading zero. */
  lemma {:induction false} DecimalReads(n: nat)
    ensures ValueOf(Decimal(n)) == n && Decimal(n) != "" && (n > 0 ==> Decimal(n)[0] != '0')
    decreases n
  {
    if n >= 10 {
      DecimalReads(n / 10);
      var s := Decimal(n);
      assert s[..|s| - 1] == Decimal(n / 10);
    } else {
      assert Decimal(n)[..0] == "";
    }
  }

  lemma OmissionIs(n: nat)
    ensures n > 0 ==> Omission(n) == [OmissionLine(n)]
  {
    hide Decimal;
    assert OMITTED + "]" == " earlier new messages omitted to fit the model context]";
    hide OMITTED;
    assert "[" + Decimal(n) + OMITTED + "]" == "[" + Decimal(n) + (OMITTED + "]");
  }

  /** Everything a batch carries is in its text, section by section, and nothing else is. */
  lemma BatchSays(b: Batch)
    requires forall s | s in b.history + b.current :: RuntimeFields(s)
    ensures Layout(b, Split(TextOf(b), '\n'))
  {
    hide RuntimeFields, Split, Section, Tag, Printed, CurrentText, Tagged, Present, Omission, ShowsAll;
    assert forall s | s in b.history :: s in b.history + b.current;
    assert forall s | s in b.current :: s in b.history + b.current;
    var history := SplitAll(Printed(b.history, b.showTopic, b.inlineReplies), '\n');
    var current := SplitAll(Printed(b.current, b.showTopic, b.inlineReplies), '\n');
    PrintedShows(b.history, b.showTopic, b.inlineReplies);
    PrintedShows(b.current, b.showTopic, b.inlineReplies);
    JoinedLines(b.history, b.showTopic, b.inlineReplies);
    CurrentLines(b);
    SplitJoin([START, b.runtime, END] + Tail(b), '\n');
    SplitAllAppend([START, b.runtime, END], Tail(b), '\n');
    TailLines(b, history, current);
    RuntimeLines(b.runtime);
  }

  lemma RuntimeLines(runtime: string)
    ensures SplitAll([START, runtime, END], '\n') == Tagged("runtime_state", Split(runtime, '\n'))
  {
    RuntimeBlock(runtime);
    assert START == "<runtime_state>" && END == "</runtime_state>";
    hide Split, SplitAll;
  }

  lemma TailLines(b: Batch, history: seq<string>, current: seq<string>)
    requires b.history != [] ==> Split(JoinLines(Printed(b.history, b.showTopic, b.inlineReplies)), '\n') == history
    requires Split(CurrentText(b), '\n') == Omission(b.omitted) + OrBlank(current)
    ensures SplitAll(Tail(b), '\n')
            == Present("untrusted_task_receipt", b.receipt) + Present("untrusted_sticker_catalog", b.catalog)
               + (if b.history == [] then [] else Tagged("untrusted_telegram_history", history))
               + Tagged("untrusted_new_messages", Omission(b.omitted) + OrBlank(current))
  {
    Tags();
    TagNames();
    hide Split, SplitAll, Section, Tag, Printed, CurrentText, TASK_RECEIPT, STICKER_CATALOG, TELEGRAM_HISTORY, NEW_MESSAGES,
      Omission, OrBlank, Tagged;
    var a, c, h, n := Section(TASK_RECEIPT, b.receipt), Section(STICKER_CATALOG, b.catalog),
      Section(TELEGRAM_HISTORY, HistoryText(b)), Section(NEW_MESSAGES, Some(CurrentText(b)));
    TaggedLines(TASK_RECEIPT, b.receipt);
    TaggedLines(STICKER_CATALOG, b.catalog);
    TaggedLines(TELEGRAM_HISTORY, HistoryText(b));
    TaggedLines(NEW_MESSAGES, Some(CurrentText(b)));
    SplitAllAppend(a, c, '\n');
    SplitAllAppend(a + c, h, '\n');
    SplitAllAppend(a + c + h, n, '\n');
  }

  lemma TagNames()
    ensures TASK_RECEIPT == "untrusted_task_receipt" && STICKER_CATALOG == "untrusted_sticker_catalog"
    ensures TELEGRAM_HISTORY == "untrusted_telegram_history" && NEW_MESSAGES == "untrusted_new_messages"
  {
  }

  // ---- what the renderer makes of its messages ----

  function Counts(m: Media): nat { if m.kind == "sticker" then 0 else 1 }

  /** How many of the first `p` media are attached: all but stickers. */
  function Attached(media: seq<Media>, p: nat): nat
    requires p <= |media|
  {
    if p == 0 then 0 else Attached(media, p - 1) + Counts(media[p - 1])
  }

  /** How many attachments the first `m` messages have. */
  function AttachedIn(ss: seq<Snapshot>, m: nat): nat
    requires m <= |ss|
  {
    if m == 0 then 0 else AttachedIn(ss, m - 1) + Attached(ss[m - 1].media, |ss[m - 1].media|)
  }

  /** An attachment under its number; a sticker has none. */
  function Named(m: Media, n: nat): Media {
    if m.kind == "sticker" then m else m.(figure := Some("figure_" + Decimal(n)))
  }

  /** The same media, each attachment named by its number from `next` on. */
  ghost predicate Numbered(media: seq<Media>, fs: seq<Media>, next: nat) {
    |fs| == |media| && forall p: nat | p < |media| :: fs[p] == Named(media[p], next + Attached(media, p))
  }

  /** The same messages, their attachments numbered through all of them. */
  ghost predicate AllNumbered(ss: seq<Snapshot>, fs: seq<Snapshot>, next: nat) {
    |fs| == |ss| && forall m: nat | m < |ss| ::
      fs[m] == ss[m].(media := fs[m].media) && Numbered(ss[m].media, fs[m].media, next + AttachedIn(ss, m))
  }

  lemma {:induction false} AttachedTail(media: seq<Media>, p: nat)
    requires 0 < p <= |media|
    ensures Attached(media, p) == Counts(media[0]) + Attached(media[1..], p - 1) && Attached(media, 0) == 0
    decreases p
  {
    hide Counts;
    if p > 1 { AttachedTail(media, p - 1); }
  }

  lemma {:induction false} AttachedInTail(ss: seq<Snapshot>, m: nat)
    requires 0 < m <= |ss|
    ensures AttachedIn(ss, m) == Attached(ss[0].media, |ss[0].media|) + AttachedIn(ss[1..], m - 1)
    decreases m
  {
    if m > 1 { AttachedInTail(ss, m - 1); }
  }

  lemma FiguresStep(media: seq<Media>, next: nat)
    requires media != []
    ensures var step := next + Counts(media[0]);
            Figures(media, next) == ([Named(media[0], next)] + Figures(media[1..], step).0, Figures(media[1..], step).1)
  {
    hide Decimal;
  }

  lemma {:induction false} FiguresNumber(media: seq<Media>, next: nat)
    ensures Numbered(media, Figures(media, next).0, next) && Figures(media, next).1 == next + Attached(media, |media|)
    decreases media
  {
    hide Named, Counts, Attached, Figures;
    NoFigures(next);
    if media != [] {
      var step := next + Counts(media[0]);
      FiguresStep(media, next);
      FiguresNumber(media[1..], step);
      AttachedTail(media, |media|);
      var fs, rest := Figures(media, next).0, Figures(media[1..], step).0;
      forall p: nat | p < |media| ensures fs[p] == Named(media[p], next + Attached(media, p)) {
        if p > 0 {
          AttachedTail(media, p);
          assert fs[p] == rest[p - 1] && media[1..][p - 1] == media[p];
        }
      }
    }
  }

  lemma NoFigures(next: nat)
    ensures Figures([], next) == ([], next) && Attached([], 0) == 0
  {
  }

  lemma {:induction false} FiguredNumbers(ss: seq<Snapshot>, next: nat)
    ensures AllNumbered(ss, Figured(ss, next), next)
    decreases ss
  {
    hide Figures, Numbered;
    if ss != [] {
      FiguresNumber(ss[0].media, next);
      var step := Figures(ss[0].media, next).1;
      FiguredNumbers(ss[1..], step);
      var fs, rest := Figured(ss, next), Figured(ss[1..], step);
      assert fs[1..] == rest;
      forall m: nat | m < |ss|
        ensures fs[m] == ss[m].(media := fs[m].media) && Numbered(ss[m].media, fs[m].media, next + AttachedIn(ss, m))
      {
        if m > 0 {
          AttachedInTail(ss, m);
          assert fs[m] == rest[m - 1] && ss[1..][m - 1] == ss[m];
        }
      }
    }
  }

  /**
   What the renderer returns: the runtime block, receipt and catalog it was given, the history from `h` on, the number of
   new messages left out, and the new messages from `c` on, their attachments numbered from one where images are sent;
   a quote is shown unless the quoted message is among those shown.
   */
  lemma RenderedSays(history: seq<Snapshot>, current: seq<Snapshot>, runtime: string, receipt: Option<string>,
                     catalog: Option<string>, showTopic: bool, images: bool, h: nat, c: nat)
    requires h <= |history| && c <= |current| && forall s | s in history + current :: RuntimeFields(s)
    ensures exists shown, ids ::
              && (if images then AllNumbered(current[c..], shown, 1) else shown == current[c..])
              && (forall id :: id in ids <==> exists s :: s in history[h..] + current[c..] && s.id == id)
              && Layout(Batch(runtime, receipt, catalog, history[h..], c, shown, showTopic, ids),
                        Split(TextOf(BatchOf(history, current, runtime, receipt, catalog, showTopic, images, h, c)), '\n'))
  {
    var b := BatchOf(history, current, runtime, receipt, catalog, showTopic, images, h, c);
    ShownFields(history, current, h, c);
    FiguredNumbers(current[c..], 1);
    FiguredSame(current[c..], 1);
    ShownIds(history[h..], current[c..]);
    hide RuntimeFields, AllNumbered, Layout, Split, TextOf, Figured, ExpectedAll, Ids;
    BatchSays(b);
    assert b == Batch(runtime, receipt, catalog, history[h..], c, b.current, showTopic, b.inlineReplies);
  }

  lemma ShownFields(history: seq<Snapshot>, current: seq<Snapshot>, h: nat, c: nat)
    requires h <= |history| && c <= |current| && forall s | s in history + current :: RuntimeFields(s)
    ensures (forall s | s in history[h..] :: RuntimeFields(s)) && (forall s | s in current[c..] :: RuntimeFields(s))
  {
    hide RuntimeFields;
    assert forall s | s in history[h..] :: s in history + current;
    assert forall s | s in current[c..] :: s in history + current;
  }

  lemma ShownIds(a: seq<Snapshot>, b: seq<Snapshot>)
    ensures forall id :: id in Ids(a) + Ids(b) <==> exists s :: s in a + b && s.id == id
  {
    forall id ensures id in Ids(a) + Ids(b) <==> exists s :: s in a + b && s.id == id {
      if id in Ids(a) { var s :| s in a && s.id == id; assert s in a + b; }
      if id in Ids(b) { var s :| s in b && s.id == id; assert s in a + b; }
    }
  }
}
