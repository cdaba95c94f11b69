/** How a Telegram message is printed into a batch, and how its header is read back. */
module MessageHeaders {
  import opened Options
  import opened JsText

  datatype Quote = Quote(sender: string, content: string)
  datatype Media = Media(kind: string, figure: Option<string>, imageRef: string, size: Option<string>)

  /** A stored message; `time` and `topic` are already formatted. */
  datatype Snapshot = Snapshot(
    id: string, time: string, topic: Option<string>, byBot: bool, replyTo: Option<string>,
    senderId: Option<string>, name: Option<string>, username: Option<string>,
    kind: string, text: Option<string>, caption: Option<string>, quote: Option<Quote>, forwardedFrom: Option<string>,
    media: seq<Media>)

  datatype Header = Header(messageId: string, senderId: Option<string>, name: string, username: Option<string>)

  // ---- characters ----

  predicate Digit(c: char) { '0' <= c <= '9' }
  predicate Digits(s: string) { s != "" && forall c | c in s :: Digit(c) }
  predicate PositiveDecimal(s: string) { Digits(s) && s[0] != '0' }
  predicate SignedDecimal(s: string) { Digits(s) || (s != "" && s[0] == '-' && Digits(s[1..])) }
  predicate TimeToken(s: string) { s != "" && forall c | c in s :: Digit(c) || c in {':', '-', 'T'} }
  predicate Username(s: string) {
    s != "" && forall c | c in s :: Digit(c) || 'a' <= c <= 'z' || 'A' <= c <= 'Z' || c == '_'
  }

  /** What the runtime itself writes: numbers, a clock time, the kinds and references of media. */
  predicate RuntimeFields(s: Snapshot) {
    && PositiveDecimal(s.id) && TimeToken(s.time)
    && (s.topic.Some? ==> Digits(s.topic.value))
    && (s.replyTo.Some? ==> Digits(s.replyTo.value))
    && (s.senderId.Some? ==> SignedDecimal(s.senderId.value))
    && Free(s.kind, '\n')
    && (forall m | m in s.media :: MediaFields(m))
  }

  predicate MediaFields(m: Media) {
    Free(m.kind, '\n') && Free(Value(m.figure), '\n') && Free(m.imageRef, '\n') && Free(Value(m.size), '\n')
  }

  // ---- printing ----

  function Value(o: Option<string>): string { if o.Some? then o.value else "" }

  function Also(tokens: seq<string>, condition: bool, token: string): seq<string> {
    if condition then tokens + [token] else tokens
  }

  /** The tokens of a header, pushed in order after `base`. */
  function TokensFrom(base: seq<string>, s: Snapshot, showTopic: bool): seq<string> {
    var withTopic := Also(base, showTopic && s.topic.Some?, "topic:" + Value(s.topic));
    var withYou := Also(withTopic, s.byBot, "you");
    var withReply := Also(withYou, s.replyTo.Some?, "re:" + Value(s.replyTo));
    var withUid := Also(withReply, s.senderId.Some?, "uid:" + Value(s.senderId));
    Also(withUid, s.username.Some? && Username(s.username.value), "@" + Value(s.username))
  }

  function ShownName(s: Snapshot): string { SingleLine(if s.name.Some? then s.name.value else "unknown") }

  lemma TokensNotEmpty(base: seq<string>, s: Snapshot, showTopic: bool)
    requires base != []
    ensures TokensFrom(base, s, showTopic) != []
  {
  }

  function HeaderLine(s: Snapshot, showTopic: bool): string {
    TokensNotEmpty([s.id, s.time], s, showTopic);
    "[" + Join(TokensFrom([s.id, s.time], s, showTopic), ' ') + "] " + ShownName(s)
  }

  function MediaLine(m: Media): string {
    "[" + m.kind + " " + (if m.figure.Some? then m.figure.value + " " else "") + m.imageRef
    + (if m.size.Some? then " " + m.size.value else "") + "]"
  }

  function MediaLines(media: seq<Media>): seq<string> {
    if media == [] then [] else [MediaLine(media[0])] + MediaLines(media[1..])
  }

  function ContentLines(content: Option<string>): seq<string> {
    if content.None? then [] else Split(content.value, '\n')
  }

  function Forwarded(s: Snapshot): seq<string> {
    if s.forwardedFrom.Some? then ["(forwarded from " + SingleLine(s.forwardedFrom.value) + ")"] else []
  }

  function Quoted(s: Snapshot, inlineReplies: set<string>): seq<string> {
    if s.quote.Some? && s.replyTo.Some? && s.replyTo.value !in inlineReplies
    then ["> " + SingleLine(s.quote.value.sender) + ": " + SingleLine(s.quote.value.content)] else []
  }

  function Written(s: Snapshot, inlineReplies: set<string>): seq<string> {
    Forwarded(s) + Quoted(s, inlineReplies) + ContentLines(s.text) + ContentLines(s.caption) + MediaLines(s.media)
  }

  function Body(s: Snapshot, inlineReplies: set<string>): seq<string> {
    if Written(s, inlineReplies) == [] then ["[" + s.kind + "]"] else Written(s, inlineReplies)
  }

  function Indented(lines: seq<string>): seq<string> {
    if lines == [] then [] else ["  " + lines[0]] + Indented(lines[1..])
  }

  function Lines(s: Snapshot, showTopic: bool, inlineReplies: set<string>): seq<string> {
    [HeaderLine(s, showTopic)] + Indented(Body(s, inlineReplies))
  }

  function Formatted(s: Snapshot, showTopic: bool, inlineReplies: set<string>): string {
    Join(Lines(s, showTopic, inlineReplies), '\n')
  }

  lemma {:induction false} MediaSnoc(media: seq<Media>, m: Media)
    ensures MediaLines(media + [m]) == MediaLines(media) + [MediaLine(m)]
    decreases media
  {
    if media == [] {
      assert media + [m] == [m];
    } else {
      assert (media + [m])[1..] == media[1..] + [m];
      MediaSnoc(media[1..], m);
    }
  }

  lemma {:induction false} IndentedSnoc(lines: seq<string>, line: string)
    ensures Indented(lines + [line]) == Indented(lines) + ["  " + line]
    decreases lines
  {
    if lines == [] {
      assert lines + [line] == [line];
    } else {
      assert (lines + [line])[1..] == lines[1..] + [line];
      IndentedSnoc(lines[1..], line);
    }
  }

  method TokensOf(s: Snapshot, showTopic: bool) returns (tokens: seq<string>)
    ensures tokens == TokensFrom([s.id, s.time], s, showTopic)
  {
    tokens := [s.id, s.time];
    if showTopic && s.topic.Some? { tokens := tokens + ["topic:" + s.topic.value]; }
    if s.byBot { tokens := tokens + ["you"]; }
    if s.replyTo.Some? { tokens := tokens + ["re:" + s.replyTo.value]; }
    if s.senderId.Some? { tokens := tokens + ["uid:" + s.senderId.value]; }
    if s.username.Some? && Username(s.username.value) { tokens := tokens + ["@" + s.username.value]; }
  }

  /** Prints one message: tokens and body are pushed one by one. */
  method FormatSnapshot(s: Snapshot, showTopic: bool, inlineReplies: set<string>) returns (text: string)
    ensures text == Formatted(s, showTopic, inlineReplies)
  {
    hide TokensFrom, Body, SingleLine;
    TokensNotEmpty([s.id, s.time], s, showTopic);
    var tokens := TokensOf(s, showTopic);
    var body := BodyOf(s, inlineReplies);
    var lines := [];
    for k := 0 to |body|
      invariant lines == Indented(body[..k])
    {
      assert body[..k + 1] == body[..k] + [body[k]];
      IndentedSnoc(body[..k], body[k]);
      lines := lines + ["  " + body[k]];
    }
    assert body[..|body|] == body;
    var header := "[" + Join(tokens, ' ') + "] " + ShownName(s);
    return Join([header] + lines, '\n');
  }

  method BodyOf(s: Snapshot, inlineReplies: set<string>) returns (body: seq<string>)
    ensures body == Body(s, inlineReplies)
  {
    hide SingleLine, Split;
    body := [];
    if s.forwardedFrom.Some? { body := ["(forwarded from " + SingleLine(s.forwardedFrom.value) + ")"]; }
    assert body == Forwarded(s);
    var quoted := [];
    if s.quote.Some? && s.replyTo.Some? && s.replyTo.value !in inlineReplies {
      quoted := ["> " + SingleLine(s.quote.value.sender) + ": " + SingleLine(s.quote.value.content)];
    }
    assert quoted == Quoted(s, inlineReplies);
    hide Forwarded, Quoted;
    body := body + quoted;
    if s.text.Some? { body := body + Split(s.text.value, '\n'); } else { assert body + [] == body; }
    assert body == Forwarded(s) + Quoted(s, inlineReplies) + ContentLines(s.text);
    if s.caption.Some? { body := body + Split(s.caption.value, '\n'); } else { assert body + [] == body; }
    assert body == Forwarded(s) + Quoted(s, inlineReplies) + ContentLines(s.text) + ContentLines(s.caption);
    var media := MediaOf(s.media);
    body := body + media;
    if body == [] { body := ["[" + s.kind + "]"]; }
  }

  method MediaOf(media: seq<Media>) returns (lines: seq<string>)
    ensures lines == MediaLines(media)
  {
    lines := [];
    for k := 0 to |media|
      invariant lines == MediaLines(media[..k])
    {
      assert media[..k + 1] == media[..k] + [media[k]];
      MediaSnoc(media[..k], media[k]);
      lines := lines + [MediaLine(media[k])];
    }
    assert media[..|media|] == media;
  }

  // ---- reading one line ----

  /** What `.*` can match. */
  predicate OneLine(s: string) { forall c | c in s :: !LineTerminator(c) }

  /** The expression `^\[([1-9][0-9]*) ([^\]\n]*)\] (.*)$` with its three groups. */
  predicate Matches(line: string, id: string, bracket: string, name: string) {
    && PositiveDecimal(id) && Free(bracket, ']') && Free(bracket, '\n')
    && OneLine(name)
    && line == "[" + (id + (" " + (bracket + ("]" + (" " + name)))))
  }

  function FirstUid(tokens: seq<string>): Option<string> {
    if tokens == [] then None
    else if "uid:" <= tokens[0] && Digits(tokens[0][4..]) then Some(tokens[0][4..])
    else FirstUid(tokens[1..])
  }

  function FirstName(tokens: seq<string>): Option<string> {
    if tokens == [] then None
    else if "@" <= tokens[0] then Some(tokens[0][1..])
    else FirstName(tokens[1..])
  }

  function HeaderOf(id: string, bracket: string, name: string): Header {
    var tokens := Split(bracket, ' ');
    Header(id, FirstUid(tokens), name, FirstName(tokens))
  }

  datatype Groups = Groups(id: string, bracket: string, name: string)

  /** The id ends at the first blank, the bracket at the first closing bracket after it. */
  function GroupsOf(line: string): Option<Groups> {
    if line == "" || line[0] != '[' then None
    else
      var rest := line[1..];
      var blank := Index(rest, ' ');
      if blank == |rest| || !PositiveDecimal(rest[..blank]) then None
      else
        var tail := rest[blank + 1..];
        var close := Index(tail, ']');
        if close + 1 >= |tail| || tail[close + 1] != ' ' || !Free(tail[..close], '\n') || !OneLine(tail[close + 2..]) then None
        else Some(Groups(rest[..blank], tail[..close], tail[close + 2..]))
  }

  function ParseLine(line: string): Option<Header> {
    var groups := GroupsOf(line);
    if groups.None? then None else Some(HeaderOf(groups.value.id, groups.value.bracket, groups.value.name))
  }

  /** The function accepts exactly the lines the expression matches, and finds the only groups there are. */
  lemma ParseLineMatches(line: string, id: string, bracket: string, name: string)
    requires Matches(line, id, bracket, name)
    ensures ParseLine(line) == Some(HeaderOf(id, bracket, name))
  {
    var tail := bracket + ("]" + (" " + name));
    var rest := id + (" " + tail);
    assert line[1..] == rest;
    assert Free(id, ' ');
    IndexAfter(id, ' ', tail);
    IndexAfter(bracket, ']', " " + name);
    assert tail[|bracket| + 1..] == " " + name;
    assert tail[|bracket| + 1] == (" " + name)[0];
    assert tail[|bracket| + 2..] == name;
    hide HeaderOf, PositiveDecimal;
  }

  lemma ParseLineFinds(line: string)
    requires ParseLine(line).Some?
    ensures exists id, bracket, name :: Matches(line, id, bracket, name) && ParseLine(line) == Some(HeaderOf(id, bracket, name))
  {
    hide Matches, HeaderOf;
    GroupsMatch(line);
    hide GroupsOf;
    var g := GroupsOf(line).value;
    assert Matches(line, g.id, g.bracket, g.name);
  }

  lemma GroupsMatch(line: string)
    requires GroupsOf(line).Some?
    ensures var g := GroupsOf(line).value; Matches(line, g.id, g.bracket, g.name)
  {
    hide PositiveDecimal, OneLine, Index, Free, Matches;
    var rest := line[1..];
    var blank := Index(rest, ' ');
    var tail := rest[blank + 1..];
    var close := Index(tail, ']');
    assert Free(tail[..close], ']') by { FreeBefore(tail, ']'); }
    Rebuild(line, blank, close);
    MatchesMeans(line, rest[..blank], tail[..close], tail[close + 2..]);
  }

  lemma FreeBefore(s: string, c: char)
    ensures Free(s[..Index(s, c)], c)
  {
  }

  lemma MatchesMeans(line: string, id: string, bracket: string, name: string)
    requires PositiveDecimal(id) && Free(bracket, ']') && Free(bracket, '\n') && OneLine(name)
    requires line == "[" + (id + (" " + (bracket + ("]" + (" " + name)))))
    ensures Matches(line, id, bracket, name)
  {
  }

  lemma Rebuild(line: string, blank: nat, close: nat)
    requires line != "" && line[0] == '[' && blank < |line| - 1 && line[1..][blank] == ' '
    requires close + 1 < |line| - 2 - blank
    requires line[1..][blank + 1..][close] == ']' && line[1..][blank + 1..][close + 1] == ' '
    ensures var rest := line[1..];
            var tail := rest[blank + 1..];
            line == "[" + (rest[..blank] + (" " + (tail[..close] + ("]" + (" " + tail[close + 2..])))))
  {
    var rest := line[1..];
    var tail := rest[blank + 1..];
    assert tail[close..] == "]" + (" " + tail[close + 2..]);
    assert tail == tail[..close] + tail[close..];
    assert rest[blank..] == " " + tail;
    assert rest == rest[..blank] + rest[blank..];
    assert line == "[" + rest;
  }

  // ---- a printed header reads back ----

  function ReadId(s: Snapshot): Option<string> {
    if s.senderId.Some? && Digits(s.senderId.value) then s.senderId else None
  }

  function ReadUsername(s: Snapshot): Option<string> {
    if s.username.Some? && Username(s.username.value) then s.username else None
  }

  function Expected(s: Snapshot): Header { Header(s.id, ReadId(s), ShownName(s), ReadUsername(s)) }

  predicate PlainToken(t: string) { Free(t, ' ') && Free(t, ']') && Free(t, '\n') }

  lemma DigitsPlain(s: string)
    requires Digits(s) || SignedDecimal(s) || TimeToken(s) || Username(s)
    ensures PlainToken(s)
  {
    if SignedDecimal(s) && !Digits(s) {
      forall c | c in s ensures Digit(c) || c == '-' {
        var i :| 0 <= i < |s| && s[i] == c;
        assert i > 0 ==> s[1..][i - 1] == c;
      }
    }
  }

  lemma PrefixPlain(p: string, t: string)
    requires PlainToken(p) && PlainToken(t)
    ensures PlainToken(p + t)
  {
  }

  lemma TokensPlain(s: Snapshot, showTopic: bool)
    requires RuntimeFields(s)
    ensures forall t | t in TokensFrom([s.time], s, showTopic) :: PlainToken(t)
  {
    DigitsPlain(s.time);
    if s.topic.Some? { DigitsPlain(s.topic.value); PrefixPlain("topic:", s.topic.value); }
    assert PlainToken("you");
    if s.replyTo.Some? { DigitsPlain(s.replyTo.value); PrefixPlain("re:", s.replyTo.value); }
    if s.senderId.Some? { DigitsPlain(s.senderId.value); PrefixPlain("uid:", s.senderId.value); }
    if s.username.Some? && Username(s.username.value) { DigitsPlain(s.username.value); PrefixPlain("@", s.username.value); }
    hide PlainToken, Digits, SignedDecimal, TimeToken, Username;
  }

  lemma {:induction false} JoinPlain(tokens: seq<string>, c: char)
    requires tokens != [] && forall t | t in tokens :: PlainToken(t)
    requires c == ']' || c == '\n'
    ensures Free(Join(tokens, ' '), c)
    decreases tokens
  {
    var first := tokens[0];
    assert first in tokens;
    if |tokens| > 1 {
      assert forall t | t in tokens[1..] :: t in tokens;
      JoinPlain(tokens[1..], c);
    }
  }

  lemma {:induction false} UidSkips(a: seq<string>, b: seq<string>)
    requires forall t | t in a :: !("uid:" <= t)
    ensures FirstUid(a + b) == FirstUid(b)
    decreases a
  {
    if a == [] {
      assert a + b == b;
    } else {
      var first := a[0];
      assert first in a && (a + b)[1..] == a[1..] + b;
      assert forall t | t in a[1..] :: t in a;
      UidSkips(a[1..], b);
    }
  }

  lemma {:induction false} NameSkips(a: seq<string>, b: seq<string>)
    requires forall t | t in a :: !("@" <= t)
    ensures FirstName(a + b) == FirstName(b)
    decreases a
  {
    if a == [] {
      assert a + b == b;
    } else {
      var first := a[0];
      assert first in a && (a + b)[1..] == a[1..] + b;
      assert forall t | t in a[1..] :: t in a;
      NameSkips(a[1..], b);
    }
  }

  lemma UidDigits(s: string)
    requires SignedDecimal(s)
    ensures ("uid:" + s)[4..] == s && "uid:" <= "uid:" + s
  {
  }

  lemma NoUid(t: string)
    requires t == "you" || "topic:" <= t || "re:" <= t || "@" <= t || TimeToken(t)
    ensures !("uid:" <= t)
  {
    assert t != "" ==> t[0] in t;
  }

  lemma NoAt(t: string)
    requires t == "you" || "topic:" <= t || "re:" <= t || "uid:" <= t || TimeToken(t)
    ensures !("@" <= t)
  {
    assert t != "" ==> t[0] in t;
  }

  lemma FirstUidSnoc(tokens: seq<string>, t: string)
    requires forall x | x in tokens :: !("uid:" <= x)
    ensures FirstUid(tokens + [t]) == if "uid:" <= t && Digits(t[4..]) then Some(t[4..]) else None
  {
    UidSkips(tokens, [t]);
    assert FirstUid([t][1..]) == None;
  }

  lemma FirstNameSnoc(tokens: seq<string>, t: string)
    requires forall x | x in tokens :: !("@" <= x)
    ensures FirstName(tokens + [t]) == if "@" <= t then Some(t[1..]) else None
  {
    NameSkips(tokens, [t]);
    assert FirstName([t][1..]) == None;
  }

  lemma {:induction false} FirstUidStays(tokens: seq<string>, t: string)
    requires !("uid:" <= t)
    ensures FirstUid(tokens + [t]) == FirstUid(tokens)
    decreases tokens
  {
    if tokens == [] {
      assert tokens + [t] == [t];
      assert FirstUid([t][1..]) == None;
    } else {
      assert (tokens + [t])[1..] == tokens[1..] + [t];
      FirstUidStays(tokens[1..], t);
    }
  }

  lemma {:induction false} FirstNone(tokens: seq<string>)
    ensures (forall x | x in tokens :: !("@" <= x)) ==> FirstName(tokens) == None
    ensures (forall x | x in tokens :: !("uid:" <= x)) ==> FirstUid(tokens) == None
    decreases tokens
  {
    if tokens != [] {
      var first := tokens[0];
      assert first in tokens && forall x | x in tokens[1..] :: x in tokens;
      FirstNone(tokens[1..]);
    }
  }

  lemma AlsoAvoids(tokens: seq<string>, condition: bool, token: string, prefix: string)
    requires forall t | t in tokens :: !(prefix <= t)
    requires condition ==> !(prefix <= token)
    ensures forall t | t in Also(tokens, condition, token) :: !(prefix <= t)
  {
  }

  /** The tokens before the sender's id: none of them can be taken for an id or a user name. */
  lemma EarlyTokens(s: Snapshot, showTopic: bool)
    requires RuntimeFields(s)
    ensures var a := Also([s.time], showTopic && s.topic.Some?, "topic:" + Value(s.topic));
            var b := Also(a, s.byBot, "you");
            var c := Also(b, s.replyTo.Some?, "re:" + Value(s.replyTo));
            forall t | t in c :: !("uid:" <= t) && !("@" <= t)
  {
    NoUid(s.time);
    NoAt(s.time);
    NoUid("topic:" + Value(s.topic));
    NoAt("topic:" + Value(s.topic));
    NoUid("you");
    NoAt("you");
    NoUid("re:" + Value(s.replyTo));
    NoAt("re:" + Value(s.replyTo));
    hide TimeToken;
  }

  lemma TokensReadBack(s: Snapshot, showTopic: bool)
    requires RuntimeFields(s)
    ensures FirstUid(TokensFrom([s.time], s, showTopic)) == ReadId(s)
    ensures FirstName(TokensFrom([s.time], s, showTopic)) == ReadUsername(s)
  {
    var a := Also([s.time], showTopic && s.topic.Some?, "topic:" + Value(s.topic));
    var b := Also(a, s.byBot, "you");
    var c := Also(b, s.replyTo.Some?, "re:" + Value(s.replyTo));
    EarlyTokens(s, showTopic);
    var d := Also(c, s.senderId.Some?, "uid:" + Value(s.senderId));
    FirstNone(c);
    if s.senderId.Some? {
      FirstUidSnoc(c, "uid:" + s.senderId.value);
      UidDigits(s.senderId.value);
      NoAt("uid:" + s.senderId.value);
    }
    assert FirstUid(d) == ReadId(s);
    AlsoAvoids(c, s.senderId.Some?, "uid:" + Value(s.senderId), "@");
    FirstNone(d);
    if s.username.Some? && Username(s.username.value) {
      var at := "@" + s.username.value;
      FirstNameSnoc(d, at);
      NoUid(at);
      FirstUidStays(d, at);
      assert at[1..] == s.username.value;
    }
    hide Also, FirstUid, FirstName, RuntimeFields, Username, Digits;
  }

  lemma TokensBase(s: Snapshot, showTopic: bool)
    ensures TokensFrom([s.id, s.time], s, showTopic) == [s.id] + TokensFrom([s.time], s, showTopic)
    ensures TokensFrom([s.time], s, showTopic) != []
  {
    AlsoShift(s.id, [s.time], showTopic && s.topic.Some?, "topic:" + Value(s.topic));
    var a := Also([s.time], showTopic && s.topic.Some?, "topic:" + Value(s.topic));
    AlsoShift(s.id, a, s.byBot, "you");
    var b := Also(a, s.byBot, "you");
    AlsoShift(s.id, b, s.replyTo.Some?, "re:" + Value(s.replyTo));
    var c := Also(b, s.replyTo.Some?, "re:" + Value(s.replyTo));
    AlsoShift(s.id, c, s.senderId.Some?, "uid:" + Value(s.senderId));
    var d := Also(c, s.senderId.Some?, "uid:" + Value(s.senderId));
    AlsoShift(s.id, d, s.username.Some? && Username(s.username.value), "@" + Value(s.username));
    assert [s.id] + [s.time] == [s.id, s.time];
    hide Username;
  }

  lemma AlsoShift(id: string, tokens: seq<string>, condition: bool, token: string)
    ensures Also([id] + tokens, condition, token) == [id] + Also(tokens, condition, token)
  {
  }

  lemma Joined(id: string, tokens: seq<string>)
    requires tokens != []
    ensures Join([id] + tokens, ' ') == id + (" " + Join(tokens, ' '))
  {
    assert ([id] + tokens)[1..] == tokens;
    assert id + [' '] + Join(tokens, ' ') == id + (" " + Join(tokens, ' '));
  }

  /** A printed header reads back as the message's id, its sender's id and user name where those can be read, and its name. */
  lemma HeaderReadsBack(s: Snapshot, showTopic: bool)
    requires RuntimeFields(s)
    ensures ParseLine(HeaderLine(s, showTopic)) == Some(Expected(s))
  {
    var tokens := TokensFrom([s.time], s, showTopic);
    var bracket, name := Join(tokens, ' '), ShownName(s);
    TokensBase(s, showTopic);
    TokensPlain(s, showTopic);
    TokensReadBack(s, showTopic);
    hide TokensFrom;
    JoinPlain(tokens, ']');
    JoinPlain(tokens, '\n');
    Joined(s.id, tokens);
    SingleLineMeans(if s.name.Some? then s.name.value else "unknown");
    hide SingleLine, Join;
    HeaderShape(s, showTopic, bracket, name);
    ParseLineMatches(HeaderLine(s, showTopic), s.id, bracket, name);
    SplitTokens(tokens);
  }

  lemma HeaderShape(s: Snapshot, showTopic: bool, bracket: string, name: string)
    requires RuntimeFields(s) && Free(bracket, ']') && Free(bracket, '\n') && OneLine(name) && name == ShownName(s)
    requires TokensFrom([s.id, s.time], s, showTopic) != []
    requires Join(TokensFrom([s.id, s.time], s, showTopic), ' ') == s.id + (" " + bracket)
    ensures Matches(HeaderLine(s, showTopic), s.id, bracket, name)
  {
    hide TokensFrom, Join, SingleLine;
    assert "] " + name == "]" + (" " + name);
    assert "[" + (s.id + (" " + bracket)) + "] " + name == "[" + (s.id + (" " + (bracket + ("]" + (" " + name)))));
  }

  lemma SplitTokens(tokens: seq<string>)
    requires tokens != [] && forall t | t in tokens :: PlainToken(t)
    ensures Split(Join(tokens, ' '), ' ') == tokens
  {
    SplitJoin(tokens, ' ');
    SplitAllFree(tokens, ' ');
  }
}
