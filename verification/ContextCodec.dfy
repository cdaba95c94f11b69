/** What of an agent message is written to the canonical history, and what comes back from it. */
module ContextCodec {
  import opened JsText
  import opened Options

  datatype Block = Text(text: string, signature: Option<string>) | Image(data: string)

  datatype AssistantBlock =
    | Say(text: string, signature: Option<string>)
    | Think(thinking: string, thinkingSignature: Option<string>, redacted: Option<bool>)
    | Call(id: string, name: string, arguments: string, thoughtSignature: Option<string>, namespace: Option<string>)

  datatype StopReason = Stop | Length | ToolUse | Error | AbortedByUser

  datatype UserContent = Plain(text: string) | Blocks(blocks: seq<Block>)

  /** `meta` stands for the fields that are copied as they are: api, provider, model, usage and so on. */
  datatype Message =
    | User(content: UserContent, timestamp: int)
    | Assistant(parts: seq<AssistantBlock>, stop: StopReason, meta: string, timestamp: int)
    | ToolResult(callId: string, toolName: string, result: seq<Block>, details: Option<string>, isError: bool, timestamp: int)
    | Other(kind: string)

  /** A stored row; only text blocks without signatures, and no discarded stop reason, can be in one. */
  datatype Payload =
    | UserPayload(content: UserContent, timestamp: int)
    | AssistantPayload(parts: seq<AssistantBlock>, stop: StopReason, meta: string, timestamp: int)
    | ToolResultPayload(
        callId: string, toolName: string, result: seq<Block>, details: Option<string>, isError: bool, timestamp: int)

  function TextBlocks(blocks: seq<Block>): seq<Block> {
    if blocks == [] then []
    else (if blocks[0].Text? then [Text(blocks[0].text, None)] else []) + TextBlocks(blocks[1..])
  }

  predicate Visible(part: AssistantBlock) {
    match part
    case Say(text, _) => !Blank(text)
    case Think(thinking, _, _) => !Blank(thinking)
    case Call(_, _, _, _, _) => true
  }

  function Encode(m: Message): Option<Payload> {
    match m
    case User(Plain(text), t) => Some(UserPayload(Plain(text), t))
    case User(Blocks(blocks), t) =>
      var kept := TextBlocks(blocks);
      if forall b | b in kept :: b.Text? && Blank(b.text) then None else Some(UserPayload(Blocks(kept), t))
    case Assistant(parts, stop, meta, t) =>
      if stop.Error? || stop.AbortedByUser? || (forall p | p in parts :: !Visible(p)) then None
      else Some(AssistantPayload(parts, stop, meta, t))
    case ToolResult(id, name, result, details, isError, t) =>
      Some(ToolResultPayload(id, name, TextBlocks(result), details, isError, t))
    case Other(_) => None
  }

  function Decode(p: Payload): Message {
    match p
    case UserPayload(content, t) => User(content, t)
    case AssistantPayload(parts, stop, meta, t) => Assistant(parts, stop, meta, t)
    case ToolResultPayload(id, name, result, details, isError, t) => ToolResult(id, name, result, details, isError, t)
  }

  lemma {:induction false} TextBlocksTwice(blocks: seq<Block>)
    ensures TextBlocks(TextBlocks(blocks)) == TextBlocks(blocks)
    decreases blocks
  {
    if blocks == [] {
    } else {
      TextBlocksTwice(blocks[1..]);
      var rest := TextBlocks(blocks[1..]);
      if blocks[0].Text? {
        assert TextBlocks(blocks) == [Text(blocks[0].text, None)] + rest;
        assert TextBlocks(blocks)[1..] == rest;
      } else {
        assert TextBlocks(blocks) == rest;
      }
    }
  }

  /** A stored row comes back as a message that is stored as the same row again. */
  lemma RoundTrip(m: Message)
    requires Encode(m).Some?
    ensures Encode(Decode(Encode(m).value)) == Encode(m)
  {
    match m
    case User(Blocks(blocks), _) => TextBlocksTwice(blocks);
    case ToolResult(_, _, result, _, _, _) => TextBlocksTwice(result);
    case _ =>
  }

  function CallIds(m: Message): set<string> {
    if m.Assistant? then set p | p in m.parts && p.Call? :: p.id else {}
  }

  /** The protocol shape survives storage: the role, the calls a message issues, the call it answers. */
  lemma ShapeKept(m: Message)
    requires Encode(m).Some?
    ensures var d := Decode(Encode(m).value);
            && (d.User? <==> m.User?) && (d.Assistant? <==> m.Assistant?) && (d.ToolResult? <==> m.ToolResult?)
            && CallIds(d) == CallIds(m)
            && (m.ToolResult? ==> d.callId == m.callId && d.toolName == m.toolName && d.isError == m.isError)
  {
  }

  /** How many of the first `p` blocks are texts. */
  function TextsBefore(blocks: seq<Block>, p: nat): (n: nat)
    requires p <= |blocks|
    ensures n <= p
  {
    if p == 0 then 0 else TextsBefore(blocks, p - 1) + if blocks[p - 1].Text? then 1 else 0
  }

  /** What is left of a list of blocks: each text, at its place among the texts, without a signature; and nothing else. */
  ghost predicate TextsOf(blocks: seq<Block>, kept: seq<Block>) {
    && |kept| == TextsBefore(blocks, |blocks|)
    && (forall p: nat | p < |blocks| && blocks[p].Text? ::
          TextsBefore(blocks, p) < |kept| && kept[TextsBefore(blocks, p)] == Text(blocks[p].text, None))
  }

  lemma {:induction false} TextsBeforeTail(blocks: seq<Block>, p: nat)
    requires 0 < p <= |blocks|
    ensures TextsBefore(blocks, p) == (if blocks[0].Text? then 1 else 0) + TextsBefore(blocks[1..], p - 1)
    decreases p
  {
    if p > 1 { TextsBeforeTail(blocks, p - 1); }
  }

  lemma {:induction false} TextsKept(blocks: seq<Block>)
    ensures TextsOf(blocks, TextBlocks(blocks))
    decreases blocks
  {
    if blocks != [] {
      var tail, rest := blocks[1..], TextBlocks(blocks[1..]);
      TextsKept(tail);
      TextsBeforeTail(blocks, |blocks|);
      forall p: nat | p < |blocks| && blocks[p].Text?
        ensures TextsBefore(blocks, p) < |TextBlocks(blocks)|
                && TextBlocks(blocks)[TextsBefore(blocks, p)] == Text(blocks[p].text, None)
      {
        if p > 0 {
          TextsBeforeTail(blocks, p);
          assert tail[p - 1] == blocks[p];
          assert rest[TextsBefore(tail, p - 1)] == Text(blocks[p].text, None);
        }
      }
    }
  }

  /**
   What comes back from storage: an assistant turn as it was; a user message or a tool result with exactly its texts, in
   order and without signatures; and everything else about them unchanged.
   */
  lemma ContentKept(m: Message)
    requires Encode(m).Some?
    ensures var d := Decode(Encode(m).value);
            match m
            case User(Plain(_), _) => d == m
            case User(Blocks(blocks), t) => d.User? && d.timestamp == t && d.content.Blocks? && TextsOf(blocks, d.content.blocks)
            case Assistant(_, _, _, _) => d == m
            case ToolResult(id, name, result, details, isError, t) =>
              d.ToolResult? && d == m.(result := d.result) && TextsOf(result, d.result)
            case Other(_) => false
  {
    match m
    case User(Blocks(blocks), _) => TextsKept(blocks);
    case ToolResult(_, _, result, _, _, _) => TextsKept(result);
    case _ =>
  }

  /** Exactly the messages with nothing for the model to read, and failed assistant turns, are not stored. */
  lemma NotStored(m: Message)
    ensures Encode(m).None? <==>
            (m.User? && m.content.Blocks? && (forall b | b in m.content.blocks && b.Text? :: Blank(b.text)))
            || (m.Assistant? && (m.stop.Error? || m.stop.AbortedByUser? || (forall p | p in m.parts :: !Visible(p))))
            || m.Other?
  {
    if m.User? && m.content.Blocks? { TextBlocksOf(m.content.blocks); }
  }

  lemma {:induction false} TextBlocksOf(blocks: seq<Block>)
    ensures forall b | b in TextBlocks(blocks) :: b.Text?
    ensures (forall b | b in TextBlocks(blocks) :: b.Text? && Blank(b.text))
            <==> (forall b | b in blocks && b.Text? :: Blank(b.text))
    decreases blocks
  {
    if blocks == [] {
    } else {
      TextBlocksOf(blocks[1..]);
      assert blocks == [blocks[0]] + blocks[1..];
      if blocks[0].Text? { assert Text(blocks[0].text, None) in TextBlocks(blocks); }
    }
  }
}
