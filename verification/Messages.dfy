/** The provider-neutral message vocabulary: content blocks, messages, the
    provider's stream events and the agent's events. */
module Messages {
  import opened Prelude

  datatype ReasoningKind = Raw | Summary

  datatype Role = System | User | Assistant

  /** Decoded JSON objects (tool arguments, continuation payloads) are carried as
      their serialized text. */
  datatype Block =
    | Text(text: string)
    | Reasoning(text: string, kind: ReasoningKind)
    | Continuation(payload: string)
    | ToolCall(id: string, name: string, arguments: string)
    | ToolResult(callId: string, content: string, isError: bool)
    | Document(fileId: string, metadata: string, text: string)
    | Image(fileId: string, metadata: string)
    | Notice(fileId: string, filename: string, mediaType: string)

  datatype Message = Message(role: Role, blocks: seq<Block>)

  datatype ProviderEvent =
    | TextDelta(text: string)
    | ReasoningDelta(text: string, kind: ReasoningKind)
    | ContinuationDone(payload: string)
    | ToolCallDone(id: string, name: string, arguments: string)
    | StreamDone(usage: Option<string>, requestId: Option<string>)

  datatype AgentEvent =
    | AgentText(text: string)
    | AgentReasoning(text: string, kind: ReasoningKind)
    | ToolStarted(name: string, arguments: string, batchSize: nat)
    | ToolFinished(name: string, isError: bool, metadata: string, elapsedMs: Option<nat>, batchSources: Option<nat>)
    | MessageDone(message: Message)
    | AgentFinal(usage: Option<string>, requestId: Option<string>)

  /** The three texts a reader can see: the answer and each kind of reasoning. */
  datatype Channel = Answer | Thought(kind: ReasoningKind)

  function BlockContent(block: Block, channel: Channel): string {
    match block
    case Text(text) => if channel == Answer then text else ""
    case Reasoning(text, kind) => if channel == Thought(kind) then text else ""
    case _ => ""
  }

  /** What a list of blocks shows on one channel. */
  function Content(blocks: seq<Block>, channel: Channel): string {
    if blocks == [] then "" else Content(blocks[..|blocks| - 1], channel) + BlockContent(blocks[|blocks| - 1], channel)
  }

  /** What the assistant turns of a transcript show on one channel. */
  function Spoken(messages: seq<Message>, channel: Channel): string {
    if messages == [] then ""
    else
      Spoken(messages[..|messages| - 1], channel)
      + if messages[|messages| - 1].role == Assistant then Content(messages[|messages| - 1].blocks, channel) else ""
  }

  function EventContent(event: AgentEvent, channel: Channel): string {
    match event
    case AgentText(text) => if channel == Answer then text else ""
    case AgentReasoning(text, kind) => if channel == Thought(kind) then text else ""
    case _ => ""
  }

  /** What a list of agent events shows on one channel. */
  function Shown(events: seq<AgentEvent>, channel: Channel): string {
    if events == [] then "" else Shown(events[..|events| - 1], channel) + EventContent(events[|events| - 1], channel)
  }

  function ToolCalls(blocks: seq<Block>): seq<Block> {
    if blocks == [] then []
    else
      ToolCalls(blocks[..|blocks| - 1]) + if blocks[|blocks| - 1].ToolCall? then [blocks[|blocks| - 1]] else []
  }

  lemma {:induction false} ContentConcat(a: seq<Block>, b: seq<Block>, channel: Channel)
    ensures Content(a + b, channel) == Content(a, channel) + Content(b, channel)
  {
    hide BlockContent;
    if b == [] {
      assert a + b == a;
    } else {
      var last := |b| - 1;
      ContentConcat(a, b[..last], channel);
      assert (a + b)[..|a + b| - 1] == a + b[..last];
    }
  }

  lemma ContentSnoc(blocks: seq<Block>, block: Block, channel: Channel)
    ensures Content(blocks + [block], channel) == Content(blocks, channel) + BlockContent(block, channel)
  {
    assert (blocks + [block])[..|blocks|] == blocks;
  }

  lemma SpokenSnoc(messages: seq<Message>, message: Message, channel: Channel)
    ensures Spoken(messages + [message], channel) == Spoken(messages, channel)
      + if message.role == Assistant then Content(message.blocks, channel) else ""
  {
    assert (messages + [message])[..|messages|] == messages;
  }

  lemma ShownSnoc(events: seq<AgentEvent>, event: AgentEvent, channel: Channel)
    ensures Shown(events + [event], channel) == Shown(events, channel) + EventContent(event, channel)
  {
    assert (events + [event])[..|events|] == events;
  }

  lemma {:induction false} ShownConcat(a: seq<AgentEvent>, b: seq<AgentEvent>, channel: Channel)
    ensures Shown(a + b, channel) == Shown(a, channel) + Shown(b, channel)
  {
    hide EventContent;
    if b == [] {
      assert a + b == a;
    } else {
      var last := |b| - 1;
      ShownConcat(a, b[..last], channel);
      assert (a + b)[..|a + b| - 1] == a + b[..last];
    }
  }

  /** Appends a streamed block, merging it into the last one when both are text or
      both are reasoning of the same kind. */
  function Coalesced(blocks: seq<Block>, block: Block): seq<Block>
    requires block.Text? || block.Reasoning?
  {
    if blocks == [] then [block]
    else
      var last := blocks[|blocks| - 1];
      if last.Text? && block.Text? then blocks[..|blocks| - 1] + [Text(last.text + block.text)]
      else if last.Reasoning? && block.Reasoning? && last.kind == block.kind then
        blocks[..|blocks| - 1] + [Reasoning(last.text + block.text, block.kind)]
      else blocks + [block]
  }

  lemma MergedContent(blocks: seq<Block>, merged: Block, extra: string, channel: Channel)
    requires blocks != []
    requires BlockContent(merged, channel) == BlockContent(blocks[|blocks| - 1], channel) + extra
    ensures Content(blocks[..|blocks| - 1] + [merged], channel) == Content(blocks, channel) + extra
  {
    hide BlockContent;
    var front := blocks[..|blocks| - 1];
    ContentSnoc(front, merged, channel);
    var shown := BlockContent(blocks[|blocks| - 1], channel);
    assert Content(front, channel) + (shown + extra) == (Content(front, channel) + shown) + extra;
  }

  /** Coalescing never changes what a reader sees, nor the tool calls. */
  lemma CoalescedContent(blocks: seq<Block>, block: Block, channel: Channel)
    requires block.Text? || block.Reasoning?
    ensures Content(Coalesced(blocks, block), channel) == Content(blocks, channel) + BlockContent(block, channel)
  {
    hide Content;
    ContentSnoc(blocks, block, channel);
    if blocks == [] {
      assert blocks + [block] == [block];
    } else {
      var last := blocks[|blocks| - 1];
      if last.Text? && block.Text? {
        MergedContent(blocks, Text(last.text + block.text), BlockContent(block, channel), channel);
      } else if last.Reasoning? && block.Reasoning? && last.kind == block.kind {
        MergedContent(blocks, Reasoning(last.text + block.text, block.kind), BlockContent(block, channel), channel);
      }
    }
  }

  lemma ToolCallsSnoc(blocks: seq<Block>, block: Block)
    ensures ToolCalls(blocks + [block]) == ToolCalls(blocks) + if block.ToolCall? then [block] else []
  {
    assert (blocks + [block])[..|blocks|] == blocks;
  }

  lemma CoalescedToolCalls(blocks: seq<Block>, block: Block)
    requires block.Text? || block.Reasoning?
    ensures ToolCalls(Coalesced(blocks, block)) == ToolCalls(blocks)
  {
    ToolCallsSnoc(blocks, block);
    if blocks != [] {
      var n := |blocks| - 1;
      var c := Coalesced(blocks, block);
      ToolCallsSnoc(c[..|c| - 1], c[|c| - 1]);
      assert c == c[..|c| - 1] + [c[|c| - 1]];
      if |c| == |blocks| {
        assert c[..|c| - 1] == blocks[..n];
      }
    }
  }

  lemma {:induction false} ToolCallsConcat(a: seq<Block>, b: seq<Block>)
    ensures ToolCalls(a + b) == ToolCalls(a) + ToolCalls(b)
  {
    if b == [] {
      assert a + b == a;
    } else {
      var last := |b| - 1;
      ToolCallsConcat(a, b[..last]);
      assert (a + b)[..|a + b| - 1] == a + b[..last];
      assert (a + b)[|a + b| - 1] == b[last];
    }
  }

  lemma {:induction false} AllToolCalls(blocks: seq<Block>)
    requires forall i :: 0 <= i < |blocks| ==> blocks[i].ToolCall?
    ensures ToolCalls(blocks) == blocks
    ensures forall channel :: Content(blocks, channel) == ""
  {
    if blocks != [] {
      AllToolCalls(blocks[..|blocks| - 1]);
      assert blocks == blocks[..|blocks| - 1] + [blocks[|blocks| - 1]];
    }
  }

  // -------------------------------------------------------------- order of blocks

  /** What blocks say, letter by letter and in order, with everything that is not
      streamed text kept whole. */
  datatype Atom = Letter(channel: Channel, c: char) | Whole(block: Block)

  function AtomsOf(block: Block): seq<Atom> {
    match block
    case Text(text) => seq(|text|, i requires 0 <= i < |text| => Letter(Answer, text[i]))
    case Reasoning(text, kind) => seq(|text|, i requires 0 <= i < |text| => Letter(Thought(kind), text[i]))
    case _ => [Whole(block)]
  }

  function Atoms(blocks: seq<Block>): seq<Atom> {
    if blocks == [] then [] else Atoms(blocks[..|blocks| - 1]) + AtomsOf(blocks[|blocks| - 1])
  }

  /** Two blocks that a reader could not tell apart from one. */
  predicate Mergeable(a: Block, b: Block) {
    (a.Text? && b.Text?) || (a.Reasoning? && b.Reasoning? && a.kind == b.kind)
  }

  ghost predicate Unmerged(blocks: seq<Block>) {
    forall i :: 0 <= i < |blocks| - 1 ==> !Mergeable(blocks[i], blocks[i + 1])
  }

  lemma AtomsSnoc(blocks: seq<Block>, block: Block)
    ensures Atoms(blocks + [block]) == Atoms(blocks) + AtomsOf(block)
  {
    assert (blocks + [block])[..|blocks|] == blocks;
  }

  lemma MergedAtoms(front: seq<Block>, last: Block, block: Block, merged: Block)
    requires AtomsOf(merged) == AtomsOf(last) + AtomsOf(block)
    ensures Atoms(front + [merged]) == Atoms(front + [last]) + AtomsOf(block)
  {
    hide Atoms, AtomsOf;
    AtomsSnoc(front, merged);
    AtomsSnoc(front, last);
    assert (Atoms(front) + AtomsOf(last)) + AtomsOf(block) == Atoms(front) + (AtomsOf(last) + AtomsOf(block));
  }

  /** Coalescing keeps every letter in its place and leaves no two blocks that could
      have been one. */
  lemma CoalescedKeepsOrder(blocks: seq<Block>, block: Block)
    requires block.Text? || block.Reasoning?
    ensures Atoms(Coalesced(blocks, block)) == Atoms(blocks) + AtomsOf(block)
    ensures Unmerged(blocks) ==> Unmerged(Coalesced(blocks, block))
  {
    hide Atoms;
    AtomsSnoc(blocks, block);
    if blocks == [] {
      assert blocks + [block] == [block];
    } else {
      var front, last := blocks[..|blocks| - 1], blocks[|blocks| - 1];
      assert front + [last] == blocks;
      if last.Text? && block.Text? {
        MergedAtoms(front, last, block, Text(last.text + block.text));
      } else if last.Reasoning? && block.Reasoning? && last.kind == block.kind {
        MergedAtoms(front, last, block, Reasoning(last.text + block.text, block.kind));
      }
    }
  }
}
