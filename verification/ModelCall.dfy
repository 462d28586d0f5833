/** One streamed model call: deltas flow up as they arrive, tool calls are
    buffered, and the terminal item carries the assembled assistant message. */
module ModelCall {
  import opened Prelude
  import opened Messages

  /** What has been collected so far; `done` holds the usage and request id once
      the provider has finished. */
  datatype Collected = Collected(
    deltas: seq<AgentEvent>,
    response: seq<Block>,
    calls: seq<Block>,
    done: Option<(Option<string>, Option<string>)>)

  function Collect1(c: Collected, event: ProviderEvent): Collected {
    match event
    case ReasoningDelta(text, kind) =>
      c.(deltas := c.deltas + [AgentReasoning(text, kind)], response := Coalesced(c.response, Reasoning(text, kind)))
    case TextDelta(text) =>
      c.(deltas := c.deltas + [AgentText(text)], response := Coalesced(c.response, Text(text)))
    case ContinuationDone(payload) => c.(response := c.response + [Continuation(payload)])
    case ToolCallDone(id, name, arguments) => c.(calls := c.calls + [ToolCall(id, name, arguments)])
    case StreamDone(usage, requestId) => c.(done := Some((usage, requestId)))
  }

  /** Everything after the first finish event is never read. */
  function Collect(events: seq<ProviderEvent>): Collected {
    if events == [] then Collected([], [], [], None)
    else
      var c := Collect(events[..|events| - 1]);
      if c.done.Some? then c else Collect1(c, events[|events| - 1])
  }

  function AssistantMessage(c: Collected): Message {
    Message(Assistant, c.response + c.calls)
  }

  /** The assistant message assembled from a finished stream; None when the stream
      ended without a finish event. */
  method StreamModelCall(events: seq<ProviderEvent>)
    returns (yielded: seq<AgentEvent>, message: Option<Message>, usage: Option<string>, requestId: Option<string>)
    ensures yielded == Collect(events).deltas
    ensures message == if Collect(events).done.Some? then Some(AssistantMessage(Collect(events))) else None
    ensures message.Some? ==> (usage, requestId) == Collect(events).done.value
    ensures var n := FirstDone(events);
            && yielded == StreamedDeltas(events[..n]) && (message.Some? <==> n < |events|)
            && (message.Some? ==>
                  && events[n] == StreamDone(usage, requestId)
                  && ToolCalls(message.value.blocks) == StreamedCalls(events[..n])
                  && forall channel :: Content(message.value.blocks, channel) == Shown(yielded, channel))
  {
    hide Collect, Mirrors, Content, Shown, ToolCalls, StreamedCalls, StreamedDeltas, FirstDone, Coalesced;
    MessageIsTheStream(events);
    MirroredCalls(Collect(events), events[..FirstDone(events)]);
    NothingStreamed();
    assert events[..0] == [];
    var responseBlocks: seq<Block> := [];
    var toolCalls: seq<Block> := [];
    yielded := [];
    usage, requestId := None, None;
    for i := 0 to |events|
      invariant Collect(events[..i]) == Collected(yielded, responseBlocks, toolCalls, None)
    {
      assert events[..i + 1][..i] == events[..i];
      CollectSnoc(events[..i + 1]);
      match events[i] {
        case ReasoningDelta(text, kind) =>
          responseBlocks := Coalesced(responseBlocks, Reasoning(text, kind));
          yielded := yielded + [AgentReasoning(text, kind)];
        case TextDelta(text) =>
          responseBlocks := Coalesced(responseBlocks, Text(text));
          yielded := yielded + [AgentText(text)];
        case ContinuationDone(payload) =>
          responseBlocks := responseBlocks + [Continuation(payload)];
        case ToolCallDone(id, name, arguments) =>
          toolCalls := toolCalls + [ToolCall(id, name, arguments)];
        case StreamDone(u, r) =>
          FinishedPrefixDecides(events, i + 1);
          message, usage, requestId := Some(Message(Assistant, responseBlocks + toolCalls)), u, r;
          return;
      }
    }
    assert events[..|events|] == events;
    message := None;
  }

  lemma {:induction false} FinishedPrefixDecides(events: seq<ProviderEvent>, n: nat)
    requires n <= |events| && Collect(events[..n]).done.Some?
    ensures Collect(events) == Collect(events[..n])
  {
    if n == |events| {
      assert events[..n] == events;
    } else {
      var shorter := events[..|events| - 1];
      assert shorter[..n] == events[..n];
      FinishedPrefixDecides(shorter, n);
    }
  }

  lemma CollectSnoc(events: seq<ProviderEvent>)
    requires events != []
    ensures var c := Collect(events[..|events| - 1]);
      Collect(events) == if c.done.Some? then c else Collect1(c, events[|events| - 1])
  {
  }

  ghost predicate Shaped(c: Collected) {
    && (forall i :: 0 <= i < |c.calls| ==> c.calls[i].ToolCall?)
    && (forall i :: 0 <= i < |c.deltas| ==> c.deltas[i].AgentText? || c.deltas[i].AgentReasoning?)
    && (forall i :: 0 <= i < |c.response| ==> !c.response[i].ToolCall? && !c.response[i].ToolResult?)
    && ToolCalls(c.response) == []
  }

  lemma Collect1Shape(c: Collected, event: ProviderEvent)
    requires Shaped(c)
    ensures Shaped(Collect1(c, event))
  {
    hide ToolCalls;
    match event
    case ReasoningDelta(text, kind) => CoalescedToolCalls(c.response, Reasoning(text, kind));
    case TextDelta(text) => CoalescedToolCalls(c.response, Text(text));
    case ContinuationDone(payload) => ToolCallsSnoc(c.response, Continuation(payload));
    case _ =>
  }

  lemma Collect1Content(c: Collected, event: ProviderEvent, channel: Channel)
    requires Shown(c.deltas, channel) == Content(c.response, channel)
    ensures Shown(Collect1(c, event).deltas, channel) == Content(Collect1(c, event).response, channel)
  {
    hide Content, Shown, Coalesced;
    match event
    case ReasoningDelta(text, kind) =>
      CoalescedContent(c.response, Reasoning(text, kind), channel);
      ShownSnoc(c.deltas, AgentReasoning(text, kind), channel);
    case TextDelta(text) =>
      CoalescedContent(c.response, Text(text), channel);
      ShownSnoc(c.deltas, AgentText(text), channel);
    case ContinuationDone(payload) =>
      ContentSnoc(c.response, Continuation(payload), channel);
    case _ =>
  }

  /** Every collected call is a tool call, and the response holds none. */
  lemma {:induction false} CollectShape(events: seq<ProviderEvent>)
    ensures Shaped(Collect(events))
  {
    if events != [] {
      hide Shaped, Collect1;
      CollectShape(events[..|events| - 1]);
      CollectSnoc(events);
      Collect1Shape(Collect(events[..|events| - 1]), events[|events| - 1]);
    }
  }

  /** The deltas forwarded so far read the same as the blocks assembled so far. */
  lemma {:induction false} DeltasMatchResponse(events: seq<ProviderEvent>, channel: Channel)
    ensures Shown(Collect(events).deltas, channel) == Content(Collect(events).response, channel)
  {
    if events != [] {
      hide Collect1, Shown, Content;
      DeltasMatchResponse(events[..|events| - 1], channel);
      CollectSnoc(events);
      Collect1Content(Collect(events[..|events| - 1]), events[|events| - 1], channel);
    }
  }

  // ------------------------------------------------------------ against the stream

  /** Where the provider reports its finish, or the end of the stream. */
  function FirstDone(events: seq<ProviderEvent>): (n: nat)
    ensures n <= |events| && (n < |events| ==> events[n].StreamDone?)
    ensures forall i :: 0 <= i < n ==> !events[i].StreamDone?
  {
    if events == [] || events[0].StreamDone? then 0 else 1 + FirstDone(events[1..])
  }

  /** The calls the provider streamed, in stream order. */
  function StreamedCalls(events: seq<ProviderEvent>): seq<Block> {
    if events == [] then []
    else
      var front, last := StreamedCalls(events[..|events| - 1]), events[|events| - 1];
      if last.ToolCallDone? then front + [ToolCall(last.id, last.name, last.arguments)] else front
  }

  /** The text and reasoning deltas the provider streamed. */
  function StreamedDeltas(events: seq<ProviderEvent>): seq<AgentEvent> {
    if events == [] then []
    else
      var front, last := StreamedDeltas(events[..|events| - 1]), events[|events| - 1];
      if last.TextDelta? then front + [AgentText(last.text)]
      else if last.ReasoningDelta? then front + [AgentReasoning(last.text, last.kind)]
      else front
  }

  /** One block per streamed delta or continuation. */
  function StreamedBlocks(events: seq<ProviderEvent>): seq<Block> {
    if events == [] then []
    else
      var front, last := StreamedBlocks(events[..|events| - 1]), events[|events| - 1];
      if last.TextDelta? then front + [Text(last.text)]
      else if last.ReasoningDelta? then front + [Reasoning(last.text, last.kind)]
      else if last.ContinuationDone? then front + [Continuation(last.payload)]
      else front
  }

  ghost predicate Mirrors(c: Collected, heard: seq<ProviderEvent>) {
    && c.deltas == StreamedDeltas(heard) && c.calls == StreamedCalls(heard)
    && Atoms(c.response) == Atoms(StreamedBlocks(heard)) && Unmerged(c.response)
  }

  lemma StreamedSnoc(heard: seq<ProviderEvent>, event: ProviderEvent)
    ensures StreamedCalls(heard + [event]) == StreamedCalls(heard)
              + if event.ToolCallDone? then [ToolCall(event.id, event.name, event.arguments)] else []
    ensures StreamedDeltas(heard + [event]) ==
              if event.TextDelta? then StreamedDeltas(heard) + [AgentText(event.text)]
              else if event.ReasoningDelta? then StreamedDeltas(heard) + [AgentReasoning(event.text, event.kind)]
              else StreamedDeltas(heard)
    ensures StreamedBlocks(heard + [event]) ==
              if event.TextDelta? then StreamedBlocks(heard) + [Text(event.text)]
              else if event.ReasoningDelta? then StreamedBlocks(heard) + [Reasoning(event.text, event.kind)]
              else if event.ContinuationDone? then StreamedBlocks(heard) + [Continuation(event.payload)]
              else StreamedBlocks(heard)
  {
    assert (heard + [event])[..|heard|] == heard;
  }

  lemma Collect1Mirrors(c: Collected, heard: seq<ProviderEvent>, event: ProviderEvent)
    requires Mirrors(c, heard) && !event.StreamDone?
    ensures Mirrors(Collect1(c, event), heard + [event])
  {
    hide StreamedCalls, StreamedDeltas, StreamedBlocks, Atoms, Coalesced;
    StreamedSnoc(heard, event);
    match event
    case ReasoningDelta(text, kind) =>
      CoalescedKeepsOrder(c.response, Reasoning(text, kind));
      AtomsSnoc(StreamedBlocks(heard), Reasoning(text, kind));
    case TextDelta(text) =>
      CoalescedKeepsOrder(c.response, Text(text));
      AtomsSnoc(StreamedBlocks(heard), Text(text));
    case ContinuationDone(payload) =>
      AtomsSnoc(c.response, Continuation(payload));
      AtomsSnoc(StreamedBlocks(heard), Continuation(payload));
    case ToolCallDone(_, _, _) =>
  }

  lemma {:induction false} CollectMirrors(events: seq<ProviderEvent>)
    requires forall i :: 0 <= i < |events| ==> !events[i].StreamDone?
    ensures Collect(events).done.None? && Mirrors(Collect(events), events)
  {
    if events == [] {
      NothingStreamed();
    } else {
      hide Mirrors;
      var front, last := events[..|events| - 1], events[|events| - 1];
      CollectMirrors(front);
      CollectSnoc(events);
      Collect1Mirrors(Collect(front), front, last);
      assert front + [last] == events;
    }
  }

  lemma NothingStreamed()
    ensures Mirrors(Collect([]), []) && Collect([]) == Collected([], [], [], None)
  {
  }

  /** Against the provider's own stream up to its finish: the deltas are forwarded one by
      one in order; the message keeps every streamed letter and continuation in its
      place, in as few blocks as possible, followed by the streamed calls in stream
      order; and there is a message, with the finish's usage and request id, exactly
      when there is a finish. */
  lemma MessageIsTheStream(events: seq<ProviderEvent>)
    ensures var c, n := Collect(events), FirstDone(events);
            && Mirrors(c, events[..n])
            && AssistantMessage(c) == Message(Assistant, c.response + StreamedCalls(events[..n]))
            && ToolCalls(AssistantMessage(c).blocks) == StreamedCalls(events[..n])
            && (forall channel :: Content(AssistantMessage(c).blocks, channel) == Shown(c.deltas, channel))
            && (if n < |events| then Some(events[n]) else None)
                 == (if c.done.Some? then Some(StreamDone(c.done.value.0, c.done.value.1)) else None)
  {
    hide Mirrors, Collect1, ToolCalls, Collect, Content, Shown, StreamedCalls, StreamedDeltas;
    var n := FirstDone(events);
    CollectMirrors(events[..n]);
    MessageShowsDeltas(events);
    if n < |events| {
      assert events[..n + 1][..n] == events[..n];
      CollectSnoc(events[..n + 1]);
      DoneKeepsAll(Collect(events[..n]), events[..n], events[n]);
      FinishedPrefixDecides(events, n + 1);
    } else {
      assert events[..n] == events;
    }
    MirroredCalls(Collect(events), events[..n]);
  }

  lemma DoneKeepsAll(c: Collected, heard: seq<ProviderEvent>, event: ProviderEvent)
    requires Mirrors(c, heard) && event.StreamDone?
    ensures Mirrors(Collect1(c, event), heard)
    ensures Collect1(c, event).done == Some((event.usage, event.requestId))
  {
  }

  lemma MirroredCalls(c: Collected, heard: seq<ProviderEvent>)
    requires Mirrors(c, heard)
    ensures c.calls == StreamedCalls(heard) && c.deltas == StreamedDeltas(heard)
  {
  }

  /** The message assembled by a call shows, on every channel, exactly the deltas
      that were forwarded, and carries exactly the collected tool calls. */
  lemma MessageShowsDeltas(events: seq<ProviderEvent>)
    ensures var c := Collect(events);
      && (forall channel :: Content(AssistantMessage(c).blocks, channel) == Shown(c.deltas, channel))
      && ToolCalls(AssistantMessage(c).blocks) == c.calls
  {
    var c := Collect(events);
    CollectShape(events);
    AllToolCalls(c.calls);
    ToolCallsConcat(c.response, c.calls);
    forall channel ensures Content(AssistantMessage(c).blocks, channel) == Shown(c.deltas, channel) {
      DeltasMatchResponse(events, channel);
      ContentConcat(c.response, c.calls, channel);
    }
  }
}
