/** The agent loop: model call, tool batch, result turn, until a call asks for no
    tool. The provider's streams and the tools' outcomes are given; a loop that is
    cut short is one whose remaining streams are not consumed. */
module ChatAgents {
  import opened Prelude
  import opened Messages
  import opened ModelCall
  import opened ToolBatch
  import opened Pairing

  /** One provider stream: its events, and the error it raises if it breaks. */
  datatype Script = Script(events: seq<ProviderEvent>, failure: Option<string>)

  datatype End = Completed | Failed(code: string)

  datatype Loop = Loop(
    messages: seq<Message>,
    used: nat,
    events: seq<AgentEvent>,
    inputs: seq<seq<Message>>,
    requested: seq<Block>,
    executed: seq<Block>,
    end: Option<End>)

  type Tools = (nat, nat) -> ToolOutcome

  function OfTurn(tools: Tools, turn: nat): nat -> ToolOutcome {
    (i: nat) => tools(turn, i)
  }

  function Begin(messages: seq<Message>): Loop {
    Loop(messages, 0, [], [], [], [], None)
  }

  function FailureCode(script: Script): string {
    if script.failure.Some? then script.failure.value else "no_finish"
  }

  /** A turn that called tools: the batch, the result message, the longer context. */
  function AfterBatch(a: Loop, m: Message, calls: seq<Block>, cfg: Config, run: nat -> ToolOutcome): Loop
    requires AllCalls(calls)
  {
    var answer := Message(User, ResultBlocks(calls, cfg, a.used, run, |calls|));
    var executed := ExecutedCalls(calls, cfg, a.used, |calls|);
    a.(messages := a.messages + [m, answer],
       used := a.used + |executed|,
       events := a.events + BatchEvents(calls, cfg, a.used, run) + [MessageDone(answer)],
       requested := a.requested + KnownCalls(calls, cfg.known),
       executed := a.executed + executed)
  }

  function Turn(a: Loop, script: Script, cfg: Config, tools: Tools): Loop {
    if a.end.Some? then a
    else
      var c := Collect(script.events);
      var b := a.(inputs := a.inputs + [a.messages], events := a.events + c.deltas);
      if c.done.None? then b.(end := Some(Failed(FailureCode(script))))
      else
        var m := AssistantMessage(c);
        CollectShape(script.events);
        var spoke := b.(events := b.events + [MessageDone(m)]);
        if c.calls == [] then
          spoke.(events := spoke.events + [AgentFinal(c.done.value.0, c.done.value.1)], end := Some(Completed))
        else AfterBatch(spoke, m, c.calls, cfg, OfTurn(tools, |a.inputs|))
  }

  function Stream(messages: seq<Message>, scripts: seq<Script>, cfg: Config, tools: Tools): Loop {
    if scripts == [] then Begin(messages)
    else Turn(Stream(messages, scripts[..|scripts| - 1], cfg, tools), scripts[|scripts| - 1], cfg, tools)
  }

  /** One pass of the loop body: what it yields, and the variables it leaves. */
  method RunTurn(a: Loop, script: Script, cfg: Config, tools: Tools) returns (b: Loop)
    requires a.end.None? && a.used <= cfg.maxToolCalls
    ensures b == Turn(a, script, cfg, tools) && b.used <= cfg.maxToolCalls
  {
    hide Collect, ToolCalls, KnownCalls, ExecutedCalls, ResultBlocks, BatchEvents, AdmittedIndices;
    b := a.(inputs := a.inputs + [a.messages]);
    var deltas, message, usage, requestId := StreamModelCall(script.events);
    b := b.(events := b.events + deltas);
    if message.None? {
      b := b.(end := Some(Failed(FailureCode(script))));
      return;
    }
    b := b.(events := b.events + [MessageDone(message.value)]);
    MessageShowsDeltas(script.events);
    var calls := ToolCalls(message.value.blocks);
    if calls == [] {
      b := b.(events := b.events + [AgentFinal(usage, requestId)], end := Some(Completed));
      return;
    }
    CollectShape(script.events);
    var events, results, used', ran := RunBatch(calls, cfg, a.used, OfTurn(tools, |a.inputs|));
    b := b.(messages := b.messages + [message.value, Message(User, results)],
            used := used',
            events := b.events + events + [MessageDone(Message(User, results))],
            requested := b.requested + KnownCalls(calls, cfg.known),
            executed := b.executed + ran);
  }

  /** The loop, one provider stream per pass, until it ends or the streams do. */
  method RunStream(messages: seq<Message>, scripts: seq<Script>, cfg: Config, tools: Tools) returns (a: Loop)
    ensures a == Stream(messages, scripts, cfg, tools)
  {
    hide Turn;
    a := Begin(messages);
    for k := 0 to |scripts|
      invariant a == Stream(messages, scripts[..k], cfg, tools) && a.used <= cfg.maxToolCalls
    {
      assert scripts[..k + 1][..k] == scripts[..k];
      if a.end.Some? {
        EndedTurn(a, scripts[k], cfg, tools);
      } else {
        a := RunTurn(a, scripts[k], cfg, tools);
      }
    }
    assert scripts[..|scripts|] == scripts;
  }

  lemma EndedTurn(a: Loop, script: Script, cfg: Config, tools: Tools)
    requires a.end.Some?
    ensures Turn(a, script, cfg, tools) == a
  {
  }

  // ------------------------------------------------------------ tool exchanges

  lemma ResponseHoldsNoResult(events: seq<ProviderEvent>)
    ensures !HoldsResult(AssistantMessage(Collect(events)))
  {
    hide Collect;
    CollectShape(events);
  }

  lemma TurnKeepsPairs(a: Loop, script: Script, cfg: Config, tools: Tools)
    requires WellPaired(a.messages)
    ensures WellPaired(Turn(a, script, cfg, tools).messages)
  {
    hide Collect, WellPaired, HoldsResult, ResultBlocks, ExecutedCalls, KnownCalls, BatchEvents, ToolCalls;
    var c := Collect(script.events);
    if a.end.None? && c.done.Some? && c.calls != [] {
      CollectShape(script.events);
      MessageShowsDeltas(script.events);
      ResponseHoldsNoResult(script.events);
      var run := OfTurn(tools, |a.inputs|);
      ResultsAnswerCalls(c.calls, cfg, a.used, run, |c.calls|);
      AppendExchange(a.messages, AssistantMessage(c),
                     Message(User, ResultBlocks(c.calls, cfg, a.used, run, |c.calls|)));
    }
  }

  /** At every model call of the loop, the context it is given has each
      tool-calling turn directly followed by exactly its results. */
  lemma {:induction false} EveryModelCallIsWellPaired(
      messages: seq<Message>, scripts: seq<Script>, cfg: Config, tools: Tools)
    requires WellPaired(messages)
    ensures WellPaired(Stream(messages, scripts, cfg, tools).messages)
    ensures forall k :: 0 <= k < |Stream(messages, scripts, cfg, tools).inputs| ==>
              WellPaired(Stream(messages, scripts, cfg, tools).inputs[k])
  {
    if scripts != [] {
      hide WellPaired;
      EveryModelCallIsWellPaired(messages, scripts[..|scripts| - 1], cfg, tools);
      var a := Stream(messages, scripts[..|scripts| - 1], cfg, tools);
      TurnKeepsPairs(a, scripts[|scripts| - 1], cfg, tools);
      TurnInputs(a, scripts[|scripts| - 1], cfg, tools);
    }
  }

  lemma TurnInputs(a: Loop, script: Script, cfg: Config, tools: Tools)
    ensures Turn(a, script, cfg, tools).inputs == if a.end.Some? then a.inputs else a.inputs + [a.messages]
  {
  }

  // ------------------------------------------------------------ execution limit

  ghost predicate Metered(a: Loop, cfg: Config) {
    && a.used == |a.executed| <= cfg.maxToolCalls
    && a.executed == a.requested[..Min(|a.requested|, cfg.maxToolCalls)]
  }

  lemma BatchMeters(a: Loop, m: Message, calls: seq<Block>, cfg: Config, run: nat -> ToolOutcome)
    requires AllCalls(calls) && Metered(a, cfg)
    ensures Metered(AfterBatch(a, m, calls, cfg, run), cfg)
  {
    hide KnownCalls, ExecutedCalls;
    ExecutedIsPrefixOfKnown(calls, cfg, a.used, |calls|);
    assert calls[..|calls|] == calls;
    var known := KnownCalls(calls, cfg.known);
    var b := AfterBatch(a, m, calls, cfg, run);
    var n := Min(|known|, cfg.maxToolCalls - a.used);
    assert b.requested[..Min(|b.requested|, cfg.maxToolCalls)] == a.executed + known[..n];
  }

  lemma TurnMeters(a: Loop, script: Script, cfg: Config, tools: Tools)
    requires Metered(a, cfg)
    ensures Metered(Turn(a, script, cfg, tools), cfg)
  {
    hide Collect, KnownCalls, ExecutedCalls, ResultBlocks, BatchEvents, AfterBatch;
    var c := Collect(script.events);
    if a.end.None? && c.done.Some? && c.calls != [] {
      CollectShape(script.events);
      var m := AssistantMessage(c);
      var spoke := a.(inputs := a.inputs + [a.messages], events := a.events + c.deltas + [MessageDone(m)]);
      BatchMeters(spoke, m, c.calls, cfg, OfTurn(tools, |a.inputs|));
    }
  }

  lemma {:induction false} StreamMeters(messages: seq<Message>, scripts: seq<Script>, cfg: Config, tools: Tools)
    ensures Metered(Stream(messages, scripts, cfg, tools), cfg)
  {
    if scripts != [] {
      hide Turn;
      StreamMeters(messages, scripts[..|scripts| - 1], cfg, tools);
      TurnMeters(Stream(messages, scripts[..|scripts| - 1], cfg, tools), scripts[|scripts| - 1], cfg, tools);
    }
  }

  // ------------------------------------------------- against the provider's streams

  /** The streamed calls that name a tool the agent has, in stream order. */
  function KnownStreamed(events: seq<ProviderEvent>, known: set<string>): seq<Block> {
    if events == [] then []
    else
      var front, last := KnownStreamed(events[..|events| - 1], known), events[|events| - 1];
      if last.ToolCallDone? && last.name in known then front + [ToolCall(last.id, last.name, last.arguments)] else front
  }

  /** What a provider stream asks for; one that never finishes asks for nothing. */
  function KnownAsked(script: Script, known: set<string>): seq<Block> {
    var n := FirstDone(script.events);
    if n < |script.events| then KnownStreamed(script.events[..n], known) else []
  }

  function AllAsked(scripts: seq<Script>, known: set<string>): seq<Block> {
    if scripts == [] then []
    else AllAsked(scripts[..|scripts| - 1], known) + KnownAsked(scripts[|scripts| - 1], known)
  }

  lemma StreamedAreCalls(events: seq<ProviderEvent>)
    ensures AllCalls(StreamedCalls(events))
  {
  }

  lemma {:induction false} KnownAreStreamed(events: seq<ProviderEvent>, known: set<string>)
    ensures AllCalls(StreamedCalls(events)) && KnownCalls(StreamedCalls(events), known) == KnownStreamed(events, known)
  {
    StreamedAreCalls(events);
    if events != [] {
      KnownAreStreamed(events[..|events| - 1], known);
      StreamedAreCalls(events[..|events| - 1]);
      var front, last := StreamedCalls(events[..|events| - 1]), events[|events| - 1];
      if last.ToolCallDone? {
        assert (front + [ToolCall(last.id, last.name, last.arguments)])[..|front|] == front;
      }
    }
  }

  /** One turn, told by the stream it consumed: its deltas are forwarded; without a
      finish the loop fails; a finish without calls completes it with the finish's usage
      and request id; otherwise the calls are answered and the loop goes on. */
  lemma TurnFollowsTheStream(a: Loop, script: Script, cfg: Config, tools: Tools)
    requires a.end.None?
    ensures var b, n := Turn(a, script, cfg, tools), FirstDone(script.events);
            var heard := script.events[..n];
            var m := AssistantMessage(Collect(script.events));
            && b.inputs == a.inputs + [a.messages] && ToolCalls(m.blocks) == StreamedCalls(heard)
            && (if n == |script.events| then
                  b == a.(inputs := b.inputs, events := a.events + StreamedDeltas(heard),
                          end := Some(Failed(if script.failure.Some? then script.failure.value else "no_finish")))
                else if StreamedCalls(heard) == [] then
                  b == a.(inputs := b.inputs, end := Some(Completed),
                          events := a.events + StreamedDeltas(heard)
                            + [MessageDone(m)] + [AgentFinal(script.events[n].usage, script.events[n].requestId)])
                else
                  && b.end.None? && a.events + StreamedDeltas(heard) + [MessageDone(m)] <= b.events
                  && AllCalls(StreamedCalls(heard))
                  && b.messages == a.messages + [m, Message(User, ResultBlocks(StreamedCalls(heard), cfg, a.used,
                                                                               OfTurn(tools, |a.inputs|),
                                                                               |StreamedCalls(heard)|))])
  {
    MessageIsTheStream(script.events);
    var n := FirstDone(script.events);
    MirroredCalls(Collect(script.events), script.events[..n]);
    StreamedAreCalls(script.events[..n]);
    hide Collect, FirstDone, StreamedCalls, StreamedDeltas, Mirrors, ToolCalls, Content, Shown;
    hide KnownCalls, ExecutedCalls, ResultBlocks, BatchEvents;
  }

  lemma TurnAsks(a: Loop, script: Script, cfg: Config, tools: Tools)
    requires a.end.None?
    ensures var b := Turn(a, script, cfg, tools);
            b.requested == a.requested + KnownAsked(script, cfg.known) && |b.inputs| == |a.inputs| + 1
  {
    MessageIsTheStream(script.events);
    var n := FirstDone(script.events);
    MirroredCalls(Collect(script.events), script.events[..n]);
    KnownAreStreamed(script.events[..n], cfg.known);
    NoCallsAsked(cfg.known);
    hide Collect, FirstDone, StreamedCalls, StreamedDeltas, Mirrors, ToolCalls, Content, Shown;
    hide KnownCalls, ExecutedCalls, ResultBlocks, BatchEvents, KnownStreamed;
  }

  lemma NoCallsAsked(known: set<string>)
    ensures KnownCalls([], known) == []
  {
  }

  /** What the loop was asked for is what the streams it consumed ask for. */
  lemma {:induction false} AskedIsStreamed(messages: seq<Message>, scripts: seq<Script>, cfg: Config, tools: Tools)
    ensures var a := Stream(messages, scripts, cfg, tools);
            && |a.inputs| <= |scripts| && (a.end.None? ==> |a.inputs| == |scripts|)
            && a.requested == AllAsked(scripts[..|a.inputs|], cfg.known)
  {
    hide Turn, KnownAsked;
    if scripts != [] {
      var n := |scripts| - 1;
      AskedIsStreamed(messages, scripts[..n], cfg, tools);
      var a := Stream(messages, scripts[..n], cfg, tools);
      assert scripts[..n][..|a.inputs|] == scripts[..|a.inputs|];
      if a.end.None? {
        TurnAsks(a, scripts[n], cfg, tools);
        assert scripts[..n + 1] == scripts;
      } else {
        EndedTurn(a, scripts[n], cfg, tools);
      }
    }
  }

  /** Over all turns, the executed calls are exactly the first `maxToolCalls` calls of
      tools the agent has among those the consumed streams ask for, in stream order. */
  lemma ExecutedAreTheFirstKnown(messages: seq<Message>, scripts: seq<Script>, cfg: Config, tools: Tools)
    ensures var a := Stream(messages, scripts, cfg, tools);
            |a.inputs| <= |scripts| &&
            var asked := AllAsked(scripts[..|a.inputs|], cfg.known);
            a.executed == asked[..Min(|asked|, cfg.maxToolCalls)] && a.used == |a.executed| <= cfg.maxToolCalls
  {
    hide Stream, AllAsked;
    StreamMeters(messages, scripts, cfg, tools);
    AskedIsStreamed(messages, scripts, cfg, tools);
  }

  // -------------------------------------------------------- messages and deltas

  /** The events since the last completed message. */
  function SinceDone(events: seq<AgentEvent>): seq<AgentEvent> {
    if events == [] || events[|events| - 1].MessageDone? then []
    else SinceDone(events[..|events| - 1]) + [events[|events| - 1]]
  }

  /** What a completed message must show, given the events since the last one. */
  ghost predicate Shows(m: Message, recent: seq<AgentEvent>) {
    forall channel :: Shown(recent, channel) == if m.role == Assistant then Content(m.blocks, channel) else ""
  }

  /** Every completed assistant message shows exactly the deltas since the last
      message, and no delta falls outside an assistant message. */
  ghost predicate Faithful(events: seq<AgentEvent>) {
    events == [] ||
    (var front, last := events[..|events| - 1], events[|events| - 1];
     Faithful(front) && (last.MessageDone? ==> Shows(last.message, SinceDone(front))))
  }

  lemma {:induction false} PrefixFaithful(events: seq<AgentEvent>, n: nat)
    requires Faithful(events) && n <= |events|
    ensures Faithful(events[..n])
  {
    if n == |events| {
      assert events[..n] == events;
    } else {
      assert events[..|events| - 1][..n] == events[..n];
      PrefixFaithful(events[..|events| - 1], n);
    }
  }

  lemma {:induction false} AppendQuiet(events: seq<AgentEvent>, quiet: seq<AgentEvent>)
    requires Faithful(events) && forall i :: 0 <= i < |quiet| ==> !quiet[i].MessageDone?
    ensures Faithful(events + quiet) && SinceDone(events + quiet) == SinceDone(events) + quiet
  {
    if quiet == [] {
      assert events + quiet == events;
    } else {
      var n := |quiet| - 1;
      AppendQuiet(events, quiet[..n]);
      assert (events + quiet)[..|events + quiet| - 1] == events + quiet[..n];
    }
  }

  lemma AppendDone(events: seq<AgentEvent>, m: Message)
    requires Faithful(events) && Shows(m, SinceDone(events))
    ensures Faithful(events + [MessageDone(m)]) && SinceDone(events + [MessageDone(m)]) == []
  {
    assert (events + [MessageDone(m)])[..|events|] == events;
  }

  lemma {:induction false} ToolEventsShowNothing(events: seq<AgentEvent>, channel: Channel)
    requires ToolEvents(events)
    ensures Shown(events, channel) == ""
  {
    if events != [] {
      ToolEventsShowNothing(events[..|events| - 1], channel);
    }
  }

  /** The invariant of the loop: faithful so far, and nothing pending. */
  ghost predicate Settled(a: Loop) {
    Faithful(a.events)
        && (!(a.end.Some? && a.end.value.Failed?) ==> forall channel :: Shown(SinceDone(a.events), channel) == "")
  }

  lemma SpeakFaithful(events: seq<AgentEvent>, script: Script)
    requires Faithful(events) && forall channel :: Shown(SinceDone(events), channel) == ""
    ensures var c := Collect(script.events);
      && Faithful(events + c.deltas)
      && Faithful(events + c.deltas + [MessageDone(AssistantMessage(c))])
      && SinceDone(events + c.deltas + [MessageDone(AssistantMessage(c))]) == []
  {
    hide Collect, Faithful, SinceDone, Shown, Content;
    var c := Collect(script.events);
    CollectShape(script.events);
    MessageShowsDeltas(script.events);
    AppendQuiet(events, c.deltas);
    forall channel ensures Shown(SinceDone(events) + c.deltas, channel)
        == Content(AssistantMessage(c).blocks, channel) {
      ShownConcat(SinceDone(events), c.deltas, channel);
      assert "" + Shown(c.deltas, channel) == Shown(c.deltas, channel);
    }
    AppendDone(events + c.deltas, AssistantMessage(c));
  }

  lemma BatchFaithful(a: Loop, m: Message, calls: seq<Block>, cfg: Config, run: nat -> ToolOutcome)
    requires AllCalls(calls) && Faithful(a.events) && SinceDone(a.events) == []
    ensures Faithful(AfterBatch(a, m, calls, cfg, run).events)
    ensures SinceDone(AfterBatch(a, m, calls, cfg, run).events) == []
  {
    hide Faithful, SinceDone, StartedEvents, FinishedEvents, AdmittedIndices, ExecutedCalls, KnownCalls, ResultBlocks;
    IndicesInRange(calls, cfg, a.used, |calls|);
    var indices := AdmittedIndices(calls, cfg, a.used, |calls|);
    StartedAreToolEvents(calls, indices, |indices|);
    FinishedAreToolEvents(calls, cfg, a.used, run, |calls|);
    var batch := BatchEvents(calls, cfg, a.used, run);
    assert ToolEvents(batch);
    AppendQuiet(a.events, batch);
    assert [] + batch == batch;
    forall channel ensures Shown(batch, channel) == "" { ToolEventsShowNothing(batch, channel); }
    AppendDone(a.events + batch, Message(User, ResultBlocks(calls, cfg, a.used, run, |calls|)));
  }

  lemma FinalIsQuiet(events: seq<AgentEvent>, usage: Option<string>, requestId: Option<string>)
    requires Faithful(events) && SinceDone(events) == []
    ensures Faithful(events + [AgentFinal(usage, requestId)])
    ensures forall channel :: Shown(SinceDone(events + [AgentFinal(usage, requestId)]), channel) == ""
  {
    hide Faithful, SinceDone;
    AppendQuiet(events, [AgentFinal(usage, requestId)]);
    forall channel ensures Shown([AgentFinal(usage, requestId)], channel) == "" {
      ShownSnoc([], AgentFinal(usage, requestId), channel);
      assert [] + [AgentFinal(usage, requestId)] == [AgentFinal(usage, requestId)];
    }
  }

  lemma TurnSettles(a: Loop, script: Script, cfg: Config, tools: Tools)
    requires Settled(a)
    ensures Settled(Turn(a, script, cfg, tools))
  {
    hide Collect, Faithful, SinceDone, Shown, AfterBatch;
    var c := Collect(script.events);
    if a.end.None? {
      SpeakFaithful(a.events, script);
      if c.done.Some? {
        var m := AssistantMessage(c);
        CollectShape(script.events);
        var spoke := a.(inputs := a.inputs + [a.messages], events := a.events + c.deltas + [MessageDone(m)]);
        EmptyShowsNothing();
        if c.calls == [] {
          FinalIsQuiet(spoke.events, c.done.value.0, c.done.value.1);
        } else {
          BatchFaithful(spoke, m, c.calls, cfg, OfTurn(tools, |a.inputs|));
        }
      }
    }
  }

  lemma EmptyShowsNothing()
    ensures forall channel :: Shown([], channel) == ""
  {
  }

  /** Whatever the provider streams, the loop's events are faithful, and unless the
      provider failed nothing shown is left outside a completed message. */
  lemma {:induction false} StreamIsFaithful(messages: seq<Message>, scripts: seq<Script>, cfg: Config, tools: Tools)
    ensures Settled(Stream(messages, scripts, cfg, tools))
  {
    if scripts != [] {
      hide Turn, Settled;
      StreamIsFaithful(messages, scripts[..|scripts| - 1], cfg, tools);
      TurnSettles(Stream(messages, scripts[..|scripts| - 1], cfg, tools), scripts[|scripts| - 1], cfg, tools);
    } else {
      EmptyShowsNothing();
    }
  }
}
