/** The run pipeline end to end: provider streams, agent loop, executor and draft
    checkpoints, composed. */
module RunPipeline {
  import opened Prelude
  import opened Messages
  import opened ToolBatch
  import opened ChatAgents
  import opened RunExecutor
  import opened DraftCheckpoints
  import opened Pairing
  import ContextTrim

  lemma {:induction false} OfferedArePositive(ops: seq<Op>)
    requires forall e :: e in Offered(ops) ==> e.seqNo >= 1
    ensures Positive(ops)
  {
    if ops != [] {
      var front := ops[..|ops| - 1];
      assert forall e :: e in Offered(front) ==> e in Offered(ops);
      OfferedArePositive(front);
      assert forall i :: 0 <= i < |front| ==> ops[i] == front[i];
      if ops[|ops| - 1].EmitOp? {
        assert ops[|ops| - 1].event in Offered(ops);
      }
    }
  }

  lemma EmittedPositive(initialSeq: int, events: seq<AgentEvent>)
    requires initialSeq >= 0
    ensures forall e :: e in Emitted(initialSeq, events) ==> e.seqNo >= 1
  {
    hide Emitted;
    NumbersAreContiguous(initialSeq, events);
  }

  /** When a run's events have gone through the draft sink, with timer firings and
      checkpoints anywhere in between, and the closing flush has raised nothing, the
      saved draft reads on every channel exactly as the assistant messages of the
      outcome that will be persisted. */
  lemma FlushedDraftIsTranscript(
      policy: Policy, attempts: nat -> Attempt, initialSeq: nat,
      messages: seq<Message>, scripts: seq<Script>, cfg: Config, tools: Tools,
      ops: seq<Op>, saveOk: bool, settings: Settings)
    requires Watches(attempts(Deciding(policy, attempts, 1)), Stream(messages, scripts, cfg, tools))
    requires FinishOf(initialSeq, attempts(Deciding(policy, attempts, 1))).Finished?
    requires Offered(ops) == Emitted(initialSeq, attempts(Deciding(policy, attempts, 1)).events)
    requires settings.maxPendingChars >= 1 && settings.maxEvents >= 1
    requires !RunOps(ops + [FlushOp(saveOk)], settings).errored
    ensures var t := RunOps(ops + [FlushOp(saveOk)], settings);
      var spoken := FinishOf(initialSeq, attempts(Deciding(policy, attempts, 1))).outcome.transcript;
      if t.sink.draft.Some? then
        && t.sink.draft.value.text == Spoken(spoken, Answer)
        && t.sink.draft.value.reasoning == Spoken(spoken, Thought(Raw))
        && t.sink.draft.value.summary == Spoken(spoken, Thought(Summary))
      else forall channel :: Spoken(spoken, channel) == ""
  {
    hide Emitted, Consumed, Spoken, SinkShown, Deciding, Watches;
    hide Stream, Buffered, Armed, Newest, Positive, Offered, FinishOf;
    var a := attempts(Deciding(policy, attempts, 1));
    var flush := FlushOp(saveOk);
    var all := ops + [flush];
    assert all[..|ops|] == ops;
    OfferedWithFlush(ops, saveOk);
    EmittedPositive(initialSeq, a.events);
    OfferedArePositive(all);
    var t := RunOps(all, settings);
    SpokenIsShown(policy, attempts, initialSeq, messages, scripts, cfg, tools, all, settings, Answer);
    SpokenIsShown(policy, attempts, initialSeq, messages, scripts, cfg, tools, all, settings, Thought(Raw));
    SpokenIsShown(policy, attempts, initialSeq, messages, scripts, cfg, tools, all, settings, Thought(Summary));
    ToolEventOrFlushSavesAll(ops, flush, settings);
    RunsAreSound(all, settings);
    if t.log == [] {
      forall channel ensures SinkShown(t.log, channel) == "" { EmptyLogShowsNothing(channel); }
      forall channel ensures Spoken(FinishOf(initialSeq, a).outcome.transcript, channel) == "" {
        SpokenIsShown(policy, attempts, initialSeq, messages, scripts, cfg, tools, all, settings, channel);
      }
    }
  }

  lemma EmptyLogShowsNothing(channel: Channel)
    ensures SinkShown([], channel) == ""
  {
  }

  lemma OfferedWithFlush(ops: seq<Op>, saveOk: bool)
    ensures Offered(ops + [FlushOp(saveOk)]) == Offered(ops)
  {
    assert (ops + [FlushOp(saveOk)])[..|ops|] == ops;
  }

  lemma SpokenIsShown(
      policy: Policy, attempts: nat -> Attempt, initialSeq: nat,
      messages: seq<Message>, scripts: seq<Script>, cfg: Config, tools: Tools,
      ops: seq<Op>, settings: Settings, channel: Channel)
    requires Watches(attempts(Deciding(policy, attempts, 1)), Stream(messages, scripts, cfg, tools))
    requires FinishOf(initialSeq, attempts(Deciding(policy, attempts, 1))).Finished?
    requires Offered(ops) == Emitted(initialSeq, attempts(Deciding(policy, attempts, 1)).events)
    requires Positive(ops) && settings.maxPendingChars >= 1 && settings.maxEvents >= 1 && !RunOps(ops, settings).errored
    ensures SinkShown(RunOps(ops, settings).log, channel)
         == Spoken(FinishOf(initialSeq, attempts(Deciding(policy, attempts, 1))).outcome.transcript, channel)
  {
    hide Emitted, Consumed, Spoken, SinkShown, Deciding, Watches, Stream, Offered, RunOps, FinishOf;
    LogShowsOffered(ops, settings, channel);
    ForwardedTextIsTranscriptText(policy, attempts, initialSeq, channel, messages, scripts, cfg, tools);
  }

  /** From any well-paired history, trimmed to any budget, every model call the run
      makes sees whole tool exchanges only. */
  lemma TrimmedRunsStayWellPaired(prompt: string, history: seq<Message>, budget: int, meter: ContextTrim.Meter,
                                  scripts: seq<Script>, cfg: Config, tools: Tools)
    requires WellPaired(history)
    ensures var context := ContextTrim.BuildContext(prompt, history, budget, meter);
            forall k :: 0 <= k < |Stream(context, scripts, cfg, tools).inputs| ==>
              WellPaired(Stream(context, scripts, cfg, tools).inputs[k])
  {
    hide WellPaired;
    var context := ContextTrim.BuildContext(prompt, history, budget, meter);
    ContextTrim.ContextKeepsPairs(prompt, history, budget, meter);
    EveryModelCallIsWellPaired(context, scripts, cfg, tools);
  }
}
