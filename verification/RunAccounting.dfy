/** What a finished run's transcript, timer and answer have to do with each other
    and with the agent loop that produced them. */
module RunAccounting {
  import opened Prelude
  import opened Messages
  import opened ModelCall
  import opened ToolBatch
  import opened Pairing
  import opened ChatAgents
  import opened RunExecutor
  import RT = RunTiming

  // ------------------------------------------------------------- model calls

  function UserTurns(messages: seq<Message>): nat {
    if messages == [] then 0
    else UserTurns(messages[..|messages| - 1]) + if messages[|messages| - 1].role == User then 1 else 0
  }

  lemma UserTurnsSnoc(messages: seq<Message>, m: Message)
    ensures UserTurns(messages + [m]) == UserTurns(messages) + if m.role == User then 1 else 0
  {
    assert (messages + [m])[..|messages|] == messages;
  }

  lemma NoOps(c: RT.Count)
    ensures RT.CountFrom(c, []) == c
  {
  }

  lemma {:induction false} AttemptCounts(c: RT.Count, events: seq<AgentEvent>)
    ensures RT.CountFrom(c, TimerOps(events)) ==
      RT.Count(c.attempts + 1, (if c.attempts == 0 then 1 else c.calls) + UserTurns(DoneMessages(events)))
  {
    hide RT.CountFrom;
    if events == [] {
      NoOps(c);
      RT.CountSnoc(c, [], RT.StreamStart);
      assert [] + [RT.StreamStart] == [RT.StreamStart];
    } else {
      hide UserTurns;
      var front, last := events[..|events| - 1], events[|events| - 1];
      AttemptCounts(c, front);
      RT.CountSnoc(c, TimerOps(front), RT.Event(last));
      if last.MessageDone? {
        UserTurnsSnoc(DoneMessages(front), last.message);
      }
    }
  }

  lemma {:induction false} AllAttemptsCount(policy: Policy, attempts: nat -> Attempt, n: nat, c: RT.Count)
    requires c.attempts > 0 ==> c.calls == 1
    ensures var d := Deciding(policy, attempts, n);
      RT.CountFrom(c, AllTimerOps(policy, attempts, n)) ==
        RT.Count(c.attempts + 1 + d - n, 1 + UserTurns(DoneMessages(attempts(d).events)))
    decreases policy.maxAttempts - n
  {
    hide RT.CountFrom, TimerOps, Emitted, CodeRetryable, ErrorAllowsRetry;
    var a := attempts(n);
    AttemptCounts(c, a.events);
    if Retries(policy, a, n) {
      TranscriptIsDoneMessages(0, a.events);
      AllAttemptsCount(policy, attempts, n + 1, RT.CountFrom(c, TimerOps(a.events)));
      RT.CountConcat(c, TimerOps(a.events), AllTimerOps(policy, attempts, n + 1));
    } else {
      assert TimerOps(a.events) + [] == TimerOps(a.events);
    }
  }

  /** Whatever the clock readings, retries and interruptions: the timer counts one
      model call plus one per tool-result turn of the outcome's transcript, and as
      many attempts as were made. */
  lemma ModelCallsCountToolTurns(policy: Policy, attempts: nat -> Attempt, initialSeq: int,
                                 start: real, ticks: seq<RT.Tick>)
    requires RT.OpsOf(ticks) == AllTimerOps(policy, attempts, 1)
    requires FinishOf(initialSeq, attempts(Deciding(policy, attempts, 1))).Finished?
    ensures var t := RT.RunTicks(start, ticks);
      var outcome := FinishOf(initialSeq, attempts(Deciding(policy, attempts, 1))).outcome;
      t.modelCalls == 1 + UserTurns(outcome.transcript) && t.attempts == Deciding(policy, attempts, 1)
  {
    hide RT.CountFrom, RT.RunTicks, AllTimerOps, Consumed, DoneMessages, UserTurns;
    var a := attempts(Deciding(policy, attempts, 1));
    RT.TimerCounts(start, ticks);
    AllAttemptsCount(policy, attempts, 1, RT.Count(0, 0));
    TranscriptIsDoneMessages(initialSeq, a.events);
    var p := Consumed(initialSeq, a.events);
    UserTurnsSnoc(p.transcript, Message(Assistant, p.pending));
  }

  // -------------------------------------------------- transcript and context

  lemma {:induction false} DoneConcat(a: seq<AgentEvent>, b: seq<AgentEvent>)
    ensures DoneMessages(a + b) == DoneMessages(a) + DoneMessages(b)
  {
    if b == [] {
      assert a + b == a;
    } else {
      DoneConcat(a, b[..|b| - 1]);
      assert (a + b)[..|a + b| - 1] == a + b[..|b| - 1];
    }
  }

  lemma {:induction false} QuietHasNoDone(events: seq<AgentEvent>)
    requires forall i :: 0 <= i < |events| ==> !events[i].MessageDone?
    ensures DoneMessages(events) == []
  {
    if events != [] {
      QuietHasNoDone(events[..|events| - 1]);
    }
  }

  lemma DoneAppend(events: seq<AgentEvent>, quiet: seq<AgentEvent>, m: Message)
    requires forall i :: 0 <= i < |quiet| ==> !quiet[i].MessageDone?
    ensures DoneMessages(events + quiet) == DoneMessages(events)
    ensures DoneMessages(events + quiet + [MessageDone(m)]) == DoneMessages(events) + [m]
  {
    DoneConcat(events, quiet);
    QuietHasNoDone(quiet);
    assert (events + quiet + [MessageDone(m)])[..|events + quiet|] == events + quiet;
  }

  /** The loop's context is the initial one followed by the completed messages; a
      normal end adds one last assistant message that calls no tool. */
  ghost predicate Grown(initial: seq<Message>, a: Loop) {
    if a.end == Some(Completed) then
      var done := DoneMessages(a.events);
      && done != []
      && a.messages + [done[|done| - 1]] == initial + done
      && done[|done| - 1].role == Assistant
      && ToolCalls(done[|done| - 1].blocks) == []
      && !HoldsResult(done[|done| - 1])
    else a.messages == initial + DoneMessages(a.events)
  }

  lemma BatchGrows(initial: seq<Message>, a: Loop, m: Message, calls: seq<Block>, cfg: Config, run: nat -> ToolOutcome)
    requires AllCalls(calls) && a.end.None? && a.messages + [m] == initial + DoneMessages(a.events)
    ensures Grown(initial, AfterBatch(a, m, calls, cfg, run))
  {
    hide StartedEvents, FinishedEvents, AdmittedIndices, ExecutedCalls, KnownCalls, ResultBlocks, DoneMessages;
    IndicesInRange(calls, cfg, a.used, |calls|);
    var indices := AdmittedIndices(calls, cfg, a.used, |calls|);
    StartedAreToolEvents(calls, indices, |indices|);
    FinishedAreToolEvents(calls, cfg, a.used, run, |calls|);
    var answer := Message(User, ResultBlocks(calls, cfg, a.used, run, |calls|));
    DoneAppend(a.events, BatchEvents(calls, cfg, a.used, run), answer);
    assert a.messages + [m, answer] == (a.messages + [m]) + [answer];
  }

  lemma TurnGrows(initial: seq<Message>, a: Loop, script: Script, cfg: Config, tools: Tools)
    requires Grown(initial, a)
    ensures Grown(initial, Turn(a, script, cfg, tools))
  {
    hide Collect, AfterBatch, DoneMessages, ToolCalls, HoldsResult;
    if a.end.None? {
      var c := Collect(script.events);
      CollectShape(script.events);
      var m := AssistantMessage(c);
      DoneAppend(a.events, c.deltas, m);
      if c.done.Some? {
        var spoke := a.(inputs := a.inputs + [a.messages], events := a.events + c.deltas + [MessageDone(m)]);
        assert a.messages + [m] == initial + DoneMessages(spoke.events);
        if c.calls == [] {
          MessageShowsDeltas(script.events);
          ResponseHoldsNoResult(script.events);
          DoneAppend(spoke.events, [AgentFinal(c.done.value.0, c.done.value.1)], m);
        } else {
          BatchGrows(initial, spoke, m, c.calls, cfg, OfTurn(tools, |a.inputs|));
        }
      }
    }
  }

  lemma {:induction false} StreamGrows(messages: seq<Message>, scripts: seq<Script>, cfg: Config, tools: Tools)
    ensures Grown(messages, Stream(messages, scripts, cfg, tools))
  {
    if scripts == [] {
      assert messages + [] == messages;
    } else {
      hide Turn, Grown;
      StreamGrows(messages, scripts[..|scripts| - 1], cfg, tools);
      TurnGrows(messages, Stream(messages, scripts[..|scripts| - 1], cfg, tools), scripts[|scripts| - 1], cfg, tools);
    }
  }

  lemma AppendPlain(ms: seq<Message>, m: Message)
    requires WellPaired(ms) && !Calls(m) && !HoldsResult(m)
    ensures WellPaired(ms + [m])
  {
    hide Answers, HoldsResult, Calls;
    assert forall i :: 0 <= i < |ms| ==> (ms + [m])[i] == ms[i];
    assert (ms + [m])[|ms|] == m;
  }

  /** A succeeded run always has a final assistant message to materialize, that
      message asks for no tool, and the context the run started from followed by
      its transcript is again a conversation with every tool exchange whole. */
  lemma SucceededTranscriptIsReplayable(
      a: Attempt, initialSeq: int, messages: seq<Message>, scripts: seq<Script>, cfg: Config, tools: Tools)
    requires WellPaired(messages) && a.ending == StreamEnded && Watches(a, Stream(messages, scripts, cfg, tools))
    ensures var t := FinishOf(initialSeq, a).outcome.transcript;
      && t != [] && t[|t| - 1].role == Assistant && ToolCalls(t[|t| - 1].blocks) == []
      && WellPaired(messages + t)
  {
    hide Stream, Consumed, DoneMessages, WellPaired, HoldsResult, ToolCalls;
    var loop := Stream(messages, scripts, cfg, tools);
    StreamGrows(messages, scripts, cfg, tools);
    TranscriptIsDoneMessages(initialSeq, a.events);
    EveryModelCallIsWellPaired(messages, scripts, cfg, tools);
    var t := DoneMessages(loop.events);
    AppendPlain(loop.messages, t[|t| - 1]);
  }
}
