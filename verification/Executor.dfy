/** Consuming the agent stream: sequence numbers, transcript, partial message,
    whole-loop retry and cancellation at any point. */
module RunExecutor {
  import opened Prelude
  import opened Messages
  import opened ChatAgents
  import RunTiming
  import ToolBatch

  /** How one stream attempt stops: normally, on a set cancel flag, on a provider
      error, or on any other exception, the generator's or the sink's. */
  datatype Ending =
    | StreamEnded
    | CancelSet
    | ProviderFailed(code: string, retryable: bool, cancelSet: bool)
    | Crashed

  /** The events one attempt delivers before it stops. */
  datatype Attempt = Attempt(events: seq<AgentEvent>, ending: Ending)

  datatype Policy = Policy(maxAttempts: nat, retryableCodes: Option<set<string>>)

  datatype Status = Succeeded | Broken | Cancelled

  datatype RunEvent = RunEvent(seqNo: int, event: AgentEvent)

  datatype Outcome = Outcome(
    status: Status,
    transcript: seq<Message>,
    lastSeq: int,
    usage: Option<string>,
    requestId: Option<string>,
    errorCode: Option<string>)

  /** Either an outcome to finalize, or an exception that leaves the consumer. */
  datatype Finish = Finished(outcome: Outcome) | Crash

  /** The loop's variables within one attempt. */
  datatype Progress = Progress(
    seqNo: int,
    transcript: seq<Message>,
    pending: seq<Block>,
    usage: Option<string>,
    requestId: Option<string>)

  predicate Forwards(event: AgentEvent) {
    !event.MessageDone? && !event.AgentFinal?
  }

  function Advance(p: Progress, event: AgentEvent): Progress {
    match event
    case MessageDone(m) => p.(transcript := p.transcript + [m], pending := [])
    case AgentFinal(usage, requestId) => p.(usage := usage, requestId := requestId)
    case AgentText(text) => p.(pending := Coalesced(p.pending, Text(text)), seqNo := p.seqNo + 1)
    case AgentReasoning(text, kind) =>
      p.(pending := Coalesced(p.pending, Reasoning(text, kind)), seqNo := p.seqNo + 1)
    case _ => p.(seqNo := p.seqNo + 1)
  }

  function Consumed(initialSeq: int, events: seq<AgentEvent>): Progress {
    if events == [] then Progress(initialSeq, [], [], None, None)
    else Advance(Consumed(initialSeq, events[..|events| - 1]), events[|events| - 1])
  }

  /** The events handed to the sink, numbered from `initialSeq + 1`. */
  function Emitted(initialSeq: int, events: seq<AgentEvent>): seq<RunEvent> {
    if events == [] then []
    else
      var front := Emitted(initialSeq, events[..|events| - 1]);
      if Forwards(events[|events| - 1]) then front + [RunEvent(initialSeq + |front| + 1, events[|events| - 1])]
          else front
  }

  function WithPartial(transcript: seq<Message>, pending: seq<Block>): seq<Message> {
    if pending == [] then transcript else transcript + [Message(Assistant, pending)]
  }

  predicate ErrorAllowsRetry(code: string, retryable: bool) {
    code != "openrouter_continuation_incompatible" && (Occurs(code, "image_input") ==> retryable)
  }

  predicate CodeRetryable(policy: Policy, code: string) {
    policy.retryableCodes.None? || code in policy.retryableCodes.value
  }

  /** Whether attempt number `n` (counted from 1) is followed by another one. */
  predicate Retries(policy: Policy, a: Attempt, n: nat) {
    && a.ending.ProviderFailed?
    && Emitted(0, a.events) == []
    && Consumed(0, a.events).transcript == []
    && n < policy.maxAttempts
    && CodeRetryable(policy, a.ending.code)
    && ErrorAllowsRetry(a.ending.code, a.ending.retryable)
    && !a.ending.cancelSet
  }

  /** The attempt that decides the run, from attempt `n` on. */
  function Deciding(policy: Policy, attempts: nat -> Attempt, n: nat): (d: nat)
    ensures n <= d
    decreases policy.maxAttempts - n
  {
    if Retries(policy, attempts(n), n) then Deciding(policy, attempts, n + 1) else n
  }

  function FinishOf(initialSeq: int, a: Attempt): Finish {
    var p := Consumed(initialSeq, a.events);
    match a.ending
    case StreamEnded => Finished(Outcome(Succeeded, p.transcript, p.seqNo, p.usage, p.requestId, None))
    case CancelSet => Finished(Outcome(Cancelled, WithPartial(p.transcript, p.pending), p.seqNo, None, None, None))
    case ProviderFailed(code, _, _) =>
      Finished(Outcome(Broken, WithPartial(p.transcript, p.pending), p.seqNo, None, None, Some(code)))
    case Crashed => Crash
  }

  /** The timer calls one attempt makes. */
  function TimerOps(events: seq<AgentEvent>): seq<RunTiming.Op> {
    if events == [] then [RunTiming.StreamStart]
    else TimerOps(events[..|events| - 1]) + [RunTiming.Event(events[|events| - 1])]
  }

  /** The timer calls of attempts `n` to the deciding one. */
  function AllTimerOps(policy: Policy, attempts: nat -> Attempt, n: nat): seq<RunTiming.Op>
    decreases policy.maxAttempts - n
  {
    TimerOps(attempts(n).events)
    + if Retries(policy, attempts(n), n) then AllTimerOps(policy, attempts, n + 1) else []
  }

  // ------------------------------------------------------------- the fan-out sink

  /** The sink's own counter and the events it has passed on to its children. */
  datatype Fanout = Fanout(latestSeq: int, received: seq<RunEvent>)

  function Passed(sink: Fanout, e: RunEvent): Fanout {
    Fanout(e.seqNo, sink.received + [e])
  }

  function Delivered(sink: Fanout, emitted: seq<RunEvent>): Fanout {
    if emitted == [] then sink else Passed(Delivered(sink, emitted[..|emitted| - 1]), emitted[|emitted| - 1])
  }

  /** What the one sink of a run has been through after attempts `n` to the deciding one. */
  function SinkThrough(policy: Policy, attempts: nat -> Attempt, n: nat, initialSeq: int, sink: Fanout): Fanout
    decreases policy.maxAttempts - n
  {
    var after := Delivered(sink, Emitted(initialSeq, attempts(n).events));
    if Retries(policy, attempts(n), n) then SinkThrough(policy, attempts, n + 1, initialSeq, after) else after
  }

  class FanoutSink {
    var latestSeq: int
    var received: seq<RunEvent>

    ghost function Value(): Fanout
      reads this
    {
      Fanout(latestSeq, received)
    }

    constructor (initialSeq: int)
      ensures Value() == Fanout(initialSeq, [])
    {
      latestSeq, received := initialSeq, [];
    }

    /** The number is taken before the children run, and kept when one of them raises. */
    method Emit(e: RunEvent, childRaises: bool) returns (raised: bool)
      modifies this
      ensures Value() == Passed(old(Value()), e) && raised == childRaises
    {
      latestSeq := e.seqNo;
      received := received + [e];
      raised := childRaises;
    }
  }

  /** What the loop gets to see of a generator's events when emitting some numbers
      raises: everything up to and including the first event whose emit raises. */
  function SeenEvents(seqNo: int, events: seq<AgentEvent>, raises: int -> bool): seq<AgentEvent>
    decreases |events|
  {
    if events == [] then []
    else if !Forwards(events[0]) then [events[0]] + SeenEvents(seqNo, events[1..], raises)
    else if raises(seqNo + 1) then [events[0]]
    else [events[0]] + SeenEvents(seqNo + 1, events[1..], raises)
  }

  predicate EmitRaises(seqNo: int, events: seq<AgentEvent>, raises: int -> bool)
    decreases |events|
  {
    events != [] &&
    if !Forwards(events[0]) then EmitRaises(seqNo, events[1..], raises)
    else raises(seqNo + 1) || EmitRaises(seqNo + 1, events[1..], raises)
  }

  /** An attempt as the consumer experiences it through a sink that may raise. */
  function Seen(initialSeq: int, a: Attempt, raises: int -> bool): Attempt {
    Attempt(SeenEvents(initialSeq, a.events, raises),
            if EmitRaises(initialSeq, a.events, raises) then Crashed else a.ending)
  }

  function AllSeen(initialSeq: int, attempts: nat -> Attempt, raises: int -> bool): nat -> Attempt {
    (n: nat) => Seen(initialSeq, attempts(n), raises)
  }

  /** One attempt: the inner loop over the delivered events. `raised` says that an
      emit raised, which leaves the loop at once. */
  method ConsumeAttempt(initialSeq: int, a: Attempt, sink: FanoutSink, raises: int -> bool)
    returns (p: Progress, raised: bool, forwardedAny: bool, ops: seq<RunTiming.Op>)
    modifies sink
    ensures var seen := Seen(initialSeq, a, raises);
            && p == Consumed(initialSeq, seen.events)
            && sink.Value() == Delivered(old(sink.Value()), Emitted(initialSeq, seen.events))
            && raised == EmitRaises(initialSeq, a.events, raises)
            && (!raised ==> (forwardedAny <==> Emitted(initialSeq, seen.events) != []))
            && ops == TimerOps(seen.events)
  {
    hide Coalesced, Emitted, Consumed, Delivered, TimerOps, SeenEvents, EmitRaises;
    var seqNo := initialSeq;
    var transcript: seq<Message> := [];
    var pending: seq<Block> := [];
    var usage: Option<string>, requestId: Option<string> := None, None;
    forwardedAny, ops := false, [RunTiming.StreamStart];
    ghost var count := 0;
    AttemptStarts(initialSeq, old(sink.Value()));
    assert a.events[..0] == [] && a.events[0..] == a.events;
    for i := 0 to |a.events|
      invariant Consumed(initialSeq, a.events[..i]) == Progress(seqNo, transcript, pending, usage, requestId)
      invariant |Emitted(initialSeq, a.events[..i])| == count && seqNo == initialSeq + count
      invariant sink.Value() == Delivered(old(sink.Value()), Emitted(initialSeq, a.events[..i]))
      invariant forwardedAny <==> count > 0
      invariant ops == TimerOps(a.events[..i])
      invariant SeenEvents(initialSeq, a.events, raises) == a.events[..i] + SeenEvents(seqNo, a.events[i..], raises)
      invariant EmitRaises(initialSeq, a.events, raises) == EmitRaises(seqNo, a.events[i..], raises)
    {
      var event := a.events[i];
      AttemptSteps(initialSeq, a.events, i, seqNo, old(sink.Value()));
      SeenSteps(initialSeq, a.events, i, seqNo, raises);
      ops := ops + [RunTiming.Event(event)];
      if event.MessageDone? {
        transcript := transcript + [event.message];
        pending := [];
      } else if event.AgentFinal? {
        usage := event.usage;
        requestId := event.requestId;
      } else {
        if event.AgentText? {
          pending := Coalesced(pending, Text(event.text));
        } else if event.AgentReasoning? {
          pending := Coalesced(pending, Reasoning(event.text, event.kind));
        }
        seqNo := seqNo + 1;
        raised := sink.Emit(RunEvent(seqNo, event), raises(seqNo));
        if raised {
          p := Progress(seqNo, transcript, pending, usage, requestId);
          return;
        }
        forwardedAny := true;
        count := count + 1;
      }
    }
    AttemptEnds(seqNo, a.events, raises);
    p := Progress(seqNo, transcript, pending, usage, requestId);
    raised := false;
  }

  lemma AttemptStarts(initialSeq: int, sink: Fanout)
    ensures Consumed(initialSeq, []) == Progress(initialSeq, [], [], None, None)
    ensures Emitted(initialSeq, []) == [] && TimerOps([]) == [RunTiming.StreamStart] && Delivered(sink, []) == sink
  {
  }

  lemma AttemptEnds(seqNo: int, events: seq<AgentEvent>, raises: int -> bool)
    ensures events[..|events|] == events && events[..|events|] + [] == events && events[|events|..] == []
    ensures SeenEvents(seqNo, [], raises) == [] && !EmitRaises(seqNo, [], raises)
  {
  }

  lemma DeliveredSnoc(sink: Fanout, emitted: seq<RunEvent>, e: RunEvent)
    ensures Delivered(sink, emitted + [e]) == Passed(Delivered(sink, emitted), e)
  {
    assert (emitted + [e])[..|emitted|] == emitted;
  }

  /** Everything the loop tracks, after one more event. */
  lemma AttemptSteps(initialSeq: int, events: seq<AgentEvent>, i: nat, seqNo: int, sink: Fanout)
    requires i < |events| && seqNo == initialSeq + |Emitted(initialSeq, events[..i])|
    ensures var front, event, emitted := events[..i], events[i], Emitted(initialSeq, events[..i]);
            && Consumed(initialSeq, events[..i + 1]) == Advance(Consumed(initialSeq, front), event)
            && TimerOps(events[..i + 1]) == TimerOps(front) + [RunTiming.Event(event)]
            && Emitted(initialSeq, events[..i + 1])
               == (if Forwards(event) then emitted + [RunEvent(seqNo + 1, event)] else emitted)
            && Delivered(sink, Emitted(initialSeq, events[..i + 1])) ==
                 (if Forwards(event) then Passed(Delivered(sink, emitted), RunEvent(seqNo + 1, event))
                  else Delivered(sink, emitted))
  {
    hide Advance, Delivered;
    assert events[..i + 1][..i] == events[..i] && events[..i + 1] == events[..i] + [events[i]];
    if Forwards(events[i]) {
      DeliveredSnoc(sink, Emitted(initialSeq, events[..i]), RunEvent(seqNo + 1, events[i]));
    }
  }

  /** What the loop has yet to see, after one more event. */
  lemma SeenSteps(initialSeq: int, events: seq<AgentEvent>, i: nat, seqNo: int, raises: int -> bool)
    requires i < |events|
    requires SeenEvents(initialSeq, events, raises) == events[..i] + SeenEvents(seqNo, events[i..], raises)
    ensures var event := events[i];
            var next := seqNo + if Forwards(event) then 1 else 0;
            if Forwards(event) && raises(seqNo + 1) then
              SeenEvents(initialSeq, events, raises) == events[..i + 1] && EmitRaises(seqNo, events[i..], raises)
            else
              && SeenEvents(initialSeq, events, raises) == events[..i + 1] + SeenEvents(next, events[i + 1..], raises)
              && EmitRaises(seqNo, events[i..], raises) == EmitRaises(next, events[i + 1..], raises)
  {
    assert events[..i + 1] == events[..i] + [events[i]];
    assert events[i..][1..] == events[i + 1..];
  }

  /** What follows from attempt `n` on, one attempt unfolded. */
  lemma OneAttempt(policy: Policy, attempts: nat -> Attempt, n: nat, initialSeq: int, sink: Fanout)
    ensures var a := attempts(n);
            var after := Delivered(sink, Emitted(initialSeq, a.events));
            if Retries(policy, a, n) then
              && Deciding(policy, attempts, n) == Deciding(policy, attempts, n + 1)
              && SinkThrough(policy, attempts, n, initialSeq, sink)
                 == SinkThrough(policy, attempts, n + 1, initialSeq, after)
              && AllTimerOps(policy, attempts, n) == TimerOps(a.events) + AllTimerOps(policy, attempts, n + 1)
            else
              && Deciding(policy, attempts, n) == n && SinkThrough(policy, attempts, n, initialSeq, sink) == after
              && AllTimerOps(policy, attempts, n) == TimerOps(a.events)
  {
    hide Retries, Delivered, Emitted, TimerOps;
  }

  /** The whole consumption: attempts are restarted from scratch while the retry
      rule allows, into the same sink, and the last one decides. */
  method ConsumeAgent(policy: Policy, attempts: nat -> Attempt, initialSeq: int, sink: FanoutSink, raises: int -> bool)
    returns (finish: Finish, ops: seq<RunTiming.Op>)
    modifies sink
    ensures var seen := AllSeen(initialSeq, attempts, raises);
            && finish == FinishOf(initialSeq, seen(Deciding(policy, seen, 1)))
            && sink.Value() == SinkThrough(policy, seen, 1, initialSeq, old(sink.Value()))
            && ops == AllTimerOps(policy, seen, 1)
  {
    hide Consumed, Emitted, TimerOps, ErrorAllowsRetry, Delivered;
    hide SeenEvents, EmitRaises, Deciding, SinkThrough, AllTimerOps;
    var attempt := 1;
    ops := [];
    ghost var seen := AllSeen(initialSeq, attempts, raises);
    while true
      invariant Deciding(policy, seen, 1) == Deciding(policy, seen, attempt)
      invariant SinkThrough(policy, seen, 1, initialSeq, old(sink.Value()))
             == SinkThrough(policy, seen, attempt, initialSeq, sink.Value())
      invariant AllTimerOps(policy, seen, 1) == ops + AllTimerOps(policy, seen, attempt)
      decreases policy.maxAttempts - attempt
    {
      var a := attempts(attempt);
      assert seen(attempt) == Seen(initialSeq, a, raises);
      OneAttempt(policy, seen, attempt, initialSeq, sink.Value());
      var p, raised, forwardedAny, more := ConsumeAttempt(initialSeq, a, sink, raises);
      SameFromAnyStart(initialSeq, 0, seen(attempt).events);
      assert ops + (more + AllTimerOps(policy, seen, attempt + 1))
          == (ops + more) + AllTimerOps(policy, seen, attempt + 1);
      ops := ops + more;
      if raised {
        return Crash, ops;
      }
      match a.ending {
        case StreamEnded =>
          return Finished(Outcome(Succeeded, p.transcript, p.seqNo, p.usage, p.requestId, None)), ops;
        case CancelSet =>
          return Finished(Outcome(Cancelled, WithPartial(p.transcript, p.pending), p.seqNo, None, None, None)), ops;
        case Crashed =>
          return Crash, ops;
        case ProviderFailed(code, retryable, cancelSet) =>
          var again := !forwardedAny && p.transcript == [] && attempt < policy.maxAttempts
            && CodeRetryable(policy, code) && ErrorAllowsRetry(code, retryable) && !cancelSet;
          if !again {
            return Finished(Outcome(Broken, WithPartial(p.transcript, p.pending), p.seqNo, None, None, Some(code))),
                ops;
          }
          attempt := attempt + 1;
      }
    }
  }

  /** Where the numbering starts affects nothing but the numbers. */
  lemma {:induction false} SameFromAnyStart(s: int, t: int, events: seq<AgentEvent>)
    ensures Consumed(s, events).transcript == Consumed(t, events).transcript
    ensures |Emitted(s, events)| == |Emitted(t, events)|
  {
    if events != [] {
      SameFromAnyStart(s, t, events[..|events| - 1]);
    }
  }

  // ------------------------------------------------------------ sequence numbers

  lemma {:induction false} NumbersAreContiguous(initialSeq: int, events: seq<AgentEvent>)
    ensures var emitted := Emitted(initialSeq, events);
      && (forall i :: 0 <= i < |emitted| ==> emitted[i].seqNo == initialSeq + 1 + i && Forwards(emitted[i].event))
      && Consumed(initialSeq, events).seqNo == initialSeq + |emitted|
  {
    if events != [] {
      hide Coalesced;
      NumbersAreContiguous(initialSeq, events[..|events| - 1]);
    }
  }

  /** Wherever the loop may be left, by the generator, a cancel or a raising emit, the
      sink's counter is the loop's. */
  lemma CountersAgree(initialSeq: int, events: seq<AgentEvent>)
    ensures var sink := Delivered(Fanout(initialSeq, []), Emitted(initialSeq, events));
            sink.latestSeq == Consumed(initialSeq, events).seqNo && sink.received == Emitted(initialSeq, events)
  {
    hide Consumed, Emitted;
    NumbersAreContiguous(initialSeq, events);
    DeliveredIsLast(Fanout(initialSeq, []), Emitted(initialSeq, events));
  }

  lemma {:induction false} DeliveredIsLast(sink: Fanout, emitted: seq<RunEvent>)
    ensures Delivered(sink, emitted).received == sink.received + emitted
    ensures Delivered(sink, emitted).latestSeq == if emitted == [] then sink.latestSeq else emitted[|emitted| - 1].seqNo
  {
    if emitted != [] {
      DeliveredIsLast(sink, emitted[..|emitted| - 1]);
    }
  }

  /** A retried attempt emitted nothing, so the sink is as new when the deciding one starts. */
  lemma {:induction false} RetriesLeaveTheSink(policy: Policy, attempts: nat -> Attempt, n: nat, initialSeq: int,
                                               sink: Fanout)
    ensures SinkThrough(policy, attempts, n, initialSeq, sink)
         == Delivered(sink, Emitted(initialSeq, attempts(Deciding(policy, attempts, n)).events))
    decreases policy.maxAttempts - n
  {
    hide Consumed, Emitted, Occurs;
    if Retries(policy, attempts(n), n) {
      SameFromAnyStart(initialSeq, 0, attempts(n).events);
      RetriesLeaveTheSink(policy, attempts, n + 1, initialSeq, sink);
    }
  }

  /** The number the terminal event gets: the finalizer follows the outcome's last
      number; a crash of the consumer, or of the flush after it, follows the sink's. */
  function TerminalSeq(finish: Finish, sink: Fanout, flushRaises: bool): int {
    if finish.Finished? && !flushRaises then finish.outcome.lastSeq + 1 else sink.latestSeq + 1
  }

  /** Over all attempts together the sink receives exactly the numbers initial+1,
      initial+2, ... with no gap or repeat, and the terminal event takes the next one:
      on the normal path, when the generator or an emit raises, and when the closing
      flush raises. */
  lemma SequenceNumbersAreGapless(policy: Policy, attempts: nat -> Attempt, initialSeq: int, flushRaises: bool)
    ensures var sink := SinkThrough(policy, attempts, 1, initialSeq, Fanout(initialSeq, []));
            var finish := FinishOf(initialSeq, attempts(Deciding(policy, attempts, 1)));
            && (forall i :: 0 <= i < |sink.received| ==> sink.received[i].seqNo == initialSeq + 1 + i)
            && TerminalSeq(finish, sink, flushRaises) == initialSeq + |sink.received| + 1
  {
    hide Consumed, Emitted, SinkThrough, Delivered;
    var a := attempts(Deciding(policy, attempts, 1));
    RetriesLeaveTheSink(policy, attempts, 1, initialSeq, Fanout(initialSeq, []));
    CountersAgree(initialSeq, a.events);
    NumbersAreContiguous(initialSeq, a.events);
  }

  /** The run from a new sink to the number of its terminal event. An agent that cannot
      be built emits nothing and ends at the first number. */
  method ExecuteRun(built: bool, policy: Policy, attempts: nat -> Attempt, initialSeq: int, raises: int -> bool,
                    flushRaises: bool)
    returns (terminalSeq: int, received: seq<RunEvent>)
    ensures var seen := AllSeen(initialSeq, attempts, raises);
            received == if built then Emitted(initialSeq, seen(Deciding(policy, seen, 1)).events) else []
    ensures forall i :: 0 <= i < |received| ==> received[i].seqNo == initialSeq + 1 + i
    ensures terminalSeq == initialSeq + |received| + 1
  {
    hide Consumed, Emitted, SinkThrough, Delivered, Deciding, FinishOf, AllTimerOps;
    if !built {
      return initialSeq + 1, [];
    }
    ghost var seen := AllSeen(initialSeq, attempts, raises);
    var sink := new FanoutSink(initialSeq);
    var finish, _ := ConsumeAgent(policy, attempts, initialSeq, sink, raises);
    SequenceNumbersAreGapless(policy, seen, initialSeq, flushRaises);
    RetriesLeaveTheSink(policy, seen, 1, initialSeq, Fanout(initialSeq, []));
    CountersAgree(initialSeq, seen(Deciding(policy, seen, 1)).events);
    received := sink.received;
    if finish.Crash? || flushRaises {
      terminalSeq := sink.latestSeq + 1;
    } else {
      terminalSeq := finish.outcome.lastSeq + 1;
    }
  }

  // ------------------------------------------------------------ nothing is lost

  function Payloads(emitted: seq<RunEvent>): seq<AgentEvent> {
    if emitted == [] then [] else Payloads(emitted[..|emitted| - 1]) + [emitted[|emitted| - 1].event]
  }

  /** What the sink was shown on one channel. */
  function SinkShown(emitted: seq<RunEvent>, channel: Channel): string {
    Shown(Payloads(emitted), channel)
  }

  lemma EmittedSnoc(initialSeq: int, events: seq<AgentEvent>, channel: Channel)
    requires events != []
    ensures var front, last := events[..|events| - 1], events[|events| - 1];
      SinkShown(Emitted(initialSeq, events), channel)
        == SinkShown(Emitted(initialSeq, front), channel) + EventContent(last, channel)
  {
    hide Shown;
    var front, last := events[..|events| - 1], events[|events| - 1];
    var emitted := Emitted(initialSeq, front);
    if Forwards(last) {
      var one := RunEvent(initialSeq + |emitted| + 1, last);
      assert (emitted + [one])[..|emitted|] == emitted;
      ShownSnoc(Payloads(emitted), last, channel);
    }
  }

  /** What a consumed event adds to the transcript and the partial message. */
  lemma AdvanceContent(p: Progress, event: AgentEvent, channel: Channel)
    ensures event.MessageDone? ==>
      && Content(Advance(p, event).pending, channel) == ""
      && Spoken(Advance(p, event).transcript, channel) == Spoken(p.transcript, channel)
           + (if event.message.role == Assistant then Content(event.message.blocks, channel) else "")
    ensures !event.MessageDone? ==>
      && Advance(p, event).transcript == p.transcript
      && Content(Advance(p, event).pending, channel) == Content(p.pending, channel) + EventContent(event, channel)
  {
    hide Spoken, Coalesced;
    match event
    case MessageDone(m) => SpokenSnoc(p.transcript, m, channel);
    case AgentText(text) => CoalescedContent(p.pending, Text(text), channel);
    case AgentReasoning(text, kind) => CoalescedContent(p.pending, Reasoning(text, kind), channel);
    case _ =>
  }

  lemma SinceDoneSnoc(events: seq<AgentEvent>, channel: Channel)
    requires events != []
    ensures var front, last := events[..|events| - 1], events[|events| - 1];
      Shown(SinceDone(events), channel)
        == if last.MessageDone? then "" else Shown(SinceDone(front), channel) + EventContent(last, channel)
  {
    var front, last := events[..|events| - 1], events[|events| - 1];
    ShownSnoc(SinceDone(front), last, channel);
  }

  /** The bookkeeping of one consumed event, over the texts alone. */
  lemma StepBalances(sunk: string, spoken: string, pending: string, shown: string, done: bool,
                     sunk': string, spoken': string, pending': string)
    requires sunk == spoken + pending && sunk' == sunk + shown
    requires done ==> shown == "" && pending' == "" && spoken' == spoken + pending
    requires !done ==> spoken' == spoken && pending' == pending + shown
    ensures sunk' == spoken' + pending'
  {
    assert (spoken + pending) + shown == spoken + (pending + shown);
  }

  /** At every point of a faithful stream: what the sink has shown is what the
      transcript says plus the partial message. */
  lemma {:induction false} ShownIsSpokenPlusPending(initialSeq: int, events: seq<AgentEvent>, channel: Channel)
    requires Faithful(events)
    ensures var p := Consumed(initialSeq, events);
      && SinkShown(Emitted(initialSeq, events), channel) == Spoken(p.transcript, channel) + Content(p.pending, channel)
      && Content(p.pending, channel) == Shown(SinceDone(events), channel)
  {
    if events != [] {
      hide Spoken, Content, Advance, Shown, SinceDone, Emitted, SinkShown, EventContent;
      var front, last := events[..|events| - 1], events[|events| - 1];
      ShownIsSpokenPlusPending(initialSeq, front, channel);
      EmittedSnoc(initialSeq, events, channel);
      var p := Consumed(initialSeq, front);
      AdvanceContent(p, last, channel);
      SinceDoneSnoc(events, channel);
      if last.MessageDone? {
        DoneShowsNothing(last, channel);
      }
      StepBalances(SinkShown(Emitted(initialSeq, front), channel), Spoken(p.transcript, channel),
                   Content(p.pending, channel), EventContent(last, channel), last.MessageDone?,
                   SinkShown(Emitted(initialSeq, events), channel), Spoken(Advance(p, last).transcript, channel),
                   Content(Advance(p, last).pending, channel));
    }
  }

  lemma DoneShowsNothing(event: AgentEvent, channel: Channel)
    requires event.MessageDone?
    ensures EventContent(event, channel) == ""
  {
  }

  lemma WithPartialSpeaks(transcript: seq<Message>, pending: seq<Block>, channel: Channel)
    ensures Spoken(WithPartial(transcript, pending), channel) == Spoken(transcript, channel) + Content(pending, channel)
  {
    hide Spoken;
    if pending != [] {
      SpokenSnoc(transcript, Message(Assistant, pending), channel);
    }
  }

  /** An attempt that watches a run of the agent loop: all of it when it ends
      normally or on a provider error, any beginning of it otherwise. */
  ghost predicate Watches(a: Attempt, loop: Loop) {
    match a.ending
    case StreamEnded => a.events == loop.events && loop.end == Some(Completed)
    case ProviderFailed(code, _, _) => a.events == loop.events && loop.end == Some(Failed(code))
    case CancelSet => a.events <= loop.events
    case Crashed => a.events <= loop.events
  }

  lemma {:induction false} SeenIsPrefix(seqNo: int, events: seq<AgentEvent>, raises: int -> bool)
    ensures SeenEvents(seqNo, events, raises) <= events
    ensures !EmitRaises(seqNo, events, raises) ==> SeenEvents(seqNo, events, raises) == events
    decreases |events|
  {
    if events != [] {
      SeenIsPrefix(if Forwards(events[0]) then seqNo + 1 else seqNo, events[1..], raises);
    }
  }

  /** Watching through a sink that may raise is still watching the same agent loop. */
  lemma SeenWatches(initialSeq: int, a: Attempt, raises: int -> bool, loop: Loop)
    requires Watches(a, loop)
    ensures Watches(Seen(initialSeq, a, raises), loop)
  {
    hide SeenEvents, EmitRaises;
    SeenIsPrefix(initialSeq, a.events, raises);
  }

  lemma WatchedIsFaithful(a: Attempt, loop: Loop)
    requires Watches(a, loop) && Settled(loop)
    ensures Faithful(a.events)
    ensures a.ending.StreamEnded? ==> forall channel :: Shown(SinceDone(a.events), channel) == ""
  {
    PrefixFaithful(loop.events, |a.events|);
    assert loop.events[..|a.events|] == a.events;
  }

  /** From the provider's raw streams to the finalized outcome, for every tool
      behaviour and every cancel, failure or retry point: on each channel the text
      forwarded to the sink is the text of the outcome's assistant messages, the
      partial one included. */
  lemma ForwardedTextIsTranscriptText(
      policy: Policy, attempts: nat -> Attempt, initialSeq: int, channel: Channel,
      messages: seq<Message>, scripts: seq<Script>, cfg: ToolBatch.Config, tools: Tools)
    requires Watches(attempts(Deciding(policy, attempts, 1)), Stream(messages, scripts, cfg, tools))
    ensures var a := attempts(Deciding(policy, attempts, 1));
      FinishOf(initialSeq, a).Finished? ==>
        SinkShown(Emitted(initialSeq, a.events), channel)
          == Spoken(FinishOf(initialSeq, a).outcome.transcript, channel)
  {
    hide Stream, Consumed, Emitted, SinkShown, Spoken, Content, Shown, SinceDone, Faithful, WithPartial;
    var a := attempts(Deciding(policy, attempts, 1));
    var loop := Stream(messages, scripts, cfg, tools);
    StreamIsFaithful(messages, scripts, cfg, tools);
    WatchedIsFaithful(a, loop);
    ShownIsSpokenPlusPending(initialSeq, a.events, channel);
    var p := Consumed(initialSeq, a.events);
    WithPartialSpeaks(p.transcript, p.pending, channel);
    assert Spoken(p.transcript, channel) + "" == Spoken(p.transcript, channel);
  }

  // ------------------------------------------------------------- final answer

  function DoneMessages(events: seq<AgentEvent>): seq<Message> {
    if events == [] then []
    else
      var front := DoneMessages(events[..|events| - 1]);
      if events[|events| - 1].MessageDone? then front + [events[|events| - 1].message] else front
  }

  lemma {:induction false} TranscriptIsDoneMessages(initialSeq: int, events: seq<AgentEvent>)
    ensures Consumed(initialSeq, events).transcript == DoneMessages(events)
  {
    if events != [] {
      TranscriptIsDoneMessages(initialSeq, events[..|events| - 1]);
    }
  }

  // ------------------------------------------------------------- outcomes by ending

  /** The usage and request id of the last final event, if there was one. */
  function LastFinal(events: seq<AgentEvent>): (Option<string>, Option<string>) {
    if events == [] then (None, None)
    else if events[|events| - 1].AgentFinal? then (events[|events| - 1].usage, events[|events| - 1].requestId)
    else LastFinal(events[..|events| - 1])
  }

  /** The delivered events that are neither completed messages nor final events. */
  function Forwarded(events: seq<AgentEvent>): seq<AgentEvent> {
    if events == [] then []
    else
      var front, last := Forwarded(events[..|events| - 1]), events[|events| - 1];
      if last.MessageDone? || last.AgentFinal? then front else front + [last]
  }

  lemma {:induction false} ConsumedIsDelivered(initialSeq: int, events: seq<AgentEvent>)
    ensures var p := Consumed(initialSeq, events);
            && (p.usage, p.requestId) == LastFinal(events) && p.seqNo == initialSeq + |Forwarded(events)|
            && Payloads(Emitted(initialSeq, events)) == Forwarded(events)
  {
    hide Coalesced;
    if events != [] {
      var front, last := events[..|events| - 1], events[|events| - 1];
      ConsumedIsDelivered(initialSeq, front);
      if Forwards(last) {
        PayloadsSnoc(Emitted(initialSeq, front), RunEvent(initialSeq + |Emitted(initialSeq, front)| + 1, last));
      }
    }
  }

  lemma PayloadsSnoc(emitted: seq<RunEvent>, e: RunEvent)
    ensures Payloads(emitted + [e]) == Payloads(emitted) + [e.event]
  {
    assert (emitted + [e])[..|emitted|] == emitted;
  }

  /** What an attempt ends in, told by the events it delivered: a normal end succeeds with
      the completed messages and the last final event's usage and request id; a cancel is
      cancelled and a provider error fails with its code, both with the partial message
      behind the completed ones; any other exception leaves no outcome. */
  lemma OutcomesByEnding(initialSeq: int, a: Attempt)
    ensures var finish, done := FinishOf(initialSeq, a), DoneMessages(a.events);
            var last := initialSeq + |Forwarded(a.events)|;
            var pending := Consumed(initialSeq, a.events).pending;
            var partial := done + if pending == [] then [] else [Message(Assistant, pending)];
            match a.ending
            case StreamEnded =>
              finish == Finished(Outcome(Succeeded, done, last, LastFinal(a.events).0, LastFinal(a.events).1, None))
            case CancelSet => finish == Finished(Outcome(Cancelled, partial, last, None, None, None))
            case ProviderFailed(code, _, _) =>
              finish == Finished(Outcome(Broken, partial, last, None, None, Some(code)))
            case Crashed => finish == Crash
  {
    hide Consumed, Forwarded, LastFinal, DoneMessages, Emitted, Payloads;
    ConsumedIsDelivered(initialSeq, a.events);
    TranscriptIsDoneMessages(initialSeq, a.events);
  }

  lemma {:induction false} NothingDelivered(events: seq<AgentEvent>)
    ensures Emitted(0, events) == [] && Consumed(0, events).transcript == [] <==>
            forall i :: 0 <= i < |events| ==> events[i].AgentFinal?
  {
    hide Coalesced;
    if events != [] {
      var n := |events| - 1;
      NothingDelivered(events[..n]);
      assert (forall i :: 0 <= i < |events| ==> events[i].AgentFinal?) <==>
             (forall i :: 0 <= i < n ==> events[..n][i].AgentFinal?) && events[n].AgentFinal? by {
        assert forall i :: 0 <= i < n ==> events[..n][i] == events[i];
      }
    }
  }

  /** The whole loop is restarted exactly after a provider error that came before any
      delta, tool event or completed message, with attempts left, a code the policy and
      the adapter allow, and no cancel. */
  lemma RetriesExactly(policy: Policy, a: Attempt, n: nat)
    ensures Retries(policy, a, n) <==>
              && a.ending.ProviderFailed? && !a.ending.cancelSet && n < policy.maxAttempts
              && (forall i :: 0 <= i < |a.events| ==> a.events[i].AgentFinal?)
              && (policy.retryableCodes.Some? ==> a.ending.code in policy.retryableCodes.value)
              && a.ending.code != "openrouter_continuation_incompatible"
              && (Occurs(a.ending.code, "image_input") ==> a.ending.retryable)
  {
    hide Emitted, Consumed, Occurs;
    NothingDelivered(a.events);
  }
}
