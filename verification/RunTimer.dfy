/** Run timing: every instant between the execution start and the terminal write
    belongs to exactly one phase. */
module RunTiming {
  import opened Prelude
  import opened Messages

  datatype Phase = Preparing | ModelWait | Thinking | Tool | Answering | Finalizing

  /** Milliseconds credited to each phase. */
  datatype Durations = Durations(
    preparing: int, modelWait: int, thinking: int, tool: int, answering: int, finalizing: int)

  const NO_TIME := Durations(0, 0, 0, 0, 0, 0)

  function Credit(d: Durations, phase: Phase, ms: int): (r: Durations)
    ensures Total(r) == Total(d) + ms
    ensures NonNegative(d) && ms >= 0 ==> NonNegative(r)
  {
    match phase
    case Preparing => d.(preparing := d.preparing + ms)
    case ModelWait => d.(modelWait := d.modelWait + ms)
    case Thinking => d.(thinking := d.thinking + ms)
    case Tool => d.(tool := d.tool + ms)
    case Answering => d.(answering := d.answering + ms)
    case Finalizing => d.(finalizing := d.finalizing + ms)
  }

  function Total(d: Durations): int {
    d.preparing + d.modelWait + d.thinking + d.tool + d.answering + d.finalizing
  }

  predicate NonNegative(d: Durations) {
    d.preparing >= 0 && d.modelWait >= 0 && d.thinking >= 0 && d.tool >= 0 && d.answering >= 0 && d.finalizing >= 0
  }

  datatype ToolTime = ToolTime(name: string, ms: nat, ok: bool)

  datatype Timing = Timing(
    executionMs: int,
    workMs: Option<int>,
    ttftMs: Option<int>,
    phases: Durations,
    modelCalls: nat,
    attempts: nat,
    tools: seq<ToolTime>)

  datatype Timer = Timer(
    start: real,
    phase: Phase,
    phaseMark: int,
    durations: Durations,
    modelCalls: nat,
    attempts: nat,
    ttftMs: Option<int>,
    firstTextMs: map<nat, int>,
    tools: seq<ToolTime>)

  /** Rounding to the nearest integer, ties to the even one. */
  function Round(x: real): int {
    var floor := x.Floor;
    var rest := x - floor as real;
    if rest < 0.5 || (rest == 0.5 && floor % 2 == 0) then floor else floor + 1
  }

  function NowMs(start: real, clock: real): int {
    Round((clock - start) * 1000.0)
  }

  function NewTimer(clock: real): Timer {
    Timer(clock, Preparing, 0, NO_TIME, 0, 0, None, map[], [])
  }

  function Switch(t: Timer, phase: Phase, now: int): Timer
  {
    if phase == t.phase then t
    else t.(durations := Credit(t.durations, t.phase, now - t.phaseMark),
            phase := phase, phaseMark := now)
  }

  function Started(t: Timer, now: int): Timer
  {
    var u := Switch(t, ModelWait, now);
    u.(attempts := u.attempts + 1, modelCalls := if u.attempts == 0 then 1 else u.modelCalls)
  }

  function Observed(t: Timer, event: AgentEvent, now: int): Timer
  {
    match event
    case AgentText(_) =>
      var u := Switch(t, Answering, now);
      u.(ttftMs := if u.ttftMs.None? then Some(now) else u.ttftMs,
         firstTextMs := if u.modelCalls in u.firstTextMs then u.firstTextMs else u.firstTextMs[u.modelCalls := now])
    case AgentReasoning(_, _) =>
      var u := Switch(t, Thinking, now);
      u.(ttftMs := if u.ttftMs.None? then Some(now) else u.ttftMs)
    case ToolStarted(_, _, _) => Switch(t, Tool, now)
    case ToolFinished(name, isError, _, elapsed, _) =>
      var u := Switch(t, ModelWait, now);
      u.(tools := u.tools + [ToolTime(name, if elapsed.Some? then elapsed.value else 0, !isError)])
    case MessageDone(m) =>
      if m.role == User then
        var u := Switch(t, ModelWait, now);
        u.(modelCalls := u.modelCalls + 1)
      else t
    case AgentFinal(_, _) => t
  }

  function Closed(t: Timer, now: int): Timer
  {
    t.(durations := Credit(t.durations, t.phase, now - t.phaseMark), phaseMark := now)
  }

  function Report(t: Timer, now: int): Timing
  {
    var work := if t.modelCalls > 0 && t.modelCalls in t.firstTextMs then Some(t.firstTextMs[t.modelCalls]) else None;
    Timing(now, work, t.ttftMs, Closed(t, now).durations, t.modelCalls, t.attempts, t.tools)
  }

  class RunTimer {
    const start: real
    var phase: Phase
    var phaseMark: int
    var durations: Durations
    var modelCalls: nat
    var attempts: nat
    var ttftMs: Option<int>
    var firstTextMs: map<nat, int>
    var tools: seq<ToolTime>

    function Value(): Timer
      reads this
    {
      Timer(start, phase, phaseMark, durations, modelCalls, attempts, ttftMs, firstTextMs, tools)
    }

    constructor (clock: real)
      ensures Value() == NewTimer(clock)
    {
      start := clock;
      phase, phaseMark := Preparing, 0;
      durations := NO_TIME;
      modelCalls, attempts, ttftMs, firstTextMs, tools := 0, 0, None, map[], [];
    }

    method SwitchTo(next: Phase, clock: real) returns (now: int)
      modifies this`phase, this`phaseMark, this`durations
      ensures now == NowMs(start, clock)
      ensures Value() == Switch(old(Value()), next, now)
    {
      now := NowMs(start, clock);
      if next != phase {
        durations := Credit(durations, phase, now - phaseMark);
        phase := next;
        phaseMark := now;
      }
    }

    method StreamStarted(clock: real)
      modifies this
      ensures Value() == Started(old(Value()), NowMs(start, clock))
    {
      var _ := SwitchTo(ModelWait, clock);
      attempts := attempts + 1;
      if attempts == 1 {
        modelCalls := 1;
      }
    }

    method Observe(event: AgentEvent, clock: real)
      modifies this
      ensures Value() == Observed(old(Value()), event, NowMs(start, clock))
    {
      if event.AgentText? || event.AgentReasoning? {
        var now := SwitchTo(if event.AgentText? then Answering else Thinking, clock);
        if ttftMs.None? {
          ttftMs := Some(now);
        }
        if event.AgentText? && modelCalls !in firstTextMs {
          firstTextMs := firstTextMs[modelCalls := now];
        }
      } else if event.ToolStarted? {
        var _ := SwitchTo(Tool, clock);
      } else if event.ToolFinished? {
        var _ := SwitchTo(ModelWait, clock);
        tools := tools
            + [ToolTime(event.name, if event.elapsedMs.Some? then event.elapsedMs.value else 0, !event.isError)];
      } else if event.MessageDone? && event.message.role == User {
        var _ := SwitchTo(ModelWait, clock);
        modelCalls := modelCalls + 1;
      }
    }

    method StreamEnded(clock: real)
      modifies this
      ensures Value() == Switch(old(Value()), Finalizing, NowMs(start, clock))
    {
      var _ := SwitchTo(Finalizing, clock);
    }

    method Finish(clock: real) returns (timing: Timing)
      modifies this
      ensures Value() == Closed(old(Value()), NowMs(start, clock))
      ensures timing == Report(old(Value()), NowMs(start, clock))
    {
      var executionMs := SwitchTo(phase, clock);
      durations := Credit(durations, phase, executionMs - phaseMark);
      phaseMark := executionMs;
      var workMs: Option<int> := None;
      if modelCalls > 0 && modelCalls in firstTextMs {
        workMs := Some(firstTextMs[modelCalls]);
      }
      timing := Timing(executionMs, workMs, ttftMs, durations, modelCalls, attempts, tools);
    }
  }

  // ------------------------------------------------------------------ whole runs

  datatype Op = StreamStart | Event(event: AgentEvent) | StreamEnd | Close

  /** One call on the timer and the clock reading it makes. */
  datatype Tick = Tick(op: Op, clock: real)

  function Apply(t: Timer, tick: Tick): Timer
  {
    var now := NowMs(t.start, tick.clock);
    match tick.op
    case StreamStart => Started(t, now)
    case Event(e) => Observed(t, e, now)
    case StreamEnd => Switch(t, Finalizing, now)
    case Close => Closed(t, now)
  }

  function RunTicks(start: real, ticks: seq<Tick>): (t: Timer)
    ensures t.start == start
  {
    if ticks == [] then NewTimer(start) else Apply(RunTicks(start, ticks[..|ticks| - 1]), ticks[|ticks| - 1])
  }

  /** Clock readings never go back, and none precedes the start. */
  ghost predicate Monotonic(start: real, ticks: seq<Tick>) {
    && (forall i :: 0 <= i < |ticks| ==> start <= ticks[i].clock)
    && (forall i, j :: 0 <= i < j < |ticks| ==> ticks[i].clock <= ticks[j].clock)
  }

  lemma RoundMonotone(x: real, y: real)
    requires x <= y
    ensures Round(x) <= Round(y)
  {
    if x.Floor < y.Floor {
      assert Round(x) <= x.Floor + 1 <= y.Floor <= Round(y);
    }
  }

  lemma NowMonotone(start: real, earlier: real, later: real)
    requires earlier <= later
    ensures NowMs(start, earlier) <= NowMs(start, later)
    ensures NowMs(start, start) == 0
  {
    RoundMonotone((earlier - start) * 1000.0, (later - start) * 1000.0);
  }

  ghost predicate TimerInv(t: Timer, now: int) {
    && NonNegative(t.durations)
    && Total(t.durations) == t.phaseMark
    && 0 <= t.phaseMark <= now
    && (t.ttftMs.Some? ==> t.ttftMs.value <= now)
    && (t.firstTextMs != map[] ==> t.ttftMs.Some?)
    && (forall c :: c in t.firstTextMs ==> t.ttftMs.value <= t.firstTextMs[c] <= now)
  }

  lemma SwitchKeeps(t: Timer, phase: Phase, since: int, now: int)
    requires TimerInv(t, since) && since <= now
    ensures TimerInv(Switch(t, phase, now), now) && TimerInv(Closed(t, now), now)
  {
  }

  lemma ApplyKeeps(t: Timer, tick: Tick, since: int)
    requires TimerInv(t, since) && since <= NowMs(t.start, tick.clock)
    ensures TimerInv(Apply(t, tick), NowMs(t.start, tick.clock))
  {
    hide Total, NowMs, Credit, NonNegative;
    var now := NowMs(t.start, tick.clock);
    SwitchKeeps(t, ModelWait, since, now);
    SwitchKeeps(t, Thinking, since, now);
    SwitchKeeps(t, Tool, since, now);
    SwitchKeeps(t, Answering, since, now);
    SwitchKeeps(t, Finalizing, since, now);
  }

  function LastClock(start: real, ticks: seq<Tick>): real {
    if ticks == [] then start else ticks[|ticks| - 1].clock
  }

  lemma {:induction false} TicksKeepInv(start: real, ticks: seq<Tick>)
    requires Monotonic(start, ticks)
    ensures TimerInv(RunTicks(start, ticks), NowMs(start, LastClock(start, ticks)))
  {
    hide Apply, NowMs;
    if ticks == [] {
      NowMonotone(start, start, start);
    } else {
      var before, tick := ticks[..|ticks| - 1], ticks[|ticks| - 1];
      TicksKeepInv(start, before);
      NowMonotone(start, LastClock(start, before), tick.clock);
      ApplyKeeps(RunTicks(start, before), tick, NowMs(start, LastClock(start, before)));
    }
  }

  /** Whatever the event sequence, a closing report partitions the execution time
      exactly, and orders first token, final answer and end. */
  lemma ReportPartitionsExecution(start: real, ticks: seq<Tick>, clock: real)
    requires Monotonic(start, ticks + [Tick(Close, clock)])
    ensures var timing := Report(RunTicks(start, ticks), NowMs(start, clock));
      && NonNegative(timing.phases)
      && Total(timing.phases) == timing.executionMs
      && (timing.workMs.Some? ==>
          timing.ttftMs.Some? && timing.ttftMs.value <= timing.workMs.value <= timing.executionMs)
  {
    var all := ticks + [Tick(Close, clock)];
    assert forall i :: 0 <= i < |ticks| ==> all[i] == ticks[i];
    assert all[|ticks|] == Tick(Close, clock);
    TicksKeepInv(start, ticks);
    NowMonotone(start, LastClock(start, ticks), clock);
    ApplyKeeps(RunTicks(start, ticks), Tick(Close, clock), NowMs(start, LastClock(start, ticks)));
  }

  // ------------------------------------------------------------- call counting

  function OpsOf(ticks: seq<Tick>): seq<Op> {
    if ticks == [] then [] else OpsOf(ticks[..|ticks| - 1]) + [ticks[|ticks| - 1].op]
  }

  /** Attempts and model calls counted by a sequence of timer calls. */
  datatype Count = Count(attempts: nat, calls: nat)

  function Count1(c: Count, op: Op): Count {
    match op
    case StreamStart => Count(c.attempts + 1, if c.attempts == 0 then 1 else c.calls)
    case Event(MessageDone(m)) => if m.role == User then c.(calls := c.calls + 1) else c
    case _ => c
  }

  function CountFrom(c: Count, ops: seq<Op>): Count {
    if ops == [] then c else Count1(CountFrom(c, ops[..|ops| - 1]), ops[|ops| - 1])
  }

  lemma CountSnoc(c: Count, ops: seq<Op>, op: Op)
    ensures CountFrom(c, ops + [op]) == Count1(CountFrom(c, ops), op)
  {
    assert (ops + [op])[..|ops|] == ops;
  }

  lemma ApplyCounts(t: Timer, tick: Tick)
    ensures var u := Apply(t, tick);
      Count(u.attempts, u.modelCalls) == Count1(Count(t.attempts, t.modelCalls), tick.op)
  {
    hide NowMs, Credit;
  }

  lemma {:induction false} TimerCounts(start: real, ticks: seq<Tick>)
    ensures var t := RunTicks(start, ticks);
      CountFrom(Count(0, 0), OpsOf(ticks)) == Count(t.attempts, t.modelCalls)
  {
    if ticks != [] {
      hide Apply, CountFrom;
      var front, last := ticks[..|ticks| - 1], ticks[|ticks| - 1];
      TimerCounts(start, front);
      ApplyCounts(RunTicks(start, front), last);
      CountSnoc(Count(0, 0), OpsOf(front), last.op);
    }
  }

  lemma {:induction false} CountConcat(c: Count, a: seq<Op>, b: seq<Op>)
    ensures CountFrom(c, a + b) == CountFrom(CountFrom(c, a), b)
  {
    if b == [] {
      assert a + b == a;
    } else {
      hide Count1;
      CountConcat(c, a, b[..|b| - 1]);
      assert (a + b)[..|a + b| - 1] == a + b[..|b| - 1];
    }
  }

  // ------------------------------------------------------- what the report is made of

  /** The phase an operation opens, if it opens one. */
  function Opens(op: Op): Option<Phase> {
    match op
    case StreamStart => Some(ModelWait)
    case StreamEnd => Some(Finalizing)
    case Close => None
    case Event(e) =>
      if e.AgentText? then Some(Answering)
      else if e.AgentReasoning? then Some(Thinking)
      else if e.ToolStarted? then Some(Tool)
      else if e.ToolFinished? || (e.MessageDone? && e.message.role == User) then Some(ModelWait)
      else None
  }

  /** The phase opened last; a run starts out preparing. */
  function PhaseAfter(ticks: seq<Tick>): Phase {
    if ticks == [] then Preparing
    else
      var newest := Opens(ticks[|ticks| - 1].op);
      if newest.Some? then newest.value else PhaseAfter(ticks[..|ticks| - 1])
  }

  /** The time between clock readings during which a phase was the open one. */
  function Spent(start: real, ticks: seq<Tick>, phase: Phase): int {
    if ticks == [] then 0
    else
      var front, last := ticks[..|ticks| - 1], ticks[|ticks| - 1];
      Spent(start, front, phase)
      + if PhaseAfter(front) == phase then NowMs(start, last.clock) - NowMs(start, LastClock(start, front)) else 0
  }

  function Of(d: Durations, phase: Phase): int {
    match phase
    case Preparing => d.preparing
    case ModelWait => d.modelWait
    case Thinking => d.thinking
    case Tool => d.tool
    case Answering => d.answering
    case Finalizing => d.finalizing
  }

  lemma CreditGoesTo(d: Durations, phase: Phase, ms: int, p: Phase)
    ensures Of(Credit(d, phase, ms), p) == Of(d, p) + if p == phase then ms else 0
  {
  }

  lemma ApplyOpens(t: Timer, tick: Tick)
    ensures Apply(t, tick).phase == if Opens(tick.op).Some? then Opens(tick.op).value else t.phase
  {
    hide NowMs, Credit;
  }

  /** Credited time plus the running interval, after one more operation. */
  lemma ApplyCredits(t: Timer, tick: Tick, p: Phase)
    ensures var now := NowMs(t.start, tick.clock); Running(Apply(t, tick), now, p) == Running(t, now, p)
  {
    hide NowMs, Credit, Of, Switch, Closed;
    var now := NowMs(t.start, tick.clock);
    SwitchCredits(t, ModelWait, now, p);
    SwitchCredits(t, Thinking, now, p);
    SwitchCredits(t, Tool, now, p);
    SwitchCredits(t, Answering, now, p);
    SwitchCredits(t, Finalizing, now, p);
  }

  lemma SwitchCredits(t: Timer, next: Phase, now: int, p: Phase)
    ensures Running(Switch(t, next, now), now, p) == Running(t, now, p)
    ensures Running(Closed(t, now), now, p) == Running(t, now, p)
  {
    hide Credit;
    CreditGoesTo(t.durations, t.phase, now - t.phaseMark, p);
    hide Of;
  }

  /** What is credited to a phase, with the interval still running. */
  function Running(t: Timer, now: int, p: Phase): int {
    Of(t.durations, p) + if t.phase == p then now - t.phaseMark else 0
  }

  lemma {:induction false} TicksCredit(start: real, ticks: seq<Tick>, p: Phase)
    ensures var t := RunTicks(start, ticks);
            && t.phase == PhaseAfter(ticks)
            && Of(t.durations, p) + (if t.phase == p then NowMs(start, LastClock(start, ticks)) - t.phaseMark else 0)
                 == Spent(start, ticks, p)
  {
    hide Apply, NowMs, Of;
    if ticks == [] {
      NowMonotone(start, start, start);
      NothingCredited(p);
    } else {
      var front, last := ticks[..|ticks| - 1], ticks[|ticks| - 1];
      TicksCredit(start, front, p);
      ApplyOpens(RunTicks(start, front), last);
      ApplyCredits(RunTicks(start, front), last, p);
    }
  }

  lemma NothingCredited(p: Phase)
    ensures Of(NO_TIME, p) == 0
  {
  }

  /** Each phase is reported exactly the time during which it was the one opened last. */
  lemma PhasesAreCreditedTheirTime(start: real, ticks: seq<Tick>, clock: real, p: Phase)
    ensures var timing := Report(RunTicks(start, ticks), NowMs(start, clock));
            Of(timing.phases, p) == Spent(start, ticks + [Tick(Close, clock)], p)
  {
    hide NowMs, Of, Credit, RunTicks, Spent, PhaseAfter, LastClock;
    var t := RunTicks(start, ticks);
    TicksCredit(start, ticks, p);
    CreditGoesTo(t.durations, t.phase, NowMs(start, clock) - t.phaseMark, p);
    SpentUpTo(start, ticks, Tick(Close, clock), p);
  }

  lemma SpentUpTo(start: real, ticks: seq<Tick>, tick: Tick, p: Phase)
    ensures Spent(start, ticks + [tick], p) == Spent(start, ticks, p)
              + if PhaseAfter(ticks) == p then NowMs(start, tick.clock) - NowMs(start, LastClock(start, ticks)) else 0
  {
    hide NowMs, PhaseAfter, LastClock;
    assert (ticks + [tick])[..|ticks|] == ticks;
  }

  predicate Speaks(op: Op) {
    op.Event? && (op.event.AgentText? || op.event.AgentReasoning?)
  }

  /** When the first text or reasoning arrived. */
  function FirstSpoken(start: real, ticks: seq<Tick>): Option<int> {
    if ticks == [] then None
    else
      var front, last := FirstSpoken(start, ticks[..|ticks| - 1]), ticks[|ticks| - 1];
      if front.None? && Speaks(last.op) then Some(NowMs(start, last.clock)) else front
  }

  function CallsSoFar(ticks: seq<Tick>): nat {
    CountFrom(Count(0, 0), OpsOf(ticks)).calls
  }

  /** When the answer text of model call `c` began. */
  function FirstText(start: real, ticks: seq<Tick>, c: nat): Option<int> {
    if ticks == [] then None
    else
      var front, last := ticks[..|ticks| - 1], ticks[|ticks| - 1];
      var earlier := FirstText(start, front, c);
      if earlier.None? && last.op.Event? && last.op.event.AgentText? && CallsSoFar(front) == c
      then Some(NowMs(start, last.clock)) else earlier
  }

  function TimeOf(e: AgentEvent): ToolTime
    requires e.ToolFinished?
  {
    ToolTime(e.name, if e.elapsedMs.Some? then e.elapsedMs.value else 0, !e.isError)
  }

  /** The finished tool calls, with their own durations and whether they succeeded. */
  function ToolTimes(ticks: seq<Tick>): seq<ToolTime> {
    if ticks == [] then []
    else
      var front, op := ToolTimes(ticks[..|ticks| - 1]), ticks[|ticks| - 1].op;
      if op.Event? && op.event.ToolFinished? then
        front + [TimeOf(op.event)]
      else front
  }

  lemma ApplyMarks(t: Timer, tick: Tick, c: nat)
    ensures var u, now := Apply(t, tick), NowMs(t.start, tick.clock);
            && u.ttftMs == (if t.ttftMs.None? && Speaks(tick.op) then Some(now) else t.ttftMs)
            && (c in u.firstTextMs <==>
                  c in t.firstTextMs || (tick.op.Event? && tick.op.event.AgentText? && t.modelCalls == c))
            && (c in u.firstTextMs ==> u.firstTextMs[c] == if c in t.firstTextMs then t.firstTextMs[c] else now)
            && u.tools == (if tick.op.Event? && tick.op.event.ToolFinished? then
                             t.tools + [TimeOf(tick.op.event)]
                           else t.tools)
  {
    hide NowMs, Credit;
  }

  lemma {:induction false} TicksMark(start: real, ticks: seq<Tick>, c: nat)
    ensures var t := RunTicks(start, ticks);
            && t.ttftMs == FirstSpoken(start, ticks) && t.tools == ToolTimes(ticks)
            && (if c in t.firstTextMs then Some(t.firstTextMs[c]) else None) == FirstText(start, ticks, c)
  {
    hide Apply, NowMs, CallsSoFar;
    if ticks != [] {
      var front, last := ticks[..|ticks| - 1], ticks[|ticks| - 1];
      TicksMark(start, front, c);
      ApplyMarks(RunTicks(start, front), last, c);
      CallsAre(start, front);
    }
  }

  lemma CallsAre(start: real, ticks: seq<Tick>)
    ensures RunTicks(start, ticks).modelCalls == CallsSoFar(ticks)
  {
    TimerCounts(start, ticks);
  }

  /** The rest of the report: execution ends at the closing clock, the first token is the
      first text or reasoning, work ends where the last model call's answer text begins,
      and every finished tool call is listed. */
  lemma ReportMarks(start: real, ticks: seq<Tick>, clock: real)
    ensures var timing, calls := Report(RunTicks(start, ticks), NowMs(start, clock)), CallsSoFar(ticks);
            && timing.executionMs == NowMs(start, clock) && timing.ttftMs == FirstSpoken(start, ticks)
            && timing.workMs == (if calls == 0 then None else FirstText(start, ticks, calls))
            && timing.modelCalls == calls && timing.tools == ToolTimes(ticks)
  {
    hide NowMs, RunTicks, CallsSoFar, FirstText, FirstSpoken, ToolTimes;
    CallsAre(start, ticks);
    TicksMark(start, ticks, CallsSoFar(ticks));
  }

  /** Clock differences are rounded to the nearest millisecond, halves to the even one. */
  lemma RoundIsNearest(x: real)
    ensures -0.5 <= Round(x) as real - x <= 0.5
    ensures Round(x) as real - x == 0.5 || Round(x) as real - x == -0.5 ==> Round(x) % 2 == 0
  {
  }
}
