/** Cumulative draft checkpoints of a streaming run: saved when enough text is
    pending, when a timer fires, before tool events, and on flush. */
module DraftCheckpoints {
  import opened Prelude
  import opened Messages
  import opened RunExecutor

  datatype Settings = Settings(immediate: bool, maxPendingChars: nat, maxEvents: nat)

  /** The persisted row. */
  datatype Draft = Draft(seqNo: int, text: string, reasoning: string, summary: string, events: seq<RunEvent>)

  datatype Sink = Sink(
    textParts: seq<string>,
    reasoningParts: seq<string>,
    summaryParts: seq<string>,
    events: seq<RunEvent>,
    latestSeq: int,
    pendingChars: nat,
    dirty: bool,
    timer: bool,
    backgroundError: bool,
    draft: Option<Draft>)

  const EmptySink := Sink([], [], [], [], 0, 0, false, false, false, None)

  function Join(parts: seq<string>): string {
    if parts == [] then "" else Join(parts[..|parts| - 1]) + parts[|parts| - 1]
  }

  /** The newest `n` entries. */
  function Newest(events: seq<RunEvent>, n: nat): seq<RunEvent> {
    if |events| <= n then events else events[|events| - n..]
  }

  predicate IsDelta(e: AgentEvent) {
    e.AgentText? || e.AgentReasoning?
  }

  function DeltaText(e: AgentEvent): string
    requires IsDelta(e)
  {
    e.text
  }

  predicate IsToolEvent(e: AgentEvent) {
    e.ToolStarted? || e.ToolFinished?
  }

  function Snapshot(s: Sink): Draft {
    Draft(s.latestSeq, Join(s.textParts), Join(s.reasoningParts), Join(s.summaryParts), s.events)
  }

  /** The checkpoint: new state, and whether saving raised. */
  function Checkpoint(s: Sink, saveOk: bool): (Sink, bool) {
    if !s.dirty || s.latestSeq < 1 then (s, false)
    else if !saveOk then (s, true)
    else (s.(draft := Some(Snapshot(s)), pendingChars := 0, dirty := false), false)
  }

  function Buffer(s: Sink, e: RunEvent, cfg: Settings): Sink
    requires IsDelta(e.event)
  {
    s.(textParts := if e.event.AgentText? then s.textParts + [e.event.text] else s.textParts,
       reasoningParts := if e.event.AgentReasoning? && e.event.kind == Raw then s.reasoningParts + [e.event.text]
                         else s.reasoningParts,
       summaryParts := if e.event.AgentReasoning? && e.event.kind == Summary then s.summaryParts + [e.event.text]
                       else s.summaryParts,
       events := Newest(s.events + [e], cfg.maxEvents),
       latestSeq := e.seqNo,
       pendingChars := s.pendingChars + |DeltaText(e.event)|,
       dirty := true,
       timer := s.timer || !cfg.immediate)
  }

  function Emit(s: Sink, e: RunEvent, cfg: Settings, saveOk: bool): (Sink, bool) {
    if s.backgroundError then (s, true)
    else if IsDelta(e.event) then
      if DeltaText(e.event) == "" then (s, false)
      else
        var b := Buffer(s, e, cfg);
        if cfg.immediate || b.pendingChars >= cfg.maxPendingChars then Checkpoint(b.(timer := false), saveOk)
        else (b, false)
    else if IsToolEvent(e.event) && s.dirty then Checkpoint(s.(timer := false), saveOk)
    else (s, false)
  }

  function Flush(s: Sink, saveOk: bool): (Sink, bool) {
    if s.backgroundError then (s, true) else Checkpoint(s.(timer := false), saveOk)
  }

  /** The armed timer runs out: an error is recorded and raised by the next call. */
  function TimerFires(s: Sink, saveOk: bool): Sink {
    if !s.timer then s
    else
      var (t, failed) := Checkpoint(s.(timer := false), saveOk);
      if failed then t.(backgroundError := true) else t
  }

  class DraftCheckpointSink {
    const cfg: Settings
    var textParts: seq<string>
    var reasoningParts: seq<string>
    var summaryParts: seq<string>
    var events: seq<RunEvent>
    var latestSeq: int
    var pendingChars: nat
    var dirty: bool
    var timer: bool
    var backgroundError: bool
    var draft: Option<Draft>

    function Value(): Sink
      reads this
    {
      Sink(textParts, reasoningParts, summaryParts, events, latestSeq, pendingChars, dirty, timer, backgroundError,
          draft)
    }

    constructor (cfg: Settings)
      requires cfg.maxPendingChars >= 1 && cfg.maxEvents >= 1
      ensures Value() == EmptySink && this.cfg == cfg
    {
      this.cfg := cfg;
      textParts, reasoningParts, summaryParts, events := [], [], [], [];
      latestSeq, pendingChars, dirty, timer, backgroundError, draft := 0, 0, false, false, false, None;
    }

    method SaveCheckpoint(saveOk: bool) returns (failed: bool)
      modifies this
      ensures (Value(), failed) == Checkpoint(old(Value()), saveOk)
    {
      if !dirty || latestSeq < 1 {
        return false;
      }
      if !saveOk {
        return true;
      }
      draft := Some(Draft(latestSeq, Join(textParts), Join(reasoningParts), Join(summaryParts), events));
      pendingChars := 0;
      dirty := false;
      return false;
    }

    method AppendPart(e: AgentEvent)
      requires IsDelta(e)
      modifies this`textParts, this`reasoningParts, this`summaryParts
      ensures textParts == if e.AgentText? then old(textParts) + [e.text] else old(textParts)
      ensures reasoningParts == if e.AgentReasoning? && e.kind == Raw then old(reasoningParts) + [e.text]
          else old(reasoningParts)
      ensures summaryParts == if e.AgentReasoning? && e.kind == Summary then old(summaryParts) + [e.text]
          else old(summaryParts)
    {
      if e.AgentText? {
        textParts := textParts + [e.text];
      } else if e.kind == Summary {
        summaryParts := summaryParts + [e.text];
      } else {
        reasoningParts := reasoningParts + [e.text];
      }
    }

    method TrimEvents(e: RunEvent)
      modifies this`events
      ensures events == Newest(old(events) + [e], cfg.maxEvents)
    {
      events := events + [e];
      if |events| > cfg.maxEvents {
        events := events[|events| - cfg.maxEvents..];
      }
    }

    method BufferDelta(e: RunEvent)
      requires IsDelta(e.event)
      modifies this
      ensures Value() == Buffer(old(Value()), e, cfg)
    {
      AppendPart(e.event);
      TrimEvents(e);
      hide Newest;
      latestSeq := e.seqNo;
      pendingChars := pendingChars + |DeltaText(e.event)|;
      dirty := true;
      timer := timer || !cfg.immediate;
    }

    method EmitEvent(e: RunEvent, saveOk: bool) returns (failed: bool)
      modifies this
      ensures (Value(), failed) == Emit(old(Value()), e, cfg, saveOk)
    {
      hide Buffer, Checkpoint;
      failed := false;
      if backgroundError {
        return true;
      }
      if IsDelta(e.event) {
        if DeltaText(e.event) == "" {
          return;
        }
        BufferDelta(e);
        if cfg.immediate || pendingChars >= cfg.maxPendingChars {
          timer := false;
          failed := SaveCheckpoint(saveOk);
        }
      } else if IsToolEvent(e.event) && dirty {
        timer := false;
        failed := SaveCheckpoint(saveOk);
      }
    }

    method FlushDraft(saveOk: bool) returns (failed: bool)
      modifies this
      ensures (Value(), failed) == Flush(old(Value()), saveOk)
    {
      if backgroundError {
        return true;
      }
      timer := false;
      failed := SaveCheckpoint(saveOk);
    }

    method CheckpointAfterInterval(saveOk: bool)
      requires timer
      modifies this
      ensures Value() == TimerFires(old(Value()), saveOk)
    {
      timer := false;
      var failed := SaveCheckpoint(saveOk);
      if failed {
        backgroundError := true;
      }
    }
  }

  // ------------------------------------------------------------------- whole runs

  datatype Op = EmitOp(event: RunEvent, saveOk: bool) | FlushOp(saveOk: bool) | TimerOp(saveOk: bool)

  /** A sink with the deltas it has accepted, how many of them the saved draft
      covers, and whether any call has raised or recorded an error. */
  datatype Traced = Traced(sink: Sink, log: seq<RunEvent>, saved: nat, errored: bool)

  predicate Accepts(s: Sink, e: RunEvent) {
    !s.backgroundError && IsDelta(e.event) && DeltaText(e.event) != ""
  }

  function After(t: Traced, sink: Sink, log: seq<RunEvent>, errored: bool): Traced {
    Traced(sink, log, if sink.dirty then t.saved else |log|, t.errored || errored)
  }

  function Apply(t: Traced, op: Op, cfg: Settings): Traced {
    match op
    case EmitOp(e, ok) =>
      var (s, failed) := Emit(t.sink, e, cfg, ok);
      After(t, s, if Accepts(t.sink, e) then t.log + [e] else t.log, failed)
    case FlushOp(ok) =>
      var (s, failed) := Flush(t.sink, ok);
      After(t, s, t.log, failed)
    case TimerOp(ok) =>
      var s := TimerFires(t.sink, ok);
      After(t, s, t.log, s.backgroundError)
  }

  function RunOps(ops: seq<Op>, cfg: Settings): Traced {
    if ops == [] then Traced(EmptySink, [], 0, false)
    else Apply(RunOps(ops[..|ops| - 1], cfg), ops[|ops| - 1], cfg)
  }

  /** The draft that says everything the deltas said. */
  function DraftOf(log: seq<RunEvent>, maxEvents: nat): Draft
    requires log != []
  {
    Draft(log[|log| - 1].seqNo, SinkShown(log, Answer), SinkShown(log, Thought(Raw)), SinkShown(log, Thought(Summary)),
          Newest(log, maxEvents))
  }

  function Chars(log: seq<RunEvent>): nat {
    if log == [] then 0
    else Chars(log[..|log| - 1]) + if IsDelta(log[|log| - 1].event) then |DeltaText(log[|log| - 1].event)| else 0
  }

  /** Positive numbers only, as the executor assigns them. */
  ghost predicate Positive(ops: seq<Op>) {
    forall i :: 0 <= i < |ops| && ops[i].EmitOp? ==> ops[i].event.seqNo >= 1
  }

  ghost predicate Buffered(t: Traced, cfg: Settings) {
    && Join(t.sink.textParts) == SinkShown(t.log, Answer)
    && Join(t.sink.reasoningParts) == SinkShown(t.log, Thought(Raw))
    && Join(t.sink.summaryParts) == SinkShown(t.log, Thought(Summary))
    && t.sink.events == Newest(t.log, cfg.maxEvents)
    && t.sink.latestSeq == (if t.log == [] then 0 else t.log[|t.log| - 1].seqNo)
    && (t.log != [] ==> t.sink.latestSeq >= 1)
  }

  ghost predicate Covered(t: Traced, cfg: Settings) {
    && t.saved <= |t.log|
    && (t.sink.dirty <==> t.saved < |t.log|)
    && t.sink.pendingChars == Chars(t.log[t.saved..])
    && (t.sink.draft.Some? <==> t.saved > 0)
    && (t.saved > 0 ==> t.sink.draft == Some(DraftOf(t.log[..t.saved], cfg.maxEvents)))
  }

  ghost predicate Armed(t: Traced, cfg: Settings) {
    && (t.sink.backgroundError ==> t.errored)
    && (t.sink.dirty && !t.errored ==> t.sink.timer && !cfg.immediate && t.sink.pendingChars < cfg.maxPendingChars)
  }

  ghost predicate Sound(t: Traced, cfg: Settings) {
    Buffered(t, cfg) && Covered(t, cfg) && Armed(t, cfg)
  }

  lemma JoinSnoc(parts: seq<string>, part: string)
    ensures Join(parts + [part]) == Join(parts) + part
  {
    assert (parts + [part])[..|parts|] == parts;
  }

  lemma SinkShownSnoc(log: seq<RunEvent>, e: RunEvent, channel: Channel)
    ensures SinkShown(log + [e], channel) == SinkShown(log, channel) + EventContent(e.event, channel)
  {
    hide Shown;
    assert (log + [e])[..|log|] == log;
    ShownSnoc(Payloads(log), e.event, channel);
  }

  lemma NewestSnoc(log: seq<RunEvent>, e: RunEvent, n: nat)
    requires n >= 1
    ensures Newest(Newest(log, n) + [e], n) == Newest(log + [e], n)
  {
  }

  lemma BufferKeepsBuffered(t: Traced, e: RunEvent, cfg: Settings)
    requires Buffered(t, cfg) && IsDelta(e.event) && e.seqNo >= 1 && cfg.maxEvents >= 1
    ensures Buffered(Traced(Buffer(t.sink, e, cfg), t.log + [e], t.saved, t.errored), cfg)
  {
    hide Join, SinkShown, Newest;
    NewestSnoc(t.log, e, cfg.maxEvents);
    SinkShownSnoc(t.log, e, Answer);
    SinkShownSnoc(t.log, e, Thought(Raw));
    SinkShownSnoc(t.log, e, Thought(Summary));
    JoinSnoc(t.sink.textParts, DeltaText(e.event));
    JoinSnoc(t.sink.reasoningParts, DeltaText(e.event));
    JoinSnoc(t.sink.summaryParts, DeltaText(e.event));
  }

  lemma BufferKeepsCovered(t: Traced, e: RunEvent, cfg: Settings)
    requires Covered(t, cfg) && IsDelta(e.event)
    ensures Covered(Traced(Buffer(t.sink, e, cfg), t.log + [e], t.saved, t.errored), cfg)
  {
    hide SinkShown, Newest;
    var log' := t.log + [e];
    assert log'[..t.saved] == t.log[..t.saved];
    var tail := t.log[t.saved..];
    assert log'[t.saved..] == tail + [e];
    assert (tail + [e])[..|tail|] == tail;
  }

  /** A checkpoint either saves everything, or raises, or has nothing to save. */
  lemma CheckpointKeeps(t: Traced, saveOk: bool, cfg: Settings)
    requires Buffered(t, cfg) && Covered(t, cfg)
    ensures var (s, failed) := Checkpoint(t.sink, saveOk);
      && Buffered(After(t, s, t.log, failed), cfg) && Covered(After(t, s, t.log, failed), cfg)
      && (failed || !s.dirty)
      && s.timer == t.sink.timer && s.backgroundError == t.sink.backgroundError
  {
    hide Join, SinkShown, Newest;
    assert t.log[..|t.log|] == t.log;
    assert t.log[|t.log|..] == [];
  }

  lemma EmitKeeps(t: Traced, e: RunEvent, saveOk: bool, cfg: Settings)
    requires Sound(t, cfg) && e.seqNo >= 1 && cfg.maxEvents >= 1
    ensures Sound(Apply(t, EmitOp(e, saveOk), cfg), cfg)
  {
    hide Buffered, Covered, Checkpoint;
    if Accepts(t.sink, e) {
      var b := Buffer(t.sink, e, cfg);
      BufferKeepsBuffered(t, e, cfg);
      BufferKeepsCovered(t, e, cfg);
      var u := Traced(b, t.log + [e], t.saved, t.errored);
      if cfg.immediate || b.pendingChars >= cfg.maxPendingChars {
        TimerIrrelevant(u, false, cfg);
        CheckpointKeeps(u.(sink := b.(timer := false)), saveOk, cfg);
      }
    } else if !t.sink.backgroundError && IsToolEvent(e.event) && t.sink.dirty {
      TimerIrrelevant(t, false, cfg);
      CheckpointKeeps(t.(sink := t.sink.(timer := false)), saveOk, cfg);
    } else {
      Unmoved(t, cfg);
    }
  }

  lemma TimerIrrelevant(t: Traced, timer: bool, cfg: Settings)
    requires Buffered(t, cfg) && Covered(t, cfg)
    ensures Buffered(t.(sink := t.sink.(timer := timer)), cfg) && Covered(t.(sink := t.sink.(timer := timer)), cfg)
  {
  }

  lemma Unmoved(t: Traced, cfg: Settings)
    requires Covered(t, cfg)
    ensures After(t, t.sink, t.log, false) == t
  {
  }

  lemma FlushKeeps(t: Traced, saveOk: bool, cfg: Settings)
    requires Sound(t, cfg)
    ensures Sound(Apply(t, FlushOp(saveOk), cfg), cfg)
    ensures !Flush(t.sink, saveOk).1 ==> !Apply(t, FlushOp(saveOk), cfg).sink.dirty
  {
    hide Buffered, Covered, Checkpoint;
    TimerIrrelevant(t, false, cfg);
    CheckpointKeeps(t.(sink := t.sink.(timer := false)), saveOk, cfg);
    Unmoved(t, cfg);
  }

  lemma TimerKeeps(t: Traced, saveOk: bool, cfg: Settings)
    requires Sound(t, cfg)
    ensures Sound(Apply(t, TimerOp(saveOk), cfg), cfg)
  {
    hide Checkpoint;
    TimerIrrelevant(t, false, cfg);
    CheckpointKeeps(t.(sink := t.sink.(timer := false)), saveOk, cfg);
    Unmoved(t, cfg);
  }

  /** Whatever is emitted, whenever the timer fires, and whichever saves fail. */
  lemma {:induction false} RunsAreSound(ops: seq<Op>, cfg: Settings)
    requires Positive(ops) && cfg.maxPendingChars >= 1 && cfg.maxEvents >= 1
    ensures Sound(RunOps(ops, cfg), cfg)
  {
    if ops != [] {
      hide Sound, Apply;
      var t := RunOps(ops[..|ops| - 1], cfg);
      RunsAreSound(ops[..|ops| - 1], cfg);
      match ops[|ops| - 1]
      case EmitOp(e, ok) => EmitKeeps(t, e, ok, cfg);
      case FlushOp(ok) => FlushKeeps(t, ok, cfg);
      case TimerOp(ok) => TimerKeeps(t, ok, cfg);
    }
  }

  // ----------------------------------------------------------------- main results

  /** The events offered to the sink, in order. */
  function Offered(ops: seq<Op>): seq<RunEvent> {
    if ops == [] then []
    else
      var front := Offered(ops[..|ops| - 1]);
      if ops[|ops| - 1].EmitOp? then front + [ops[|ops| - 1].event] else front
  }

  ghost predicate Increasing(events: seq<RunEvent>) {
    forall i, j :: 0 <= i < j < |events| ==> events[i].seqNo < events[j].seqNo
  }

  /** The deltas numbered up to `n`. */
  function UpTo(log: seq<RunEvent>, n: int): seq<RunEvent> {
    if log == [] then []
    else
      var front := UpTo(log[..|log| - 1], n);
      if log[|log| - 1].seqNo <= n then front + [log[|log| - 1]] else front
  }

  lemma {:induction false} UpToIsPrefix(log: seq<RunEvent>, k: nat, n: int)
    requires k <= |log|
    requires forall i :: 0 <= i < k ==> log[i].seqNo <= n
    requires forall i :: k <= i < |log| ==> n < log[i].seqNo
    ensures UpTo(log, n) == log[..k]
  {
    if log != [] {
      var m := |log| - 1;
      UpToIsPrefix(log[..m], if k <= m then k else m, n);
      if k <= m {
        assert log[..m][..k] == log[..k];
      } else {
        assert log[..m] + [log[m]] == log[..k];
        assert log[..m][..m] == log[..m];
      }
    }
  }

  /** Accepted deltas keep the order of the offered numbers. */
  lemma {:induction false} LogIncreasing(ops: seq<Op>, cfg: Settings)
    requires Increasing(Offered(ops))
    ensures Increasing(RunOps(ops, cfg).log)
    ensures forall e :: e in RunOps(ops, cfg).log ==> e in Offered(ops)
  {
    if ops != [] {
      hide Emit, Flush, TimerFires;
      var front := ops[..|ops| - 1];
      assert Increasing(Offered(front)) by { OfferedPrefix(ops); }
      LogIncreasing(front, cfg);
      var log := RunOps(front, cfg).log;
      if ops[|ops| - 1].EmitOp? {
        var e := ops[|ops| - 1].event;
        var all := Offered(front) + [e];
        forall x | x in log ensures x.seqNo < e.seqNo {
          var i :| 0 <= i < |Offered(front)| && Offered(front)[i] == x;
          assert all[i].seqNo < all[|all| - 1].seqNo;
        }
        assert forall i :: 0 <= i < |log| ==> log[i] in log;
      }
    }
  }

  lemma OfferedPrefix(ops: seq<Op>)
    requires ops != [] && Increasing(Offered(ops))
    ensures Increasing(Offered(ops[..|ops| - 1]))
  {
    var front := Offered(ops[..|ops| - 1]);
    assert forall i :: 0 <= i < |front| ==> Offered(ops)[i] == front[i];
  }

  /** Every saved draft is the fold of all accepted deltas up to its number, with
      the newest `maxEvents` of them; saving is all or nothing. */
  lemma SavedDraftIsFold(ops: seq<Op>, cfg: Settings)
    requires Positive(ops) && Increasing(Offered(ops)) && cfg.maxPendingChars >= 1 && cfg.maxEvents >= 1
    ensures var t := RunOps(ops, cfg);
      t.sink.draft.Some? ==>
        var known := UpTo(t.log, t.sink.draft.value.seqNo);
        var draft := t.sink.draft.value;
        && known != [] && draft.seqNo == known[|known| - 1].seqNo && draft.text == SinkShown(known, Answer)
        && draft.reasoning == SinkShown(known, Thought(Raw)) && draft.summary == SinkShown(known, Thought(Summary))
        && draft == DraftOf(known, cfg.maxEvents) && AreNewest(draft.events, known, cfg.maxEvents)
  {
    hide SinkShown, Newest, Join, RunOps, Buffered, Armed, Offered, Positive, AreNewest;
    RunsAreSound(ops, cfg);
    LogIncreasing(ops, cfg);
    var t := RunOps(ops, cfg);
    if t.sink.draft.Some? {
      assert t.log[..t.saved][|t.log[..t.saved]| - 1] == t.log[t.saved - 1];
      UpToIsPrefix(t.log, t.saved, t.log[t.saved - 1].seqNo);
      NewestAreKept(t.log[..t.saved], cfg.maxEvents);
    }
  }

  /** The last events of a log, as many as there are up to `n`. */
  ghost predicate AreNewest(kept: seq<RunEvent>, log: seq<RunEvent>, n: nat) {
    |kept| == Min(|log|, n) && forall k :: 0 <= k < |kept| ==> kept[k] == log[|log| - |kept| + k]
  }

  lemma NewestAreKept(log: seq<RunEvent>, n: nat)
    ensures AreNewest(Newest(log, n), log, n)
  {
  }

  /** Until an error is raised or recorded, what is not saved is always below the
      threshold and always has an armed timer. */
  lemma UnsavedTextHasATimer(ops: seq<Op>, cfg: Settings)
    requires Positive(ops) && cfg.maxPendingChars >= 1 && cfg.maxEvents >= 1
    ensures RunOps(ops, cfg).saved <= |RunOps(ops, cfg).log|
    ensures var t := RunOps(ops, cfg);
      var unsaved := t.log[t.saved..];
      && t.sink.pendingChars == Chars(unsaved)
      && (!t.errored ==> Chars(unsaved) < cfg.maxPendingChars && (unsaved != [] ==> t.sink.timer))
  {
    hide RunOps, Buffered;
    RunsAreSound(ops, cfg);
  }

  /** A tool event or a flush that does not raise leaves nothing unsaved. */
  lemma ToolEventOrFlushSavesAll(ops: seq<Op>, op: Op, cfg: Settings)
    requires Positive(ops + [op]) && cfg.maxPendingChars >= 1 && cfg.maxEvents >= 1
    requires op.FlushOp? || (op.EmitOp? && (op.event.event.ToolStarted? || op.event.event.ToolFinished?))
    ensures var t := Apply(RunOps(ops, cfg), op, cfg);
      t.errored || (t.saved == |t.log| && (t.log != [] ==> t.sink.draft == Some(DraftOf(t.log, cfg.maxEvents))))
  {
    hide RunOps, Buffered, Armed, Checkpoint, SinkShown, Newest, Join;
    assert forall i :: 0 <= i < |ops| ==> (ops + [op])[i] == ops[i];
    assert (ops + [op])[|ops|] == op;
    RunsAreSound(ops, cfg);
    var t := RunOps(ops, cfg);
    TimerIrrelevant(t, false, cfg);
    CheckpointKeeps(t.(sink := t.sink.(timer := false)), op.saveOk, cfg);
    var u := Apply(t, op, cfg);
    assert u.log[..|u.log|] == u.log;
  }

  lemma {:induction false} LogShowsOffered(ops: seq<Op>, cfg: Settings, channel: Channel)
    requires Positive(ops) && cfg.maxPendingChars >= 1 && cfg.maxEvents >= 1 && !RunOps(ops, cfg).errored
    ensures SinkShown(RunOps(ops, cfg).log, channel) == SinkShown(Offered(ops), channel)
  {
    if ops != [] {
      hide SinkShown, Buffered, Covered, Emit, Flush, TimerFires;
      var front, op := ops[..|ops| - 1], ops[|ops| - 1];
      LogShowsOffered(front, cfg, channel);
      RunsAreSound(front, cfg);
      var t := RunOps(front, cfg);
      if op.EmitOp? {
        SinkShownSnoc(t.log, op.event, channel);
        SinkShownSnoc(Offered(front), op.event, channel);
        assert SinkShown(t.log, channel) + "" == SinkShown(t.log, channel);
      }
    }
  }

  // ------------------------------------------------------------------- when it saves

  /** A nonempty delta is only buffered, with a timer armed, while the pending text stays
      below the threshold; at the threshold, or without an interval, everything is saved
      at once, or the save's error is raised and nothing is lost. */
  lemma DeltasWaitForTheThreshold(s: Sink, e: RunEvent, cfg: Settings, saveOk: bool)
    requires !s.backgroundError && (e.event.AgentText? || e.event.AgentReasoning?) && e.event.text != "" && e.seqNo >= 1
    ensures var (t, failed) := Emit(s, e, cfg, saveOk);
            var full := cfg.immediate || s.pendingChars + |e.event.text| >= cfg.maxPendingChars;
            && t.latestSeq == e.seqNo
            && (if !full then
                !failed && t.dirty && t.timer && t.draft == s.draft && t.pendingChars == s.pendingChars + |e.event.text|
                else if saveOk then
                  !failed && !t.dirty && !t.timer && t.pendingChars == 0 && t.draft.Some?
                      && t.draft.value.seqNo == e.seqNo
                else failed && t.dirty && !t.timer && t.draft == s.draft)
  {
    hide Join, Newest;
  }

  /** Anything else: an empty delta changes nothing; a tool event saves what is unsaved. */
  lemma OtherEventsSaveAtMost(s: Sink, e: RunEvent, cfg: Settings, saveOk: bool)
    requires !s.backgroundError && ((e.event.AgentText? || e.event.AgentReasoning?) ==> e.event.text == "")
    ensures var (t, failed) := Emit(s, e, cfg, saveOk);
            if (e.event.ToolStarted? || e.event.ToolFinished?) && s.dirty && s.latestSeq >= 1 then
              if saveOk then !failed && t == s.(timer := false, dirty := false, pendingChars := 0, draft := t.draft)
                  && t.draft.Some?
              else failed && t == s.(timer := false)
            else !failed && t.draft == s.draft && t.dirty == s.dirty && t.pendingChars == s.pendingChars
  {
    hide Join, Newest;
  }

  /** Only a failing save is ever an error. */
  lemma {:induction false} ErrorsComeFromSaves(ops: seq<Op>, cfg: Settings)
    requires forall i :: 0 <= i < |ops| ==> ops[i].saveOk
    ensures !RunOps(ops, cfg).errored && !RunOps(ops, cfg).sink.backgroundError
  {
    hide Join, Newest, Snapshot;
    if ops != [] {
      ErrorsComeFromSaves(ops[..|ops| - 1], cfg);
    }
  }
}
