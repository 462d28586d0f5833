/** Every interleaving of `process_outbox` invocations, sweeps and crashes over
    one outbox table. Each clock reading is an arbitrary step argument, and a
    crashed invocation is one that takes no further step. */
module OutboxProtocol {
  import opened Prelude
  import opened EmailOutbox

  datatype Outcome = Accepted(messageId: Option<string>) | Retryable(error: string) | Permanent(error: string)

  datatype Answer = Skipped | Delivered | Retry | Buried | LeaseLost

  /** Where one invocation stands between its transactions. */
  datatype Task =
    | Claiming(row: RowId)
    | Exhausted(row: RowId)
    | Ready(row: RowId)
    | Calling(row: RowId)
    | Settling(row: RowId, outcome: Outcome)
    | Finished(row: RowId, answer: Answer)

  /** A row with its history: which invocations counted an attempt, which called
      the provider, what the provider accepted, and how many calls were made. */
  datatype Cell = Cell(
    row: Row,
    bumps: set<TaskId>,
    calls: set<TaskId>,
    accepted: map<TaskId, Option<string>>,
    sends: nat)

  datatype State = State(cells: map<RowId, Cell>, tasks: map<TaskId, Task>)

  datatype Step =
    | Enqueue(id: RowId, now: int)
    | Start(task: TaskId, id: RowId)
    | ClaimRow(task: TaskId, now: int, lease: int)
    | GiveUp(task: TaskId, seen: int)
    | Bump(task: TaskId, now: int)
    | Call(task: TaskId, outcome: Outcome)
    | Settle(task: TaskId, seen: int, now: int)
    | Sweep(now: int, unlocked: set<RowId>)

  const Initial := State(map[], map[])

  // ----------------------------------------------------------------- transitions

  function SetRow(s: State, id: RowId, row: Row): State
    requires id in s.cells
  {
    s.(cells := s.cells[id := s.cells[id].(row := row)])
  }

  function Goto(s: State, task: TaskId, next: Task): State {
    s.(tasks := s.tasks[task := next])
  }

  function AfterClaim(s: State, t: TaskId, id: RowId, now: int, lease: int, max: nat): State {
    if id in s.cells && Claimable(s.cells[id].row, now) then
      var row := s.cells[id].row;
      Goto(SetRow(s, id, Claim(row, t, now, lease)), t,
           if row.attemptCount >= max then Exhausted(id) else Ready(id))
    else Goto(s, t, Finished(id, Skipped))
  }

  function AfterGiveUp(s: State, t: TaskId, id: RowId, seen: int): State
    requires id in s.cells
  {
    if Owned(s.cells[id].row, t, seen) then
      Goto(SetRow(s, id, Bury(s.cells[id].row, "Email outbox attempt budget exhausted")), t, Finished(id, Buried))
    else Goto(s, t, Finished(id, LeaseLost))
  }

  function AfterBump(s: State, t: TaskId, id: RowId, now: int): State
    requires id in s.cells
  {
    var c := s.cells[id];
    if Owned(c.row, t, now) then
      Goto(s.(cells := s.cells[id := c.(row := c.row.(attemptCount := c.row.attemptCount + 1),
                                        bumps := c.bumps + {t})]), t, Calling(id))
    else Goto(s, t, Finished(id, LeaseLost))
  }

  function AfterCall(s: State, t: TaskId, id: RowId, outcome: Outcome): State
    requires id in s.cells
  {
    var c := s.cells[id];
    Goto(s.(cells := s.cells[id := c.(calls := c.calls + {t}, sends := c.sends + 1,
                                      accepted := if outcome.Accepted? then c.accepted[t := outcome.messageId]
                                                  else c.accepted)]),
         t, Settling(id, outcome))
  }

  function AfterSettle(s: State, t: TaskId, id: RowId, outcome: Outcome, seen: int, now: int, max: nat): State
    requires id in s.cells
  {
    var row := s.cells[id].row;
    if !Owned(row, t, seen) then Goto(s, t, Finished(id, LeaseLost))
    else
      match outcome
      case Accepted(m) => Goto(SetRow(s, id, Deliver(row, m, now)), t, Finished(id, Delivered))
      case Retryable(e) =>
        Goto(SetRow(s, id, Fail(row, e, max, now)), t, Finished(id, if row.attemptCount >= max then Buried else Retry))
      case Permanent(e) => Goto(SetRow(s, id, Bury(row, e)), t, Finished(id, Buried))
  }

  /** Recovers the expired rows no concurrent transaction has locked. */
  function AfterSweep(s: State, now: int, unlocked: set<RowId>): State {
    s.(cells := map id | id in s.cells ::
         if id in unlocked then s.cells[id].(row := SweptRow(s.cells[id].row, now)) else s.cells[id])
  }

  /** A step that is not enabled changes nothing. */
  function Next(s: State, step: Step, max: nat): State {
    match step
    case Enqueue(id, now) =>
      if id in s.cells then s else s.(cells := s.cells[id := Cell(NewRow(now), {}, {}, map[], 0)])
    case Start(t, id) =>
      if t in s.tasks then s else Goto(s, t, Claiming(id))
    case ClaimRow(t, now, lease) =>
      if t in s.tasks && s.tasks[t].Claiming? then AfterClaim(s, t, s.tasks[t].row, now, lease, max) else s
    case GiveUp(t, seen) =>
      if t in s.tasks && s.tasks[t].Exhausted? && s.tasks[t].row in s.cells then AfterGiveUp(s, t, s.tasks[t].row, seen)
      else s
    case Bump(t, now) =>
      if t in s.tasks && s.tasks[t].Ready? && s.tasks[t].row in s.cells then AfterBump(s, t, s.tasks[t].row, now) else s
    case Call(t, outcome) =>
      if t in s.tasks && s.tasks[t].Calling? && s.tasks[t].row in s.cells then AfterCall(s, t, s.tasks[t].row, outcome)
      else s
    case Settle(t, seen, now) =>
      if t in s.tasks && s.tasks[t].Settling? && s.tasks[t].row in s.cells then
        AfterSettle(s, t, s.tasks[t].row, s.tasks[t].outcome, seen, now, max)
      else s
    case Sweep(now, unlocked) => AfterSweep(s, now, unlocked)
  }

  function Run(s: State, steps: seq<Step>, max: nat): State {
    if steps == [] then s else Next(Run(s, steps[..|steps| - 1], max), steps[|steps| - 1], max)
  }

  // ------------------------------------------------------------------- invariant

  predicate Holding(task: Task) {
    task.Exhausted? || task.Ready? || task.Calling? || task.Settling?
  }

  predicate PastBump(task: Task) {
    task.Calling? || task.Settling? || task.Finished?
  }

  ghost predicate CellInv(id: RowId, c: Cell, tasks: map<TaskId, Task>, max: nat) {
    && (c.row.status == Sending <==> c.row.lockedBy.Some?)
    && (c.row.lockedBy.Some? <==> c.row.lockedUntil.Some?)
    && |c.bumps| == c.row.attemptCount <= max
    && c.calls <= c.bumps
    && c.sends == |c.calls|
    && c.accepted.Keys <= c.calls
    && (c.row.lockedBy.Some? ==>
          var t := c.row.lockedBy.value; t in tasks && tasks[t].row == id && !tasks[t].Claiming?)
    && (forall t :: t in c.bumps ==> t in tasks && tasks[t].row == id && PastBump(tasks[t]))
    && (c.row.status == Sent ==> exists t :: t in c.accepted && c.accepted[t] == c.row.providerMessageId)
  }

  ghost predicate TaskInv(t: TaskId, task: Task, cells: map<RowId, Cell>, max: nat) {
    && (Holding(task) ==> task.row in cells)
    && (task.Ready? ==> (cells[task.row].row.lockedBy == Some(t) ==> cells[task.row].row.attemptCount < max))
    && (task.Calling? ==> t in cells[task.row].bumps && t !in cells[task.row].calls)
    && (task.Settling? ==> t in cells[task.row].calls)
    && (task.Settling? && task.outcome.Accepted? ==>
          t in cells[task.row].accepted && cells[task.row].accepted[t] == task.outcome.messageId)
  }

  ghost predicate CellsInv(s: State, max: nat) {
    forall id :: id in s.cells ==> CellInv(id, s.cells[id], s.tasks, max)
  }

  ghost predicate TasksInv(s: State, max: nat) {
    forall t :: t in s.tasks ==> TaskInv(t, s.tasks[t], s.cells, max)
  }

  ghost predicate Inv(s: State, max: nat) {
    CellsInv(s, max) && TasksInv(s, max)
  }

  /** Adding one element grows a set by one. */
  lemma GrowByOne<T>(s: set<T>, x: T)
    requires x !in s
    ensures |s + {x}| == |s| + 1
  {
  }

  lemma ClaimKeepsInv(s: State, t: TaskId, now: int, lease: int, max: nat)
    requires Inv(s, max) && t in s.tasks && s.tasks[t].Claiming?
    ensures Inv(AfterClaim(s, t, s.tasks[t].row, now, lease, max), max)
  {
    var s' := AfterClaim(s, t, s.tasks[t].row, now, lease, max);
    forall id | id in s'.cells ensures CellInv(id, s'.cells[id], s'.tasks, max) {
      assert CellInv(id, s.cells[id], s.tasks, max);
    }
    forall u | u in s'.tasks ensures TaskInv(u, s'.tasks[u], s'.cells, max) {
      assert TaskInv(u, s.tasks[u], s.cells, max);
    }
  }

  lemma GiveUpKeepsCells(s: State, t: TaskId, seen: int, max: nat)
    requires Inv(s, max) && t in s.tasks && s.tasks[t].Exhausted? && s.tasks[t].row in s.cells
    ensures CellsInv(AfterGiveUp(s, t, s.tasks[t].row, seen), max)
  {
    hide TaskInv;
    var s' := AfterGiveUp(s, t, s.tasks[t].row, seen);
    forall id | id in s'.cells ensures CellInv(id, s'.cells[id], s'.tasks, max) {
      assert CellInv(id, s.cells[id], s.tasks, max);
    }
  }

  lemma GiveUpKeepsInv(s: State, t: TaskId, seen: int, max: nat)
    requires Inv(s, max) && t in s.tasks && s.tasks[t].Exhausted? && s.tasks[t].row in s.cells
    ensures Inv(AfterGiveUp(s, t, s.tasks[t].row, seen), max)
  {
    GiveUpKeepsCells(s, t, seen, max);
    hide CellInv;
    var s' := AfterGiveUp(s, t, s.tasks[t].row, seen);
    forall u | u in s'.tasks ensures TaskInv(u, s'.tasks[u], s'.cells, max) {
      assert TaskInv(u, s.tasks[u], s.cells, max);
    }
  }

  lemma BumpKeepsCells(s: State, t: TaskId, now: int, max: nat)
    requires Inv(s, max) && t in s.tasks && s.tasks[t].Ready? && s.tasks[t].row in s.cells
    ensures CellsInv(AfterBump(s, t, s.tasks[t].row, now), max)
  {
    var c := s.cells[s.tasks[t].row];
    assert CellInv(s.tasks[t].row, c, s.tasks, max) && TaskInv(t, s.tasks[t], s.cells, max);
    assert t !in c.bumps;
    GrowByOne(c.bumps, t);
    hide TaskInv;
    var s' := AfterBump(s, t, s.tasks[t].row, now);
    forall id | id in s'.cells ensures CellInv(id, s'.cells[id], s'.tasks, max) {
      assert CellInv(id, s.cells[id], s.tasks, max);
    }
  }

  lemma BumpKeepsInv(s: State, t: TaskId, now: int, max: nat)
    requires Inv(s, max) && t in s.tasks && s.tasks[t].Ready? && s.tasks[t].row in s.cells
    ensures Inv(AfterBump(s, t, s.tasks[t].row, now), max)
  {
    BumpKeepsCells(s, t, now, max);
    assert CellInv(s.tasks[t].row, s.cells[s.tasks[t].row], s.tasks, max);
    assert t !in s.cells[s.tasks[t].row].calls;
    hide CellInv, CellsInv;
    var s' := AfterBump(s, t, s.tasks[t].row, now);
    forall u | u in s'.tasks ensures TaskInv(u, s'.tasks[u], s'.cells, max) {
      assert TaskInv(u, s.tasks[u], s.cells, max);
    }
  }

  lemma CallKeepsCells(s: State, t: TaskId, outcome: Outcome, max: nat)
    requires Inv(s, max) && t in s.tasks && s.tasks[t].Calling? && s.tasks[t].row in s.cells
    ensures CellsInv(AfterCall(s, t, s.tasks[t].row, outcome), max)
  {
    var id, s' := s.tasks[t].row, AfterCall(s, t, s.tasks[t].row, outcome);
    var c, c' := s.cells[id], s'.cells[id];
    assert TaskInv(t, s.tasks[t], s.cells, max);
    GrowByOne(c.calls, t);
    hide TaskInv;
    if c.row.status == Sent {
      assert CellInv(id, c, s.tasks, max);
      var u :| u in c.accepted && c.accepted[u] == c.row.providerMessageId;
      assert u in c'.accepted && c'.accepted[u] == c.row.providerMessageId;
    }
    forall i | i in s'.cells ensures CellInv(i, s'.cells[i], s'.tasks, max) {
      assert CellInv(i, s.cells[i], s.tasks, max);
    }
  }

  lemma CallKeepsInv(s: State, t: TaskId, outcome: Outcome, max: nat)
    requires Inv(s, max) && t in s.tasks && s.tasks[t].Calling? && s.tasks[t].row in s.cells
    ensures Inv(AfterCall(s, t, s.tasks[t].row, outcome), max)
  {
    CallKeepsCells(s, t, outcome, max);
    hide CellInv;
    var s' := AfterCall(s, t, s.tasks[t].row, outcome);
    forall u | u in s'.tasks ensures TaskInv(u, s'.tasks[u], s'.cells, max) {
      assert TaskInv(u, s.tasks[u], s.cells, max);
    }
  }

  lemma SettleKeepsCells(s: State, t: TaskId, seen: int, now: int, max: nat)
    requires Inv(s, max) && t in s.tasks && s.tasks[t].Settling? && s.tasks[t].row in s.cells
    ensures CellsInv(AfterSettle(s, t, s.tasks[t].row, s.tasks[t].outcome, seen, now, max), max)
  {
    var s' := AfterSettle(s, t, s.tasks[t].row, s.tasks[t].outcome, seen, now, max);
    assert TaskInv(t, s.tasks[t], s.cells, max);
    hide TaskInv;
    forall id | id in s'.cells ensures CellInv(id, s'.cells[id], s'.tasks, max) {
      assert CellInv(id, s.cells[id], s.tasks, max);
    }
  }

  lemma SettleKeepsInv(s: State, t: TaskId, seen: int, now: int, max: nat)
    requires Inv(s, max) && t in s.tasks && s.tasks[t].Settling? && s.tasks[t].row in s.cells
    ensures Inv(AfterSettle(s, t, s.tasks[t].row, s.tasks[t].outcome, seen, now, max), max)
  {
    SettleKeepsCells(s, t, seen, now, max);
    hide CellInv;
    var s' := AfterSettle(s, t, s.tasks[t].row, s.tasks[t].outcome, seen, now, max);
    forall u | u in s'.tasks ensures TaskInv(u, s'.tasks[u], s'.cells, max) {
      assert TaskInv(u, s.tasks[u], s.cells, max);
    }
  }

  lemma SweepKeepsInv(s: State, now: int, unlocked: set<RowId>, max: nat)
    requires Inv(s, max)
    ensures Inv(AfterSweep(s, now, unlocked), max)
  {
  }

  lemma NextKeepsInv(s: State, step: Step, max: nat)
    requires Inv(s, max)
    ensures Inv(Next(s, step, max), max)
  {
    hide AfterClaim, AfterGiveUp, AfterBump, AfterCall, AfterSettle, AfterSweep;
    match step
    case Enqueue(id, now) =>
    case Start(t, id) =>
    case ClaimRow(t, now, lease) =>
      if t in s.tasks && s.tasks[t].Claiming? { ClaimKeepsInv(s, t, now, lease, max); }
    case GiveUp(t, seen) =>
      if t in s.tasks && s.tasks[t].Exhausted? { GiveUpKeepsInv(s, t, seen, max); }
    case Bump(t, now) =>
      if t in s.tasks && s.tasks[t].Ready? { BumpKeepsInv(s, t, now, max); }
    case Call(t, outcome) =>
      if t in s.tasks && s.tasks[t].Calling? { CallKeepsInv(s, t, outcome, max); }
    case Settle(t, seen, now) =>
      if t in s.tasks && s.tasks[t].Settling? { SettleKeepsInv(s, t, seen, now, max); }
    case Sweep(now, unlocked) =>
      SweepKeepsInv(s, now, unlocked, max);
  }

  // ----------------------------------------------------------------- main results

  /** Every reachable state satisfies the invariant: in particular a row is
      SENDING exactly when it is locked, and SENT only with a message id the
      provider returned. */
  lemma {:induction false} RunsKeepInv(steps: seq<Step>, max: nat)
    ensures Inv(Run(Initial, steps, max), max)
  {
    if steps != [] {
      RunsKeepInv(steps[..|steps| - 1], max);
      NextKeepsInv(Run(Initial, steps[..|steps| - 1], max), steps[|steps| - 1], max);
    }
  }

  /** In every reachable state a row is SENDING exactly when an invocation that
      has claimed it is recorded as its lease holder. */
  lemma SendingExactlyWhenLocked(steps: seq<Step>, max: nat, id: RowId)
    requires id in Run(Initial, steps, max).cells
    ensures var s := Run(Initial, steps, max);
      s.cells[id].row.status == Sending <==>
      exists t :: t in s.tasks && s.tasks[t].row == id && !s.tasks[t].Claiming? && s.cells[id].row.lockedBy == Some(t)
  {
    RunsKeepInv(steps, max);
    assert CellInv(id, Run(Initial, steps, max).cells[id], Run(Initial, steps, max).tasks, max);
  }

  /** No interleaving makes the provider see more than `max` calls for one row. */
  lemma SendsNeverExceedBudget(steps: seq<Step>, max: nat, id: RowId)
    requires id in Run(Initial, steps, max).cells
    ensures Run(Initial, steps, max).cells[id].sends <= max
  {
    RunsKeepInv(steps, max);
    var c := Run(Initial, steps, max).cells[id];
    assert c.calls + (c.bumps - c.calls) == c.bumps;
  }

  /** Whenever a retry is scheduled the backoff index is a real entry of the
      schedule, so the delay is the one of that attempt and never a wrapped one. */
  lemma BackoffIndexInRange(steps: seq<Step>, max: nat, t: TaskId, seen: int)
    requires var s := Run(Initial, steps, max);
      t in s.tasks && s.tasks[t].Settling? && s.tasks[t].row in s.cells && Owned(s.cells[s.tasks[t].row].row, t, seen)
    ensures var row := Run(Initial, steps, max).cells[Run(Initial, steps, max).tasks[t].row].row;
      && 0 <= BackoffIndex(row.attemptCount) < |BACKOFF_SCHEDULE_SECONDS|
      && BackoffSeconds(row.attemptCount) == BACKOFF_SCHEDULE_SECONDS[Min(row.attemptCount, 5) - 1]
  {
    RunsKeepInv(steps, max);
    var s := Run(Initial, steps, max);
    var c := s.cells[s.tasks[t].row];
    assert t in c.bumps;
    assert c.bumps == (c.bumps - {t}) + {t};
  }

  lemma TerminalStep(s: State, step: Step, max: nat, id: RowId)
    requires id in s.cells && Terminal(s.cells[id].row)
    ensures id in Next(s, step, max).cells && Next(s, step, max).cells[id].row == s.cells[id].row
  {
    hide Fail, Bury, Deliver;
  }

  /** SENT and DEAD rows are never written again, whatever follows. */
  lemma {:induction false} TerminalRowsAreFinal(s: State, steps: seq<Step>, max: nat, id: RowId)
    requires id in s.cells && Terminal(s.cells[id].row)
    ensures id in Run(s, steps, max).cells && Run(s, steps, max).cells[id].row == s.cells[id].row
  {
    if steps != [] {
      hide Next;
      TerminalRowsAreFinal(s, steps[..|steps| - 1], max, id);
      TerminalStep(Run(s, steps[..|steps| - 1], max), steps[|steps| - 1], max, id);
    }
  }

  /** The task's lease on the row, read off the row itself, has not run out. */
  predicate HoldsLiveLease(row: Row, t: TaskId, seen: int) {
    row.status == Sending && row.lockedBy == Some(t) && row.lockedUntil.Some? && seen <= row.lockedUntil.value
  }

  /** A transaction of a task whose lease has run out, or which is not the holder,
      leaves every row as it was. */
  lemma LateStepsChangeNothing(s: State, step: Step, max: nat, id: RowId)
    requires id in s.cells && (step.GiveUp? || step.Bump? || step.Settle?)
    requires var row := s.cells[id].row;
             var seen := if step.Bump? then step.now else step.seen;
             || row.status != Sending || row.lockedBy != Some(step.task)
             || row.lockedUntil.None? || row.lockedUntil.value < seen
    ensures Next(s, step, max).cells[id].row == s.cells[id].row
  {
  }

  /** What each step makes of a row, field by field: a claim of a due row takes the
      lease; the holder of the live lease counts an attempt, buries the row, or records
      the outcome it got; a sweep frees an expired lease; nothing else writes. */
  lemma RowsChangeAsRecorded(s: State, step: Step, max: nat, id: RowId)
    requires id in s.cells
    ensures id in Next(s, step, max).cells
    ensures var was := s.cells[id].row;
      var freed := was.(lockedBy := None, lockedUntil := None);
      Next(s, step, max).cells[id].row ==
      match step
      case ClaimRow(t, clock, lease) =>
        if t in s.tasks && s.tasks[t] == Claiming(id) && was.status == Pending && was.nextAttemptAt <= clock
        then was.(status := Sending, lockedBy := Some(t), lockedUntil := Some(clock + lease)) else was
      case Bump(t, clock) =>
        if t in s.tasks && s.tasks[t] == Ready(id) && HoldsLiveLease(was, t, clock)
        then was.(attemptCount := was.attemptCount + 1) else was
      case GiveUp(t, seen) =>
        if t in s.tasks && s.tasks[t] == Exhausted(id) && HoldsLiveLease(was, t, seen)
        then freed.(status := Dead, lastError := Some("Email outbox attempt budget exhausted")) else was
      case Settle(t, seen, clock) =>
        if t in s.tasks && s.tasks[t].Settling? && s.tasks[t].row == id && HoldsLiveLease(was, t, seen) then
          match s.tasks[t].outcome
          case Accepted(m) => freed.(status := Sent, providerMessageId := m, sentAt := Some(clock), lastError := None)
          case Permanent(e) => freed.(status := Dead, lastError := Some(e[..Min(|e|, 1000)]))
          case Retryable(e) =>
            var failed := freed.(lastError := Some(e[..Min(|e|, 1000)]));
            if was.attemptCount >= max then failed.(status := Dead)
            else failed.(status := Pending, nextAttemptAt := clock + BackoffSeconds(was.attemptCount))
        else was
      case Sweep(clock, unlocked) =>
        if id in unlocked && was.status == Sending && was.lockedUntil.Some? && was.lockedUntil.value < clock
        then freed.(status := Pending, nextAttemptAt := if was.nextAttemptAt < clock then clock else was.nextAttemptAt)
        else was
      case _ => was
  {
    hide BackoffSeconds;
    if step.Settle? && step.task in s.tasks && s.tasks[step.task].Settling? && !s.tasks[step.task].outcome.Accepted? {
      TruncatedIsPrefix(s.tasks[step.task].outcome.error);
    }
    if step.GiveUp? {
      TruncatedIsPrefix("Email outbox attempt budget exhausted");
    }
  }

  predicate StepOf(step: Step, t: TaskId) {
    match step
    case Enqueue(_, _) => false
    case Sweep(_, _) => false
    case _ => step.task == t
  }

  /** Where each step takes its task: an attempt is counted before the provider is
      called, a row whose budget is spent is never sent, and without the live lease the
      task stops. */
  lemma TasksMoveAsRecorded(s: State, step: Step, max: nat, t: TaskId)
    requires t in s.tasks && StepOf(step, t) && (Holding(s.tasks[t]) ==> s.tasks[t].row in s.cells)
    ensures var task, id := s.tasks[t], s.tasks[t].row;
      t in Next(s, step, max).tasks &&
      Next(s, step, max).tasks[t] ==
      match step
      case ClaimRow(_, now, _) =>
        if !task.Claiming? then task
        else if id in s.cells && s.cells[id].row.status == Pending && s.cells[id].row.nextAttemptAt <= now then
          if s.cells[id].row.attemptCount >= max then Exhausted(id) else Ready(id)
        else Finished(id, Skipped)
      case GiveUp(_, seen) =>
        if !task.Exhausted? then task
        else Finished(id, if HoldsLiveLease(s.cells[id].row, t, seen) then Buried else LeaseLost)
      case Bump(_, now) =>
        if !task.Ready? then task
        else if HoldsLiveLease(s.cells[id].row, t, now) then Calling(id) else Finished(id, LeaseLost)
      case Call(_, outcome) => if task.Calling? then Settling(id, outcome) else task
      case Settle(_, seen, _) =>
        if !task.Settling? then task
        else if !HoldsLiveLease(s.cells[id].row, t, seen) then Finished(id, LeaseLost)
        else if task.outcome.Accepted? then Finished(id, Delivered)
        else if task.outcome.Retryable? && s.cells[id].row.attemptCount < max then Finished(id, Retry)
        else Finished(id, Buried)
      case _ => task
  {
    hide Fail, Bury, Deliver, Claim;
  }

  /** Every provider call is counted, and nothing else is. */
  lemma CallsAreCounted(s: State, step: Step, max: nat, id: RowId)
    requires id in s.cells
    ensures id in Next(s, step, max).cells
    ensures Next(s, step, max).cells[id].sends == s.cells[id].sends +
              if step.Call? && step.task in s.tasks && s.tasks[step.task] == Calling(id) then 1 else 0
  {
    hide Fail, Bury, Deliver, Claim;
  }

  /** A row only ever changes in a claim of a due row, in a transaction of the
      task that holds its live lease at that transaction's clock reading, or in a
      sweep of an expired lease. */
  lemma OnlyTheLiveOwnerWrites(s: State, step: Step, max: nat, id: RowId)
    requires id in s.cells && Next(s, step, max).cells[id].row != s.cells[id].row
    ensures match step
      case ClaimRow(t, now, _) => s.cells[id].row.status == Pending && s.cells[id].row.nextAttemptAt <= now
      case GiveUp(t, seen) => HoldsLiveLease(s.cells[id].row, t, seen)
      case Bump(t, now) => HoldsLiveLease(s.cells[id].row, t, now)
      case Settle(t, seen, _) => HoldsLiveLease(s.cells[id].row, t, seen)
      case Sweep(now, unlocked) =>
        && id in unlocked && s.cells[id].row.status == Sending
        && s.cells[id].row.lockedUntil.Some? && s.cells[id].row.lockedUntil.value < now
      case _ => false
  {
  }

  ghost predicate Lost(s: State, t: TaskId) {
    t in s.tasks && !s.tasks[t].Claiming? && s.tasks[t].row in s.cells
    && s.cells[s.tasks[t].row].row.lockedBy != Some(t)
  }

  lemma LostStepKeeps(s: State, step: Step, max: nat, t: TaskId)
    requires Lost(s, t)
    ensures Lost(Next(s, step, max), t) && Next(s, step, max).tasks[t].row == s.tasks[t].row
    ensures StepOf(step, t) ==> Next(s, step, max).cells[s.tasks[t].row].row == s.cells[s.tasks[t].row].row
  {
  }

  /** Once an invocation has lost its lease it never gets it back, and none of
      its later transactions changes the row. */
  lemma {:induction false} LostLeaseNeverWrites(s: State, steps: seq<Step>, last: Step, max: nat, t: TaskId)
    requires Lost(s, t) && StepOf(last, t)
    ensures Lost(Run(s, steps, max), t) && Run(s, steps, max).tasks[t].row == s.tasks[t].row
    ensures Next(Run(s, steps, max), last, max).cells[s.tasks[t].row].row
         == Run(s, steps, max).cells[s.tasks[t].row].row
  {
    if steps != [] {
      LostLeaseNeverWrites(s, steps[..|steps| - 1], last, max, t);
      LostStepKeeps(Run(s, steps[..|steps| - 1], max), steps[|steps| - 1], max, t);
    }
    LostStepKeeps(Run(s, steps, max), last, max, t);
  }
}
