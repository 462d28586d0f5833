/** The durable email outbox: rows claimed under a lease, one provider attempt
    per claim, settlement by the live lease owner, and a sweep that recovers
    expired leases. Every database transaction is one atomic step. */
module EmailOutbox {
  import opened Prelude

  type RowId = int
  type TaskId = int

  datatype Status = Pending | Sending | Sent | Dead

  datatype Row = Row(
    status: Status,
    attemptCount: nat,
    nextAttemptAt: int,
    lockedBy: Option<TaskId>,
    lockedUntil: Option<int>,
    providerMessageId: Option<string>,
    sentAt: Option<int>,
    lastError: Option<string>)

  const BACKOFF_SCHEDULE_SECONDS: seq<int> := [60, 300, 900, 3600, 21600]
  const MAX_ERROR_LEN := 1000

  function Truncated(error: string): string {
    if |error| <= MAX_ERROR_LEN then error else error[..MAX_ERROR_LEN]
  }

  function BackoffIndex(attemptCount: nat): int {
    Min(attemptCount, |BACKOFF_SCHEDULE_SECONDS|) - 1
  }

  /** Sequence access as the source language does it: an index of -1 silently
      reads the last entry. */
  function BackoffSeconds(attemptCount: nat): int {
    var index := BackoffIndex(attemptCount);
    if index < 0 then BACKOFF_SCHEDULE_SECONDS[|BACKOFF_SCHEDULE_SECONDS| + index]
    else BACKOFF_SCHEDULE_SECONDS[index]
  }

  predicate Claimable(row: Row, now: int) {
    row.status == Pending && row.nextAttemptAt <= now
  }

  predicate Owned(row: Row, task: TaskId, now: int) {
    row.status == Sending && row.lockedBy == Some(task) && row.lockedUntil.Some? && now <= row.lockedUntil.value
  }

  predicate Expired(row: Row, now: int) {
    row.status == Sending && row.lockedUntil.Some? && row.lockedUntil.value < now
  }

  predicate Terminal(row: Row) {
    row.status == Sent || row.status == Dead
  }

  // ---------------------------------------------------------------- row effects

  function Claim(row: Row, task: TaskId, now: int, lease: int): Row {
    row.(status := Sending, lockedBy := Some(task), lockedUntil := Some(now + lease))
  }

  function Unlocked(row: Row): Row {
    row.(lockedBy := None, lockedUntil := None)
  }

  function Deliver(row: Row, messageId: Option<string>, now: int): Row {
    Unlocked(row).(status := Sent, providerMessageId := messageId, sentAt := Some(now), lastError := None)
  }

  function Fail(row: Row, error: string, maxAttempts: nat, now: int): Row {
    var r := Unlocked(row).(lastError := Some(Truncated(error)));
    if row.attemptCount >= maxAttempts then r.(status := Dead)
    else r.(status := Pending, nextAttemptAt := now + BackoffSeconds(row.attemptCount))
  }

  function Bury(row: Row, error: string): Row {
    Unlocked(row).(status := Dead, lastError := Some(Truncated(error)))
  }

  function Recover(row: Row, now: int): Row {
    Unlocked(row).(status := Pending, nextAttemptAt := Max(row.nextAttemptAt, now))
  }

  /** One persisted row, updated field by field as each transaction does. */
  class OutboxRow {
    const id: RowId
    var status: Status
    var attemptCount: nat
    var nextAttemptAt: int
    var lockedBy: Option<TaskId>
    var lockedUntil: Option<int>
    var providerMessageId: Option<string>
    var sentAt: Option<int>
    var lastError: Option<string>

    function Value(): Row
      reads this
    {
      Row(status, attemptCount, nextAttemptAt, lockedBy, lockedUntil, providerMessageId, sentAt, lastError)
    }

    constructor (id: RowId, now: int)
      ensures this.id == id && Value() == NewRow(now)
    {
      this.id := id;
      status, attemptCount, nextAttemptAt := Pending, 0, now;
      lockedBy, lockedUntil, providerMessageId, sentAt, lastError := None, None, None, None, None;
    }

    method ClaimOutbox(task: TaskId, now: int, lease: int) returns (claimed: Option<nat>)
      modifies this
      ensures claimed == if old(status) == Pending && old(nextAttemptAt) <= now then Some(old(attemptCount)) else None
      ensures claimed.None? ==> Value() == old(Value())
      ensures claimed.Some? ==>
                && status == Sending && lockedBy == Some(task) && lockedUntil == Some(now + lease)
                && Value() == old(Value()).(status := status, lockedBy := lockedBy, lockedUntil := lockedUntil)
      ensures Value() == if Claimable(old(Value()), now) then Claim(old(Value()), task, now, lease) else old(Value())
    {
      if status != Pending || now < nextAttemptAt {
        return None;
      }
      status := Sending;
      lockedBy := Some(task);
      lockedUntil := Some(now + lease);
      return Some(attemptCount);
    }

    method BumpAttempt(task: TaskId, now: int) returns (bumped: bool)
      modifies this
      ensures bumped == (&& old(status) == Sending && old(lockedBy) == Some(task)
                         && old(lockedUntil).Some? && now <= old(lockedUntil).value)
      ensures Value() == if bumped then old(Value()).(attemptCount := old(attemptCount) + 1) else old(Value())
      ensures bumped == Owned(old(Value()), task, now)
    {
      bumped := Owned(Value(), task, now);
      if bumped {
        attemptCount := attemptCount + 1;
      }
    }

    method MarkSent(task: TaskId, seen: int, now: int, messageId: Option<string>) returns (recorded: bool)
      modifies this
      ensures recorded == (&& old(status) == Sending && old(lockedBy) == Some(task)
                           && old(lockedUntil).Some? && seen <= old(lockedUntil).value)
      ensures !recorded ==> Value() == old(Value())
      ensures recorded ==>
                Value() == Row(Sent, old(attemptCount), old(nextAttemptAt), None, None, messageId, Some(now), None)
      ensures recorded == Owned(old(Value()), task, seen)
      ensures Value() == if recorded then Deliver(old(Value()), messageId, now) else old(Value())
    {
      recorded := Owned(Value(), task, seen);
      if recorded {
        status := Sent;
        providerMessageId := messageId;
        sentAt := Some(now);
        lockedBy := None;
        lockedUntil := None;
        lastError := None;
      }
    }

    /** Returns the status written, or None when the lease was lost. */
    method MarkFailure(task: TaskId, seen: int, now: int, error: string, maxAttempts: nat)
      returns (outcome: Option<Status>)
      modifies this
      ensures outcome.Some? <==> (&& old(status) == Sending && old(lockedBy) == Some(task)
                                  && old(lockedUntil).Some? && seen <= old(lockedUntil).value)
      ensures outcome.Some? ==> outcome.value == status == (if old(attemptCount) >= maxAttempts then Dead else Pending)
      ensures outcome.Some? ==>
                && lockedBy.None? && lockedUntil.None?
                && lastError == Some(error[..Min(|error|, 1000)])
                && nextAttemptAt == (if status == Dead then old(nextAttemptAt) else now + BackoffSeconds(attemptCount))
                && attemptCount == old(attemptCount) && sentAt == old(sentAt)
                && providerMessageId == old(providerMessageId)
      ensures outcome.Some? <==> Owned(old(Value()), task, seen)
      ensures Value() == if outcome.Some? then Fail(old(Value()), error, maxAttempts, now) else old(Value())
    {
      if !Owned(Value(), task, seen) {
        return None;
      }
      assert error[..|error|] == error;
      lastError := Some(Truncated(error));
      lockedBy := None;
      lockedUntil := None;
      if attemptCount >= maxAttempts {
        status := Dead;
      } else {
        status := Pending;
        nextAttemptAt := now + BackoffSeconds(attemptCount);
      }
      return Some(status);
    }

    method MarkDead(task: TaskId, seen: int, error: string) returns (recorded: bool)
      modifies this
      ensures recorded == (&& old(status) == Sending && old(lockedBy) == Some(task)
                           && old(lockedUntil).Some? && seen <= old(lockedUntil).value)
      ensures !recorded ==> Value() == old(Value())
      ensures recorded ==>
                var kept := error[..Min(|error|, 1000)];
                Value() == old(Value()).(status := Dead, lockedBy := None, lockedUntil := None, lastError := Some(kept))
      ensures recorded == Owned(old(Value()), task, seen)
      ensures Value() == if recorded then Bury(old(Value()), error) else old(Value())
    {
      recorded := Owned(Value(), task, seen);
      if recorded {
        assert error[..|error|] == error;
        status := Dead;
        lastError := Some(Truncated(error));
        lockedBy := None;
        lockedUntil := None;
      }
    }
  }

  lemma TruncatedIsPrefix(error: string)
    ensures Truncated(error) == error[..Min(|error|, 1000)]
  {
    assert error[..|error|] == error;
  }

  /** At one clock reading a lease is live, expired, or not held by the task. */
  lemma LiveOrExpired(row: Row, task: TaskId, now: int)
    ensures !(Owned(row, task, now) && Expired(row, now))
    ensures row.status == Sending && row.lockedBy == Some(task) && row.lockedUntil.Some? ==>
              && (Owned(row, task, now) <==> now <= row.lockedUntil.value)
              && (Expired(row, now) <==> row.lockedUntil.value < now)
  {
  }

  function NewRow(now: int): Row {
    Row(Pending, 0, now, None, None, None, None, None)
  }

  function SweptRow(row: Row, now: int): Row {
    if Expired(row, now) then Recover(row, now) else row
  }

  /** What a sweep leaves of a row, given the rows other transactions have locked. */
  function SweptUnlocked(row: Row, id: RowId, locked: set<RowId>, now: int): Row {
    if id in locked then row else SweptRow(row, now)
  }

  /** The first loop of `sweep_outbox`: every expired lease that is not locked by
      another transaction is recovered. */
  method RecoverExpired(table: seq<OutboxRow>, locked: set<RowId>, now: int)
    requires forall i, j :: 0 <= i < j < |table| ==> table[i] != table[j]
    modifies table
    ensures forall i :: 0 <= i < |table| ==>
              table[i].Value() == SweptUnlocked(old(table[i].Value()), table[i].id, locked, now)
  {
    for k := 0 to |table|
      invariant forall i :: 0 <= i < k ==>
                  table[i].Value() == SweptUnlocked(old(table[i].Value()), table[i].id, locked, now)
      invariant forall i :: k <= i < |table| ==> table[i].Value() == old(table[i].Value())
    {
      var row := table[k];
      if row.id !in locked && row.status == Sending && row.lockedUntil.Some? && row.lockedUntil.value < now {
        row.status := Pending;
        row.lockedBy := None;
        row.lockedUntil := None;
        if row.nextAttemptAt < now {
          row.nextAttemptAt := now;
        }
      }
    }
  }

  /** The due rows, in order. */
  method ListDue(table: seq<OutboxRow>, now: int) returns (due: seq<RowId>)
    ensures due == DueIds(seq(|table|, i requires 0 <= i < |table| => table[i].id),
                          seq(|table|, i requires 0 <= i < |table| reads table => table[i].Value()), now)
  {
    due := [];
    ghost var ids := seq(|table|, i requires 0 <= i < |table| => table[i].id);
    ghost var rows := seq(|table|, i requires 0 <= i < |table| reads table => table[i].Value());
    for k := 0 to |table|
      invariant due == DueIds(ids[..k], rows[..k], now)
    {
      assert ids[..k + 1] == ids[..k] + [table[k].id] && rows[..k + 1] == rows[..k] + [table[k].Value()];
      if table[k].status == Pending && table[k].nextAttemptAt <= now {
        due := due + [table[k].id];
      }
    }
    assert ids[..|table|] == ids && rows[..|table|] == rows;
  }

  /** `sweep_outbox`: every expired lease not locked by another transaction is recovered,
      so only locked rows may still have one, and exactly the due rows are returned. */
  method SweepOutbox(table: seq<OutboxRow>, locked: set<RowId>, now: int) returns (due: seq<RowId>)
    requires forall i, j :: 0 <= i < j < |table| ==> table[i] != table[j]
    modifies table
    ensures forall i :: 0 <= i < |table| ==>
              table[i].Value() == SweptUnlocked(old(table[i].Value()), table[i].id, locked, now)
    ensures forall i :: 0 <= i < |table| && Expired(table[i].Value(), now) ==> table[i].id in locked
    ensures due == DueIds(seq(|table|, i requires 0 <= i < |table| => table[i].id),
                          seq(|table|, i requires 0 <= i < |table| reads table => table[i].Value()), now)
  {
    RecoverExpired(table, locked, now);
    due := ListDue(table, now);
  }

  /** The ids of the claimable rows, in table order. */
  function DueIds(ids: seq<RowId>, rows: seq<Row>, now: int): seq<RowId>
    requires |ids| == |rows|
  {
    if |ids| == 0 then []
    else
      var last := |ids| - 1;
      DueIds(ids[..last], rows[..last], now) + if Claimable(rows[last], now) then [ids[last]] else []
  }
}
