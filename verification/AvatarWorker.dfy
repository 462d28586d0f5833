/** The mutable avatar tables and the service, worker and maintenance calls on
    them, each tied to the steps of the protocol. */
module AvatarWorker {
  import opened Prelude
  import opened Avatars
  import opened Batches

  // ---------------------------------------------------------------- the queries

  /** Uploads whose lease has run out, other than those another transaction has locked. */
  function LeaseExpired(uploads: seq<Option<Upload>>, locked: set<nat>, now: int): nat -> bool {
    (i: nat) =>
      && i < |uploads| && i !in locked && uploads[i].Some? && uploads[i].value.status.Processing?
      && uploads[i].value.leaseExpiresAt.Some? && uploads[i].value.leaseExpiresAt.value <= now
  }

  function LeaseEnd(uploads: seq<Option<Upload>>): nat -> int {
    (i: nat) => if i < |uploads| && uploads[i].Some? && uploads[i].value.leaseExpiresAt.Some?
                then uploads[i].value.leaseExpiresAt.value else 0
  }

  function SessionExpired(uploads: seq<Option<Upload>>, locked: set<nat>, now: int): nat -> bool {
    (i: nat) =>
      && i < |uploads| && i !in locked && uploads[i].Some? && uploads[i].value.status.Pending?
      && uploads[i].value.expiresAt <= now
  }

  function SessionEnd(uploads: seq<Option<Upload>>): nat -> int {
    (i: nat) => if i < |uploads| && uploads[i].Some? then uploads[i].value.expiresAt else 0
  }

  /** Current uploads a worker should be sent to. */
  function IsDue(uploads: seq<Option<Upload>>, now: int): nat -> bool {
    (i: nat) =>
      && i < |uploads| && uploads[i].Some? && uploads[i].value.status.Queued? && uploads[i].value.isCurrent
      && uploads[i].value.queuedAt.Some? && uploads[i].value.queuedAt.value <= now
  }

  function QueueTime(uploads: seq<Option<Upload>>): nat -> int {
    (i: nat) => if i < |uploads| && uploads[i].Some? && uploads[i].value.queuedAt.Some?
                then uploads[i].value.queuedAt.value else 0
  }

  function DeletionDue(deletions: seq<Deletion>, locked: set<nat>, now: int): nat -> bool {
    (d: nat) => d !in locked && DueRow(deletions, d, now)
  }

  predicate DueRow(deletions: seq<Deletion>, d: nat, now: int) {
    d < |deletions| && !deletions[d].completed && deletions[d].nextAttemptAt <= now
  }

  function DeletionTime(deletions: seq<Deletion>): nat -> int {
    (d: nat) => if d < |deletions| then deletions[d].nextAttemptAt else 0
  }

  // ---------------------------------------------------------------- as protocol steps

  function SweepSteps(ids: seq<nat>, now: int): seq<Step> {
    seq(|ids|, k requires 0 <= k < |ids| => SweepStep(ids[k], now))
  }

  /** What the two external calls for a deletion row did. */
  datatype Attempt = Attempt(removal: DeleteOutcome, purged: bool)

  function DeletionSteps(ids: seq<nat>, attempts: nat -> Attempt, now: int): seq<Step> {
    seq(|ids|,
        k requires 0 <= k < |ids| => DeletionStep(ids[k], attempts(ids[k]).removal, attempts(ids[k]).purged, now))
  }

  /** The listed rows that are complete. */
  ghost function Completed(deletions: seq<Deletion>, ids: seq<nat>): set<nat> {
    set d | d in ids && d < |deletions| && deletions[d].completed
  }

  lemma NoneCompleted(deletions: seq<Deletion>)
    ensures Completed(deletions, []) == {}
  {
  }

  lemma CompletedSnoc(deletions: seq<Deletion>, ids: seq<nat>, k: nat, row: Deletion)
    requires k < |ids| && ids[k] < |deletions| && ids[k] !in ids[..k]
    ensures |Completed(deletions[ids[k] := row], ids[..k + 1])|
        == |Completed(deletions, ids[..k])| + if row.completed then 1 else 0
  {
    var was, now := Completed(deletions, ids[..k]), Completed(deletions[ids[k] := row], ids[..k + 1]);
    assert ids[..k + 1] == ids[..k] + [ids[k]];
    assert now == if row.completed then was + {ids[k]} else was;
  }

  class AvatarTables {
    var users: seq<User>
    var uploads: seq<Option<Upload>>
    var deletions: seq<Deletion>
    var tasks: seq<Task>
    var objects: set<nat>
    var handedOver: set<nat>
    ghost var holders: seq<Holder>

    ghost function Current(): State
      reads this
    {
      State(users, uploads, deletions, tasks, objects, handedOver, holders)
    }

    constructor ()
      ensures Current() == Start
    {
      users, uploads, deletions, tasks := [], [], [], [];
      objects, handedOver, holders := {}, {}, [];
    }

    method SetRow(i: nat, row: Upload)
      requires i < |uploads|
      modifies this`uploads
      ensures uploads == old(uploads)[i := Some(row)]
    {
      uploads := uploads[i := Some(row)];
    }

    /** Supersedes the user's current uploads and opens a new one. */
    method CreateUpload(user: nat, now: int, config: Config) returns (id: Option<nat>)
      modifies this`uploads
      ensures Current() == Create(old(Current()), user, now, config)
      ensures id == if user < |users| && users[user].active then Some(old(|uploads|)) else None
    {
      if user >= |users| || !users[user].active {
        return None;
      }
      for i := 0 to |uploads|
        invariant |uploads| == old(|uploads|)
        invariant forall k :: 0 <= k < i ==> uploads[k] == Supersede(old(Current()), user, now)[k]
        invariant forall k :: i <= k < |uploads| ==> uploads[k] == old(uploads[k])
      {
        if uploads[i].Some? {
          var row := uploads[i].value;
          if row.user == user && row.isCurrent {
            if row.status.Pending? || row.status.Queued? {
              SetRow(i, row.(isCurrent := false, status := Expired, completedAt := Some(now)));
            } else if row.status.Processing? {
              SetRow(i, row.(isCurrent := false));
            }
          }
        }
      }
      assert uploads == Supersede(old(Current()), user, now);
      id := Some(|uploads|);
      uploads := uploads
        + [Some(Upload(user, Pending, true, 0, None, None, now + config.sessionTtl, None, None, None, false))];
    }

    /** Queues a live pending upload whose object checks out, expires one that is late or
        superseded, and leaves any other upload and every other row alone. */
    method ConfirmUpload(i: nat, now: int, valid: bool)
      modifies this`uploads
      ensures Current() == Confirm(old(Current()), i, now, valid)
      ensures |uploads| == old(|uploads|) && forall k :: 0 <= k < |uploads| && k != i ==> uploads[k] == old(uploads[k])
      ensures i < |uploads| && old(uploads[i]).Some? ==>
                var was, row := old(uploads[i]).value, uploads[i].value;
                && uploads[i].Some? && row.isCurrent == was.isCurrent && row.user == was.user
                && row.attempts == was.attempts && row.leaseOwner == was.leaseOwner
                && (row != was ==> was.status.Pending?)
                && (row.status.Queued? && !was.status.Queued? <==>
                      valid && was.status.Pending? && was.isCurrent && now < was.expiresAt)
                && (row.status.Expired? && !was.status.Expired? <==>
                      was.status.Pending? && (!was.isCurrent || was.expiresAt <= now))
    {
      if i >= |uploads| || uploads[i].None? || !uploads[i].value.status.Pending? {
        return;
      }
      var row := uploads[i].value;
      if row.expiresAt <= now || !row.isCurrent {
        row := row.(status := Expired, completedAt := Some(now));
      } else if valid {
        row := row.(status := Queued, queuedAt := Some(now));
      }
      uploads := uploads[i := Some(row)];
    }

    /** The claiming transaction of a worker task; `task` is its identity. */
    method ClaimUpload(i: nat, now: int, config: Config) returns (task: Option<nat>)
      modifies this`uploads, this`tasks
      ensures Current() == Claim(old(Current()), i, now, config)
      ensures task.Some? ==> task.value == old(|tasks|) < |tasks| && tasks[task.value].upload == i
      ensures task.None? ==> Current() == old(Current())
    {
      if i >= |uploads| || uploads[i].None? {
        return None;
      }
      var row := uploads[i].value;
      if row.user >= |users| || !row.status.Queued? || !row.isCurrent || !users[row.user].active {
        return None;
      }
      row := row.(status := Processing);
      row := row.(leaseOwner := Some(|tasks|), leaseExpiresAt := Some(now + config.lease));
      row := row.(attempts := row.attempts + 1);
      task := Some(|tasks|);
      uploads := uploads[i := Some(row)];
      tasks := tasks + [Task(i, row.attempts, Claimed)];
    }

    method CreateDeletion(upload: Option<nat>, key: nat, now: int)
      requires key < |holders|
      modifies this`deletions, this`holders
      ensures Current() == Condemn(old(Current()), upload, key, now)
    {
      holders := holders[key := Condemned(|deletions|)];
      deletions := deletions + [Deletion(upload, key, false, false, 0, now, false)];
    }

    /** The settling transaction of a task that stored its object: orphaned,
        superseded or published. */
    method SettleStoredObject(t: nat, now: int)
      requires t < |tasks| && tasks[t].progress.Stored? && tasks[t].progress.key < |holders|
      requires forall u :: 0 <= u < |users| && users[u].avatarKey.Some? ==> users[u].avatarKey.value < |holders|
      modifies this
      ensures Current() == SettleStored(old(Current()), t, now)
    {
      var i, key := tasks[t].upload, tasks[t].progress.key;
      tasks := tasks[t := tasks[t].(progress := Settled)];
      if i >= |uploads| || uploads[i].None? {
        CreateDeletion(None, key, now);
        return;
      }
      var row := uploads[i].value;
      if row.user >= |users| || !row.status.Processing? || row.leaseOwner != Some(t) || !row.isCurrent
          || !users[row.user].active {
        if row.status.Processing? && row.leaseOwner == Some(t) {
          var ended := row.(status := Expired, completedAt := Some(now), leaseOwner := None, leaseExpiresAt := None);
          uploads := uploads[i := Some(ended)];
        }
        assert uploads == old(uploads)[i := Some(UnpublishedRow(row, t, now))];
        CreateDeletion(Some(i), key, now);
        return;
      }
      var was := users[row.user].avatarKey;
      users := users[row.user := users[row.user].(avatarKey := Some(key))];
      row := row.(finalKey := Some(key), status := Succeeded, completedAt := Some(now));
      uploads := uploads[i := Some(row.(leaseOwner := None, leaseExpiresAt := None))];
      holders := holders[key := AvatarOf(row.user)];
      if was.Some? && was.value != key {
        CreateDeletion(Some(i), was.value, now);
      }
    }

    /** The settling transaction of a task whose rendering or writing failed. */
    method SettleFailure(t: nat, now: int, config: Config)
      requires t < |tasks| && (tasks[t].progress.Rejected? || tasks[t].progress.Broken?)
      modifies this`uploads, this`tasks
      ensures Current() == Settle(old(Current()), t, now, config)
    {
      hide PowerOfTwo;
      var task := tasks[t];
      tasks := tasks[t := task.(progress := Settled)];
      if task.upload < |uploads| && uploads[task.upload].Some? && uploads[task.upload].value.leaseOwner == Some(t) {
        var row := uploads[task.upload].value;
        row := row.(leaseOwner := None, leaseExpiresAt := None);
        if task.progress.Rejected? || task.attempt >= config.maxAttempts {
          row := row.(status := Failed, completedAt := Some(now));
        } else {
          row := row.(status := Queued, queuedAt := Some(now + PowerOfTwo(task.attempt)));
        }
        uploads := uploads[task.upload := Some(row)];
      }
    }

    /** The loop over the selected expired leases. */
    method RecoverLeases(ids: seq<nat>, now: int, config: Config)
      requires NoRepeats(ids) && forall l :: 0 <= l < |ids| ==> LeaseExpired(uploads, {}, now)(ids[l])
      modifies this`uploads
      ensures Current() == AfterAll(old(Current()), SweepSteps(ids, now), config)
    {
      hide AfterAll, After, NoRepeats;
      ghost var steps := SweepSteps(ids, now);
      NoSteps(Current(), config);
      assert steps[..0] == [];
      for k := 0 to |ids|
        invariant Current() == AfterAll(old(Current()), steps[..k], config)
        invariant |uploads| == old(|uploads|)
        invariant forall l :: k <= l < |ids| ==> ids[l] < |uploads| && uploads[ids[l]] == old(uploads)[ids[l]]
      {
        assert LeaseExpired(old(uploads), {}, now)(ids[k]);
        SweepOne(old(Current()), steps, k, ids[k], now, config);
        OtherIndices(ids, k);
        var row := uploads[ids[k]].value;
        row := row.(leaseOwner := None, leaseExpiresAt := None);
        if row.attempts >= config.maxAttempts {
          row := row.(status := Failed, completedAt := Some(now));
        } else {
          row := row.(status := Queued, queuedAt := Some(now));
        }
        uploads := uploads[ids[k] := Some(row)];
      }
      assert steps[..|ids|] == steps;
    }

    /** The loop over the selected expired sessions. */
    method ExpireSessions(ids: seq<nat>, now: int, config: Config)
      requires NoRepeats(ids) && forall l :: 0 <= l < |ids| ==> SessionExpired(uploads, {}, now)(ids[l])
      modifies this`uploads
      ensures Current() == AfterAll(old(Current()), SweepSteps(ids, now), config)
    {
      hide AfterAll, After, NoRepeats;
      ghost var steps := SweepSteps(ids, now);
      NoSteps(Current(), config);
      assert steps[..0] == [];
      for k := 0 to |ids|
        invariant Current() == AfterAll(old(Current()), steps[..k], config)
        invariant |uploads| == old(|uploads|)
        invariant forall l :: k <= l < |ids| ==> ids[l] < |uploads| && uploads[ids[l]] == old(uploads)[ids[l]]
      {
        assert SessionExpired(old(uploads), {}, now)(ids[k]);
        SweepOne(old(Current()), steps, k, ids[k], now, config);
        OtherIndices(ids, k);
        var row := uploads[ids[k]].value;
        uploads := uploads[ids[k] := Some(row.(status := Expired, completedAt := Some(now)))];
      }
      assert steps[..|ids|] == steps;
    }

    /** A maintenance sweep: the oldest expired leases and sessions that no other
        transaction has locked, up to the batch size each, are that many single steps of
        the protocol, and the oldest due uploads are returned. */
    method SweepUploads(locked: set<nat>, batchSize: nat, now: int, config: Config) returns (due: seq<nat>)
      modifies this`uploads
      ensures var was := old(Current());
              var leases :=
                  Batch(|was.uploads|, LeaseExpired(was.uploads, locked, now), LeaseEnd(was.uploads), batchSize);
              var mid := AfterAll(was, SweepSteps(leases, now), config);
              var sessions :=
                  Batch(|mid.uploads|, SessionExpired(mid.uploads, locked, now), SessionEnd(mid.uploads), batchSize);
              && Current() == AfterAll(mid, SweepSteps(sessions, now), config)
              && due == Batch(|uploads|, IsDue(uploads, now), QueueTime(uploads), batchSize)
    {
      hide AfterAll, Batch;
      var leases := Batch(|uploads|, LeaseExpired(uploads, locked, now), LeaseEnd(uploads), batchSize);
      BatchIsOldest(|uploads|, LeaseExpired(uploads, locked, now), LeaseEnd(uploads), batchSize);
      RecoverLeases(leases, now, config);
      var sessions := Batch(|uploads|, SessionExpired(uploads, locked, now), SessionEnd(uploads), batchSize);
      BatchIsOldest(|uploads|, SessionExpired(uploads, locked, now), SessionEnd(uploads), batchSize);
      ExpireSessions(sessions, now, config);
      due := Batch(|uploads|, IsDue(uploads, now), QueueTime(uploads), batchSize);
    }

    /** One pass over the oldest due deletion rows that are not locked, up to the batch
        size: that many single steps of the protocol; `completed` counts those now done. */
    method ProcessDeletions(locked: set<nat>, batchSize: nat, attempts: nat -> Attempt, now: int, config: Config)
      returns (completed: nat)
      modifies this`deletions, this`objects
      ensures var was := old(Current());
              var ids := Batch(|was.deletions|, DeletionDue(was.deletions, locked, now), DeletionTime(was.deletions),
                  batchSize);
              && Current() == AfterAll(was, DeletionSteps(ids, attempts, now), config)
              && completed == |Completed(deletions, ids)|
    {
      hide Batch;
      var ids := Batch(|deletions|, DeletionDue(deletions, locked, now), DeletionTime(deletions), batchSize);
      BatchIsOldest(|deletions|, DeletionDue(deletions, locked, now), DeletionTime(deletions), batchSize);
      completed := TryDeletions(ids, attempts, now, config);
    }

    method TryDeletions(ids: seq<nat>, attempts: nat -> Attempt, now: int, config: Config) returns (completed: nat)
      requires NoRepeats(ids) && forall l :: 0 <= l < |ids| ==> DueRow(deletions, ids[l], now)
      modifies this`deletions, this`objects
      ensures Current() == AfterAll(old(Current()), DeletionSteps(ids, attempts, now), config)
      ensures |deletions| == old(|deletions|)
      ensures completed == |Completed(deletions, ids)|
    {
      hide AfterAll, After, NoRepeats, TryDeletion, Completed;
      NoneCompleted(deletions);
      ghost var steps := DeletionSteps(ids, attempts, now);
      NoSteps(Current(), config);
      assert steps[..0] == [];
      completed := 0;
      assert ids[..0] == [];
      for k := 0 to |ids|
        invariant Current() == AfterAll(old(Current()), steps[..k], config)
        invariant |deletions| == old(|deletions|)
        invariant forall l :: k <= l < |ids| ==> DueRow(deletions, ids[l], now)
        invariant completed == |Completed(deletions, ids[..k])|
      {
        DeleteOne(old(Current()), steps, k, config);
        OtherIndices(ids, k);
        ghost var before := deletions;
        var row := TryRow(ids[k], attempts(ids[k]), now);
        CompletedSnoc(before, ids, k, row);
        if row.completed {
          completed := completed + 1;
        }
      }
      assert steps[..|ids|] == steps && ids[..|ids|] == ids;
    }

    /** The two external calls for one row and what is recorded of them. */
    method TryRow(d: nat, attempt: Attempt, now: int) returns (row: Deletion)
      requires DueRow(deletions, d, now)
      modifies this`deletions, this`objects
      ensures Current() == TryDeletion(old(Current()), d, attempt.removal, attempt.purged, now)
      ensures deletions == old(deletions)[d := row]
    {
      hide DeletionDelay;
      row := deletions[d];
      row := row.(attempts := row.attempts + 1);
      if !row.objectDeleted {
        if !attempt.removal.NotRemoved? {
          objects := objects - {row.key};
        }
        row := row.(objectDeleted := attempt.removal.Removed?);
      }
      row := row.(cdnPurged := row.cdnPurged || attempt.purged);
      if row.objectDeleted && row.cdnPurged {
        row := row.(completed := true);
      } else {
        row := row.(nextAttemptAt := now + DeletionDelay(row.attempts));
      }
      deletions := deletions[d := row];
    }
  }

  lemma OtherIndices(ids: seq<nat>, k: nat)
    requires NoRepeats(ids) && k < |ids|
    ensures forall l :: k < l < |ids| ==> ids[l] != ids[k]
    ensures ids[k] !in ids[..k]
  {
  }

  /** One more upload of a sweep. */
  lemma SweepOne(s: State, steps: seq<Step>, k: nat, i: nat, now: int, config: Config)
    requires k < |steps| && steps[k] == SweepStep(i, now)
    ensures AfterAll(s, steps[..k + 1], config) == Sweep(AfterAll(s, steps[..k], config), i, now, config)
  {
    AfterSnoc(s, steps[..k], steps[k], config);
    assert steps[..k + 1] == steps[..k] + [steps[k]];
  }

  lemma DeleteOne(s: State, steps: seq<Step>, k: nat, config: Config)
    requires k < |steps| && steps[k].DeletionStep?
    ensures AfterAll(s, steps[..k + 1], config)
         == TryDeletion(AfterAll(s, steps[..k], config), steps[k].deletion, steps[k].removal, steps[k].purged,
             steps[k].now)
  {
    AfterSnoc(s, steps[..k], steps[k], config);
    assert steps[..k + 1] == steps[..k] + [steps[k]];
  }

  /** What each maintenance query selects, told by the rows. */
  lemma QueriesSelect(uploads: seq<Option<Upload>>, locked: set<nat>, now: int, i: nat)
    requires i < |uploads| && uploads[i].Some?
    ensures var row := uploads[i].value;
      && (LeaseExpired(uploads, locked, now)(i) <==>
            i !in locked && row.status == Processing && row.leaseExpiresAt.Some? && row.leaseExpiresAt.value <= now)
      && (SessionExpired(uploads, locked, now)(i) <==>
            i !in locked && row.status == Pending && row.expiresAt <= now)
      && (IsDue(uploads, now)(i) <==>
            row.status == Queued && row.isCurrent && row.queuedAt.Some? && row.queuedAt.value <= now)
      && (row.leaseExpiresAt.Some? ==> LeaseEnd(uploads)(i) == row.leaseExpiresAt.value)
      && SessionEnd(uploads)(i) == row.expiresAt
      && (row.queuedAt.Some? ==> QueueTime(uploads)(i) == row.queuedAt.value)
  {
  }

  lemma DeletionQuerySelects(deletions: seq<Deletion>, locked: set<nat>, now: int, d: nat)
    requires d < |deletions|
    ensures DeletionDue(deletions, locked, now)(d) <==>
              d !in locked && !deletions[d].completed && deletions[d].nextAttemptAt <= now
    ensures DeletionTime(deletions)(d) == deletions[d].nextAttemptAt
  {
  }
}
