/** What every interleaving of avatar steps keeps about the upload rows. */
module AvatarSafety {
  import opened Prelude
  import opened Avatars

  // ---------------------------------------------------------------- upload rows

  /** The first attempt is made whatever the configured maximum. */
  function AttemptCap(config: Config): int {
    Max(config.maxAttempts, 1)
  }

  ghost predicate RowGood(s: State, i: nat, row: Upload, config: Config) {
    && row.user < |s.users| && row.attempts <= AttemptCap(config)
    && (row.status.Pending? || row.status.Queued? ==> row.attempts < AttemptCap(config))
    && (row.status.Processing? <==> row.leaseOwner.Some?) && (row.status.Processing? <==> row.leaseExpiresAt.Some?)
    && (row.status.Succeeded? ==> row.isCurrent)
    && (row.leaseOwner.Some? ==>
          && row.leaseOwner.value < |s.tasks| && s.tasks[row.leaseOwner.value].upload == i
          && s.tasks[row.leaseOwner.value].attempt == row.attempts)
  }

  ghost predicate RowOk(s: State, i: nat, config: Config) {
    HasUpload(s, i) ==> RowGood(s, i, s.uploads[i].value, config)
  }

  ghost predicate RowsOk(s: State, config: Config) {
    forall i: nat :: RowOk(s, i, config)
  }

  /** A current upload that may still be published. */
  predicate Contends(s: State, i: nat) {
    HasUpload(s, i) && s.uploads[i].value.isCurrent && IsLive(s.uploads[i].value.status)
  }

  ghost predicate OneContender(s: State) {
    forall i: nat, j: nat :: Contends(s, i) && Contends(s, j) && s.uploads[i].value.user == s.uploads[j].value.user ==>
        i == j
  }

  ghost predicate UploadInv(s: State, config: Config) {
    RowsOk(s, config) && OneContender(s)
  }

  /** Users are only added and tasks keep their claim. */
  ghost predicate Grows(s: State, t: State) {
    && |s.users| <= |t.users| && |s.tasks| <= |t.tasks|
    && forall k :: 0 <= k < |s.tasks| ==>
       t.tasks[k].upload == s.tasks[k].upload && t.tasks[k].attempt == s.tasks[k].attempt
  }

  /** An upload that a step leaves alone, drops, or changes without making it current. */
  ghost predicate Ages(s: State, t: State, i: nat) {
    HasUpload(t, i) ==>
      && HasUpload(s, i) && t.uploads[i].value.user == s.uploads[i].value.user
      && (t.uploads[i].value.isCurrent ==> s.uploads[i].value.isCurrent)
      && (IsLive(t.uploads[i].value.status) ==> IsLive(s.uploads[i].value.status))
  }

  lemma GoodGrows(s: State, t: State, i: nat, row: Upload, config: Config)
    requires Grows(s, t) && RowGood(s, i, row, config)
    ensures RowGood(t, i, row, config)
  {
  }

  /** A step whose every upload row ages into a good row keeps the invariant. */
  lemma AgingKeepsInv(s: State, t: State, config: Config)
    requires UploadInv(s, config)
    requires forall i: nat :: Ages(s, t, i) && RowOk(t, i, config)
    ensures UploadInv(t, config)
  {
    hide RowOk, IsLive;
    forall i: nat, j: nat | Contends(t, i) && Contends(t, j) && t.uploads[i].value.user == t.uploads[j].value.user
      ensures i == j
    {
      AgingContends(s, t, i);
      AgingContends(s, t, j);
    }
  }

  lemma AgingContends(s: State, t: State, i: nat)
    requires Ages(s, t, i) && Contends(t, i)
    ensures Contends(s, i) && s.uploads[i].value.user == t.uploads[i].value.user
  {
  }

  /** A step that rewrites at most upload `i`. */
  lemma OneRowKeepsInv(s: State, t: State, i: nat, row: Upload, config: Config)
    requires UploadInv(s, config) && Grows(s, t) && HasUpload(s, i)
    requires t.uploads == s.uploads[i := Some(row)]
    requires RowGood(t, i, row, config) && row.user == s.uploads[i].value.user
    requires row.isCurrent ==> s.uploads[i].value.isCurrent
    requires IsLive(row.status) ==> IsLive(s.uploads[i].value.status)
    ensures UploadInv(t, config)
  {
    hide IsLive;
    forall j: nat ensures Ages(s, t, j) && RowOk(t, j, config) {
      assert RowOk(s, j, config);
      if j != i && HasUpload(t, j) {
        GoodGrows(s, t, j, s.uploads[j].value, config);
      }
    }
    AgingKeepsInv(s, t, config);
  }

  lemma NoRowKeepsInv(s: State, t: State, config: Config)
    requires UploadInv(s, config) && Grows(s, t) && t.uploads == s.uploads
    ensures UploadInv(t, config)
  {
    forall j: nat ensures Ages(s, t, j) && RowOk(t, j, config) {
      assert RowOk(s, j, config);
      if HasUpload(t, j) {
        GoodGrows(s, t, j, s.uploads[j].value, config);
      }
    }
    AgingKeepsInv(s, t, config);
  }

  // ---------------------------------------------------------------- each step

  lemma CreateKeepsInv(s: State, user: nat, now: int, config: Config)
    requires UploadInv(s, config)
    ensures UploadInv(Create(s, user, now, config), config)
  {
    if user < |s.users| && s.users[user].active {
      var t := Create(s, user, now, config);
      var n := |s.uploads|;
      var cut := s.(uploads := Supersede(s, user, now));
      forall j: nat ensures Ages(s, cut, j) && RowOk(cut, j, config) {
        assert RowOk(s, j, config);
      }
      AgingKeepsInv(s, cut, config);
      assert forall j :: 0 <= j < n ==> t.uploads[j] == cut.uploads[j];
      forall j: nat ensures RowOk(t, j, config) {
        assert RowOk(cut, j, config);
      }
      NewcomerContendsAlone(cut, t, user);
    }
  }

  lemma NewcomerContendsAlone(s: State, t: State, user: nat)
    requires OneContender(s) && |t.uploads| == |s.uploads| + 1 && t.uploads[..|s.uploads|] == s.uploads
    requires forall i: nat :: Contends(s, i) ==> s.uploads[i].value.user != user
    requires t.uploads[|s.uploads|].Some? && t.uploads[|s.uploads|].value.user == user
    ensures OneContender(t)
  {
    hide IsLive;
    forall i: nat | i < |s.uploads| ensures t.uploads[i] == s.uploads[i] && (Contends(t, i) <==> Contends(s, i)) {
      assert t.uploads[i] == t.uploads[..|s.uploads|][i];
    }
  }

  lemma ClaimKeepsInv(s: State, i: nat, now: int, config: Config)
    requires UploadInv(s, config)
    ensures UploadInv(Claim(s, i, now, config), config)
  {
    var t := Claim(s, i, now, config);
    assert RowOk(s, i, config);
    if t != s {
      OneRowKeepsInv(s, t, i, t.uploads[i].value, config);
    }
  }

  lemma SettleStoredKeepsInv(s: State, t: nat, now: int, config: Config)
    requires UploadInv(s, config) && t < |s.tasks| && s.tasks[t].progress.Stored?
        && s.tasks[t].progress.key < |s.holders|
    ensures UploadInv(SettleStored(s, t, now), config)
  {
    var after, i := SettleStored(s, t, now), s.tasks[t].upload;
    assert RowOk(s, i, config);
    if HasUpload(s, i) {
      OneRowKeepsInv(s, after, i, after.uploads[i].value, config);
    } else {
      NoRowKeepsInv(s, after, config);
    }
  }

  lemma SettleKeepsInv(s: State, t: nat, now: int, config: Config)
    requires UploadInv(s, config)
    ensures UploadInv(Settle(s, t, now, config), config)
  {
    hide UploadInv, SettleStored;
    if t < |s.tasks| {
      var after, i := Settle(s, t, now, config), s.tasks[t].upload;
      if s.tasks[t].progress.Stored? {
        if s.tasks[t].progress.key < |s.holders| {
          SettleStoredKeepsInv(s, t, now, config);
        }
      } else if (s.tasks[t].progress.Rejected? || s.tasks[t].progress.Broken?)
                && HasUpload(s, i) && s.uploads[i].value.leaseOwner == Some(t) {
        LeasedRow(s, i, config);
        OneRowKeepsInv(s, after, i, after.uploads[i].value, config);
      } else {
        NoRowKeepsInv(s, after, config);
      }
    }
  }

  /** The owner of a lease knows the attempt it is on. */
  lemma LeasedRow(s: State, i: nat, config: Config)
    requires UploadInv(s, config) && HasUpload(s, i)
    ensures RowGood(s, i, s.uploads[i].value, config)
  {
    assert RowOk(s, i, config);
  }

  lemma WithdrawKeepsInv(s: State, user: nat, onlyCurrent: bool, now: int, config: Config)
    requires UploadInv(s, config)
    ensures UploadInv(Withdraw(s, user, onlyCurrent, now), config)
  {
    var t := Withdraw(s, user, onlyCurrent, now);
    forall j: nat ensures Ages(s, t, j) && RowOk(t, j, config) {
      assert RowOk(s, j, config);
    }
    AgingKeepsInv(s, t, config);
  }

  lemma DeactivateKeepsInv(s: State, user: nat, now: int, config: Config)
    requires UploadInv(s, config)
    ensures UploadInv(Deactivate(s, user, now), config)
  {
    hide UploadInv;
    if user < |s.users| {
      WithdrawKeepsInv(s, user, false, now, config);
      NoRowKeepsInv(Withdraw(s, user, false, now), Deactivate(s, user, now), config);
    }
  }

  lemma PurgeKeepsInv(s: State, i: nat, now: int, config: Config)
    requires UploadInv(s, config)
    ensures UploadInv(Purge(s, i, now, config), config)
  {
    var t := Purge(s, i, now, config);
    forall j: nat ensures Ages(s, t, j) && RowOk(t, j, config) {
      assert RowOk(s, j, config);
    }
    AgingKeepsInv(s, t, config);
  }

  /** Steps on one upload row that touch nothing else. */
  lemma RowStepKeepsInv(s: State, step: Step, config: Config)
    requires UploadInv(s, config) && (step.ConfirmStep? || step.SweepStep? || step.TemporaryStep?)
    ensures UploadInv(After(s, step, config), config)
  {
    var t, i := After(s, step, config), step.upload;
    if HasUpload(s, i) {
      LeasedRow(s, i, config);
      hide UploadInv;
      OneRowKeepsInv(s, t, i, t.uploads[i].value, config);
    }
  }

  lemma StepKeepsUploads(s: State, step: Step, config: Config)
    requires UploadInv(s, config)
    ensures UploadInv(After(s, step, config), config)
  {
    hide UploadInv, Create, Claim, Settle, Withdraw, Purge, Deactivate;
    var t := After(s, step, config);
    match step
    case CreateStep(user, now) => CreateKeepsInv(s, user, now, config);
    case ConfirmStep(_, _, _) => RowStepKeepsInv(s, step, config);
    case SweepStep(_, _) => RowStepKeepsInv(s, step, config);
    case TemporaryStep(_) => RowStepKeepsInv(s, step, config);
    case ClaimStep(upload, now) => ClaimKeepsInv(s, upload, now, config);
    case SettleStep(task, now) => SettleKeepsInv(s, task, now, config);
    case PurgeStep(upload, now) => PurgeKeepsInv(s, upload, now, config);
    case WithdrawStep(user, now) => WithdrawKeepsInv(s, user, true, now, config);
    case DeactivateStep(user, now) => DeactivateKeepsInv(s, user, now, config);
    case AddUser => NoRowKeepsInv(s, t, config);
    case WriteStep(_, _) => NoRowKeepsInv(s, t, config);
    case CrashStep(_) => NoRowKeepsInv(s, t, config);
    case DeletionStep(_, _, _, _) => NoRowKeepsInv(s, t, config);
    case TakeOverStep(_, _) => NoRowKeepsInv(s, t, config);
    case FileServiceDeletes(_) => NoRowKeepsInv(s, t, config);
  }

  lemma {:induction false} EveryHistoryKeepsUploads(steps: seq<Step>, config: Config)
    ensures UploadInv(AfterAll(Start, steps, config), config)
  {
    hide After;
    if steps != [] {
      EveryHistoryKeepsUploads(steps[..|steps| - 1], config);
      StepKeepsUploads(AfterAll(Start, steps[..|steps| - 1], config), steps[|steps| - 1], config);
    }
  }

  // ---------------------------------------------------------------- what follows

  /** In every history the attempts of an upload stay within the maximum, an upload
      is being processed exactly while its lease is owned, only current uploads
      have succeeded, and a user has at most one current upload still in progress. */
  lemma AttemptsStayBounded(steps: seq<Step>, config: Config, i: nat, j: nat)
    requires HasUpload(AfterAll(Start, steps, config), i)
    ensures var s := AfterAll(Start, steps, config);
            var row := s.uploads[i].value;
            && row.attempts <= AttemptCap(config) && (row.status.Queued? ==> row.attempts < AttemptCap(config))
            && (row.status.Processing? <==> row.leaseOwner.Some?) && (row.status.Succeeded? ==> row.isCurrent)
            && (Contends(s, i) && Contends(s, j) && s.uploads[j].value.user == row.user ==> i == j)
  {
    EveryHistoryKeepsUploads(steps, config);
    hide AfterAll;
    LeasedRow(AfterAll(Start, steps, config), i, config);
  }

  ghost predicate IsSuperseded(s: State, i: nat) {
    i < |s.uploads| && (HasUpload(s, i) ==> !s.uploads[i].value.isCurrent)
  }

  lemma SupersededStays(s: State, step: Step, i: nat, config: Config)
    requires IsSuperseded(s, i)
    ensures IsSuperseded(After(s, step, config), i)
  {
    hide IsLive, PowerOfTwo, DeletionDelay;
    match step
    case SettleStep(task, now) => SettleAges(s, task, now, i, config);
    case _ =>
  }

  lemma SettleAges(s: State, task: nat, now: int, i: nat, config: Config)
    requires IsSuperseded(s, i)
    ensures IsSuperseded(Settle(s, task, now, config), i)
  {
    hide PowerOfTwo;
  }

  /** Once superseded, withdrawn or purged, an upload never becomes current again
      and is never published, whatever its workers still do. */
  lemma {:induction false} SupersededIsNeverPublished(before: seq<Step>, later: seq<Step>, i: nat, config: Config)
    requires IsSuperseded(AfterAll(Start, before, config), i)
    ensures var s := AfterAll(Start, before + later, config);
            IsSuperseded(s, i) && (HasUpload(s, i) ==> !s.uploads[i].value.status.Succeeded?)
    decreases |later|
  {
    hide After;
    if later == [] {
      assert before + later == before;
    } else {
      var front := later[..|later| - 1];
      assert (before + later)[..|before + later| - 1] == before + front;
      SupersededIsNeverPublished(before, front, i, config);
      SupersededStays(AfterAll(Start, before + front, config), later[|later| - 1], i, config);
    }
    EveryHistoryKeepsUploads(before + later, config);
    if HasUpload(AfterAll(Start, before + later, config), i) {
      LeasedRow(AfterAll(Start, before + later, config), i, config);
    }
  }

  /** A user's avatar changes to a key only when the task that stored it settles while
      it owns the lease of that user's current upload and the user is active. */
  lemma AvatarsChangeOnlyByTheOwner(s: State, step: Step, u: nat, config: Config)
    requires u < |s.users|
    ensures var t := After(s, step, config);
            && u < |t.users|
            && (t.users[u].avatarKey.Some? && t.users[u].avatarKey != s.users[u].avatarKey ==>
                  && step.SettleStep? && step.task < |s.tasks|
                     && s.tasks[step.task].progress == Stored(t.users[u].avatarKey.value)
                  && HasUpload(s, s.tasks[step.task].upload)
                  && var row := s.uploads[s.tasks[step.task].upload].value;
                     && row.user == u && s.users[u].active && row.isCurrent
                     && row.status.Processing? && row.leaseOwner == Some(step.task))
  {
    hide PowerOfTwo, DeletionDelay, Supersede, IsLive;
  }

  /** A task that stored its object but no longer owns the lease, or whose upload is gone,
      publishes nothing and touches no upload: it only queues its own object for deletion. */
  lemma LostLeaseOnlyDiscards(s: State, t: nat, now: int, config: Config)
    requires t < |s.tasks| && s.tasks[t].progress.Stored? && s.tasks[t].progress.key < |s.holders|
    requires var i := s.tasks[t].upload; HasUpload(s, i) ==> s.uploads[i].value.leaseOwner != Some(t)
    ensures var after, i := After(s, SettleStep(t, now), config), s.tasks[t].upload;
            && after.users == s.users && after.uploads == s.uploads && after.objects == s.objects
            && after.tasks == s.tasks[t := s.tasks[t].(progress := Settled)]
            && after.deletions == s.deletions + [Deletion(if HasUpload(s, i) then Some(i) else None,
                                                          s.tasks[t].progress.key, false, false, 0, now, false)]
  {
  }

  /** The lease owner of a current upload of an active user publishes: the avatar becomes
      its object, the upload succeeds with it, and a former avatar is queued for deletion. */
  lemma OwnerPublishes(s: State, t: nat, now: int, config: Config)
    requires t < |s.tasks| && s.tasks[t].progress.Stored? && s.tasks[t].progress.key < |s.holders|
    requires var i := s.tasks[t].upload;
             && HasUpload(s, i) && s.uploads[i].value.user < |s.users| && s.users[s.uploads[i].value.user].active
             && s.uploads[i].value.status.Processing? && s.uploads[i].value.leaseOwner == Some(t)
             && s.uploads[i].value.isCurrent
    requires forall u :: 0 <= u < |s.users| && s.users[u].avatarKey.Some? ==> s.users[u].avatarKey.value < |s.holders|
    ensures var after, i, key := After(s, SettleStep(t, now), config), s.tasks[t].upload, s.tasks[t].progress.key;
            var row := s.uploads[i].value;
            var was := s.users[row.user].avatarKey;
            && after.users == s.users[row.user := s.users[row.user].(avatarKey := Some(key))]
            && after.uploads[..i] == s.uploads[..i] && after.uploads[i + 1..] == s.uploads[i + 1..]
            && after.uploads[i] == Some(row.(status := Succeeded, finalKey := Some(key), completedAt := Some(now),
                                             leaseOwner := None, leaseExpiresAt := None))
            && after.deletions == s.deletions +
                 if was.None? || was.value == key then []
                 else [Deletion(Some(i), was.value, false, false, 0, now, false)]
  {
  }

  /** What a settling task leaves of an upload whose lease it owns. */
  function SettledRow(row: Upload, task: Task, active: bool, now: int, config: Config): Upload {
    var freed := row.(leaseOwner := None, leaseExpiresAt := None);
    match task.progress
    case Rejected => freed.(status := Failed, completedAt := Some(now))
    case Broken =>
      if task.attempt >= config.maxAttempts then freed.(status := Failed, completedAt := Some(now))
      else freed.(status := Queued, queuedAt := Some(now + PowerOfTwo(task.attempt)))
    case Stored(key) =>
      if row.isCurrent && active then freed.(status := Succeeded, finalKey := Some(key), completedAt := Some(now))
      else freed.(status := Expired, completedAt := Some(now))
    case _ => row
  }

  /** What each step makes of an upload row, field by field. */
  lemma UploadsChangeAsRecorded(s: State, step: Step, config: Config, i: nat)
    requires HasUpload(s, i) && s.uploads[i].value.user < |s.users| && !step.SettleStep?
    ensures i < |After(s, step, config).uploads|
    ensures var row := s.uploads[i].value;
      After(s, step, config).uploads[i] ==
      match step
      case CreateStep(user, now) =>
        if user >= |s.users| || !s.users[user].active || row.user != user || !row.isCurrent then Some(row)
        else if row.status.Pending? || row.status.Queued? then
          Some(row.(isCurrent := false, status := Expired, completedAt := Some(now)))
        else if row.status.Processing? then Some(row.(isCurrent := false))
        else Some(row)
      case ConfirmStep(upload, now, valid) =>
        if upload != i || !row.status.Pending? then Some(row)
        else if row.expiresAt <= now || !row.isCurrent then Some(row.(status := Expired, completedAt := Some(now)))
        else if valid then Some(row.(status := Queued, queuedAt := Some(now)))
        else Some(row)
      case ClaimStep(upload, now) =>
        if upload == i && row.status.Queued? && row.isCurrent && s.users[row.user].active then
          Some(row.(status := Processing, attempts := row.attempts + 1, leaseOwner := Some(|s.tasks|),
                    leaseExpiresAt := Some(now + config.lease)))
        else Some(row)
      case SweepStep(upload, now) =>
        if upload != i then Some(row)
        else if row.status.Processing? && row.leaseExpiresAt.Some? && row.leaseExpiresAt.value <= now then
          var freed := row.(leaseOwner := None, leaseExpiresAt := None);
          Some(if row.attempts >= config.maxAttempts then freed.(status := Failed, completedAt := Some(now))
               else freed.(status := Queued, queuedAt := Some(now)))
        else if row.status.Pending? && row.expiresAt <= now then Some(row.(status := Expired, completedAt := Some(now)))
        else Some(row)
      case TemporaryStep(upload) => if upload == i then Some(row.(temporaryDeleted := true)) else Some(row)
      case PurgeStep(upload, now) =>
        if && upload == i && row.completedAt.Some? && row.completedAt.value <= now - config.retention
           && row.temporaryDeleted
           && forall d :: 0 <= d < |s.deletions| ==> s.deletions[d].upload == Some(i) ==> s.deletions[d].completed
        then None else Some(row)
      case WithdrawStep(user, now) =>
        if row.user != user || !row.isCurrent || row.status.Succeeded? || row.status.Failed? || row.status.Expired?
        then Some(row)
        else Some(row.(isCurrent := false, status := Expired, completedAt := Some(now),
                       leaseOwner := None, leaseExpiresAt := None))
      case DeactivateStep(user, now) =>
        if user >= |s.users| || row.user != user || row.status.Succeeded? || row.status.Failed? || row.status.Expired?
        then Some(row)
        else Some(row.(isCurrent := false, status := Expired, completedAt := Some(now),
                       leaseOwner := None, leaseExpiresAt := None))
      case _ => Some(row)
  {
    hide DeletionDelay;
  }

  lemma SettlesAsRecorded(s: State, t: nat, now: int, config: Config, i: nat)
    requires HasUpload(s, i) && s.uploads[i].value.user < |s.users|
    requires t < |s.tasks| && s.tasks[t].progress.Stored? ==> s.tasks[t].progress.key < |s.holders|
    requires s.uploads[i].value.leaseOwner.Some? ==> s.uploads[i].value.status.Processing?
    ensures i < |After(s, SettleStep(t, now), config).uploads|
    ensures var row := s.uploads[i].value;
      After(s, SettleStep(t, now), config).uploads[i] ==
        if t < |s.tasks| && s.tasks[t].upload == i && row.leaseOwner == Some(t)
        then Some(SettledRow(row, s.tasks[t], s.users[row.user].active, now, config)) else Some(row)
  {
    hide PowerOfTwo;
  }

  /** A new upload is pending, current and unleased, and expires with its session. */
  lemma CreatedUpload(s: State, user: nat, now: int, config: Config)
    requires user < |s.users| && s.users[user].active
    ensures var after := After(s, CreateStep(user, now), config);
            && |after.uploads| == |s.uploads| + 1
            && after.uploads[|s.uploads|] ==
                 Some(Upload(user, Pending, true, 0, None, None, now + config.sessionTtl, None, None, None, false))
  {
  }

  /** What a try leaves of a due deletion row: both calls' successes are remembered, it
      is complete once both are done, and otherwise waits twice as long each time, from
      one minute up to six hours at most. */
  lemma DeletionTriesAsRecorded(s: State, d: nat, removal: DeleteOutcome, purged: bool, now: int, config: Config)
    requires d < |s.deletions| && !s.deletions[d].completed && s.deletions[d].nextAttemptAt <= now
    ensures var after := After(s, DeletionStep(d, removal, purged, now), config);
            var was, row := s.deletions[d], after.deletions[d];
            && |after.deletions| == |s.deletions| && row.key == was.key && row.upload == was.upload
            && row.attempts == was.attempts + 1
            && (row.objectDeleted <==> was.objectDeleted || removal.Removed?)
            && (row.cdnPurged <==> was.cdnPurged || purged)
            && (row.completed <==> row.objectDeleted && row.cdnPurged)
            && (!row.completed ==>
                  row.nextAttemptAt == now + Min(21600, 60 * PowerOfTwo(Min(was.attempts, 8))))
            && after.objects == s.objects - if was.objectDeleted || removal.NotRemoved? then {} else {was.key}
  {
    hide PowerOfTwo;
  }

  /** What a claim starts and where a write, a settlement or a crash takes a task. */
  lemma TasksMoveAsRecorded(s: State, step: Step, config: Config, t: nat)
    requires t < |s.tasks|
    ensures t < |After(s, step, config).tasks|
    ensures var was := s.tasks[t];
      After(s, step, config).tasks[t] ==
      match step
      case WriteStep(task, outcome) =>
        if task != t || was.progress != Claimed then was
        else was.(progress := match outcome
                              case Wrote => Stored(|s.holders|)
                              case WasRejected => Rejected
                              case RaisedBefore => Broken
                              case RaisedAfter => Broken)
      case SettleStep(task, _) =>
        if task != t || was.progress.Claimed? || was.progress.Dead?
           || (was.progress.Stored? && was.progress.key >= |s.holders|)
        then was else was.(progress := Settled)
      case CrashStep(task) => if task == t then was.(progress := Dead) else was
      case _ => was
  {
    hide PowerOfTwo, DeletionDelay, Supersede, IsLive;
  }

  lemma ClaimsStartTasks(s: State, i: nat, now: int, config: Config)
    ensures var after := After(s, ClaimStep(i, now), config);
            if && HasUpload(s, i) && s.uploads[i].value.user < |s.users| && s.users[s.uploads[i].value.user].active
               && s.uploads[i].value.status.Queued? && s.uploads[i].value.isCurrent
            then after.tasks == s.tasks + [Task(i, s.uploads[i].value.attempts + 1, Claimed)]
            else after == s
  {
  }

  /** What a write, a deletion pass or the file service does to the stored objects. */
  lemma ObjectsChangeAsRecorded(s: State, step: Step, config: Config, key: nat)
    ensures key in After(s, step, config).objects <==>
      match step
      case WriteStep(task, outcome) =>
        || key in s.objects
        || (&& task < |s.tasks| && s.tasks[task].progress == Claimed && key == |s.holders|
            && (outcome.Wrote? || outcome.RaisedAfter?))
      case DeletionStep(d, removal, _, now) =>
        && key in s.objects
        && !(&& d < |s.deletions| && !s.deletions[d].completed && s.deletions[d].nextAttemptAt <= now
             && s.deletions[d].key == key && !s.deletions[d].objectDeleted && !removal.NotRemoved?)
      case FileServiceDeletes(k) => key in s.objects && !(k == key && key in s.handedOver)
      case _ => key in s.objects
  {
    hide PowerOfTwo, DeletionDelay, Supersede, IsLive;
  }

  /** What the accounts and the file service do to a user. */
  lemma UsersChangeAsRecorded(s: State, step: Step, config: Config, u: nat)
    requires u < |s.users| && !step.SettleStep?
    ensures u < |After(s, step, config).users|
    ensures After(s, step, config).users[u] ==
      match step
      case TakeOverStep(user, hasFile) =>
        if user == u then s.users[u].(avatarKey := None, hasFile := hasFile) else s.users[u]
      case DeactivateStep(user, _) => if user == u then User(false, None, false) else s.users[u]
      case _ => s.users[u]
  {
    hide PowerOfTwo, DeletionDelay, Supersede, IsLive;
  }
}
