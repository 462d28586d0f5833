/** Every public avatar object is accounted for, over every interleaving. */
module AvatarObjects {
  import opened Prelude
  import opened Avatars

  // ---------------------------------------------------------------- the invariant

  /** The holder recorded for a key really holds it. */
  ghost predicate HolderHolds(s: State, k: nat) {
    k < |s.holders| ==>
      match s.holders[k]
      case AvatarOf(u) => u < |s.users| && s.users[u].avatarKey == Some(k) && k in s.objects
      case HeldBy(t) => t < |s.tasks| && s.tasks[t].progress == Stored(k) && k in s.objects
      case Condemned(d) => d < |s.deletions| && s.deletions[d].key == k
          && (k in s.objects ==> !s.deletions[d].objectDeleted)
      case HandedOver => k in s.handedOver
      case Lost => k in s.objects
  }

  ghost predicate Holds(s: State, k: nat, holder: Holder) {
    k < |s.holders| && s.holders[k] == holder
  }

  /** Every reference to a key is by its recorded holder. */
  ghost predicate AvatarHeld(s: State, u: nat) {
    u < |s.users| && s.users[u].avatarKey.Some? ==> Holds(s, s.users[u].avatarKey.value, AvatarOf(u))
  }

  ghost predicate StoredHeld(s: State, t: nat) {
    t < |s.tasks| && s.tasks[t].progress.Stored? ==> Holds(s, s.tasks[t].progress.key, HeldBy(t))
  }

  /** A deletion row is complete exactly when both its external calls are done. */
  ghost predicate DeletionHeld(s: State, d: nat) {
    d < |s.deletions| ==>
      && Holds(s, s.deletions[d].key, Condemned(d))
      && (s.deletions[d].completed <==> s.deletions[d].objectDeleted && s.deletions[d].cdnPurged)
  }

  ghost predicate KeySetsHeld(s: State, k: nat) {
    && (k in s.objects ==> k < |s.holders|)
    && (k in s.handedOver ==> Holds(s, k, HandedOver))
  }

  ghost predicate KeyOk(s: State, n: nat) {
    HolderHolds(s, n) && KeySetsHeld(s, n) && AvatarHeld(s, n) && StoredHeld(s, n) && DeletionHeld(s, n)
  }

  ghost predicate KeyInv(s: State) {
    forall n: nat :: KeyOk(s, n)
  }

  /** The parts of the state the invariant reads. */
  ghost predicate SameKeys(s: State, t: State) {
    && t.users == s.users && t.tasks == s.tasks && t.deletions == s.deletions
    && t.objects == s.objects && t.handedOver == s.handedOver && t.holders == s.holders
  }

  lemma SameKeysKeepInv(s: State, t: State)
    requires KeyInv(s) && SameKeys(s, t)
    ensures KeyInv(t)
  {
    forall n: nat ensures KeyOk(t, n) {
      assert KeyOk(s, n);
    }
  }

  // ---------------------------------------------------------------- each step

  lemma AddUserKeepsKeys(s: State)
    requires KeyInv(s)
    ensures KeyInv(s.(users := s.users + [User(true, None, false)]))
  {
    var t := s.(users := s.users + [User(true, None, false)]);
    forall n: nat ensures KeyOk(t, n) {
      assert KeyOk(s, n);
    }
  }

  /** A new task, or one that holds no object before or after the step. */
  lemma TaskMovesKeepKeys(s: State, t: State)
    requires KeyInv(s) && SameKeys(s.(tasks := t.tasks), t) && |s.tasks| <= |t.tasks|
    requires forall i :: 0 <= i < |t.tasks| ==>
               (i < |s.tasks| && t.tasks[i].progress == s.tasks[i].progress)
               || (!t.tasks[i].progress.Stored? && (i < |s.tasks| ==> !s.tasks[i].progress.Stored?))
    ensures KeyInv(t)
  {
    forall n: nat ensures KeyOk(t, n) {
      assert KeyOk(s, n);
    }
  }

  lemma WriteKeepsKeys(s: State, task: nat, outcome: WriteOutcome)
    requires KeyInv(s)
    ensures KeyInv(Write(s, task, outcome))
  {
    var t := Write(s, task, outcome);
    if outcome.WasRejected? || outcome.RaisedBefore? || t == s {
      TaskMovesKeepKeys(s, t);
    } else {
      forall n: nat ensures KeyOk(t, n) {
        assert KeyOk(s, n);
      }
    }
  }

  /** The settling task's object gets a deletion row. */
  lemma DiscardKeepsKeys(s: State, task: nat, upload: Option<nat>, now: int)
    requires KeyInv(s) && task < |s.tasks| && s.tasks[task].progress.Stored? && s.tasks[task].progress.key < |s.holders|
    ensures KeyInv(Condemn(SetProgress(s, task, Settled), upload, s.tasks[task].progress.key, now))
  {
    var t := Condemn(SetProgress(s, task, Settled), upload, s.tasks[task].progress.key, now);
    assert KeyOk(s, task);
    forall n: nat ensures KeyOk(t, n) {
      assert KeyOk(s, n);
    }
  }

  /** The settling task's object becomes the user's avatar and the old one, if any,
      gets a deletion row. */
  function Adopt(s: State, task: nat, user: nat): State
    requires task < |s.tasks| && s.tasks[task].progress.Stored? && s.tasks[task].progress.key < |s.holders|
        && user < |s.users|
  {
    var key := s.tasks[task].progress.key;
    SetProgress(s, task, Settled).(users := s.users[user := s.users[user].(avatarKey := Some(key))],
                                   holders := s.holders[key := AvatarOf(user)])
  }

  lemma AdoptKeepsKeys(s: State, task: nat, user: nat)
    requires KeyInv(s) && task < |s.tasks| && s.tasks[task].progress.Stored? && s.tasks[task].progress.key < |s.holders|
    requires user < |s.users| && s.users[user].avatarKey.None?
    ensures KeyInv(Adopt(s, task, user))
  {
    var t := Adopt(s, task, user);
    assert KeyOk(s, task) && KeyOk(s, s.tasks[task].progress.key);
    forall n: nat ensures KeyOk(t, n) {
      assert KeyOk(s, n);
    }
  }

  /** Giving up an avatar with a deletion row for it. */
  function Retire(s: State, user: nat, upload: Option<nat>, now: int): State
    requires user < |s.users| && s.users[user].avatarKey.Some? && s.users[user].avatarKey.value < |s.holders|
  {
    Condemn(s.(users := s.users[user := s.users[user].(avatarKey := None)]), upload, s.users[user].avatarKey.value, now)
  }

  lemma RetireKeepsKeys(s: State, user: nat, upload: Option<nat>, now: int)
    requires KeyInv(s) && user < |s.users| && s.users[user].avatarKey.Some?
        && s.users[user].avatarKey.value < |s.holders|
    ensures KeyInv(Retire(s, user, upload, now))
  {
    var t := Retire(s, user, upload, now);
    assert KeyOk(s, user);
    forall n: nat ensures KeyOk(t, n) {
      assert KeyOk(s, n);
    }
  }

  /** Publishing is adopting the new object after retiring the old one. */
  lemma PublishKeepsKeys(s: State, task: nat, now: int)
    requires KeyInv(s) && task < |s.tasks| && s.tasks[task].progress.Stored? && s.tasks[task].progress.key < |s.holders|
    requires HasUpload(s, s.tasks[task].upload) && s.uploads[s.tasks[task].upload].value.user < |s.users|
    ensures KeyInv(Publish(SetProgress(s, task, Settled), s.tasks[task].upload, s.tasks[task].progress.key, now))
  {
    var i, key := s.tasks[task].upload, s.tasks[task].progress.key;
    var user := s.uploads[i].value.user;
    var t := Publish(SetProgress(s, task, Settled), i, key, now);
    assert KeyOk(s, task) && KeyOk(s, user);
    hide KeyInv;
    if s.users[user].avatarKey.Some? {
      var freed := Retire(s, user, Some(i), now);
      RetireKeepsKeys(s, user, Some(i), now);
      AdoptKeepsKeys(freed, task, user);
      assert SameKeys(Adopt(freed, task, user), t);
      SameKeysKeepInv(Adopt(freed, task, user), t);
    } else {
      AdoptKeepsKeys(s, task, user);
      assert SameKeys(Adopt(s, task, user), t);
      SameKeysKeepInv(Adopt(s, task, user), t);
    }
  }

  lemma SettleKeepsKeys(s: State, task: nat, now: int, config: Config)
    requires KeyInv(s)
    ensures KeyInv(Settle(s, task, now, config))
  {
    hide KeyInv, Publish, PowerOfTwo;
    if task < |s.tasks| {
      var t, i := Settle(s, task, now, config), s.tasks[task].upload;
      if s.tasks[task].progress.Stored? {
        var key := s.tasks[task].progress.key;
        if key < |s.holders| {
          if HasUpload(s, i) && s.uploads[i].value.user < |s.users|
             && Publishable(s.uploads[i].value, s.users[s.uploads[i].value.user], task) {
            PublishKeepsKeys(s, task, now);
          } else {
            var upload := if HasUpload(s, i) then Some(i) else None;
            DiscardKeepsKeys(s, task, upload, now);
            SameKeysKeepInv(Condemn(SetProgress(s, task, Settled), upload, key, now), t);
          }
        }
      } else {
        TaskMovesKeepKeys(s, t);
      }
    }
  }

  lemma DeletionKeepsKeys(s: State, d: nat, outcome: DeleteOutcome, purged: bool, now: int)
    requires KeyInv(s)
    ensures KeyInv(TryDeletion(s, d, outcome, purged, now))
  {
    hide DeletionDelay;
    var t := TryDeletion(s, d, outcome, purged, now);
    assert KeyOk(s, d);
    forall n: nat ensures KeyOk(t, n) {
      assert KeyOk(s, n);
    }
  }

  lemma PurgeKeepsKeys(s: State, i: nat, now: int, config: Config)
    requires KeyInv(s)
    ensures KeyInv(Purge(s, i, now, config))
  {
    var t := Purge(s, i, now, config);
    forall n: nat ensures KeyOk(t, n) {
      assert KeyOk(s, n);
    }
  }

  lemma TakeOverKeepsKeys(s: State, user: nat, hasFile: bool)
    requires KeyInv(s)
    ensures KeyInv(TakeOver(s, user, hasFile))
  {
    var t := TakeOver(s, user, hasFile);
    assert KeyOk(s, user);
    forall n: nat ensures KeyOk(t, n) {
      assert KeyOk(s, n);
    }
  }

  lemma CrashKeepsKeys(s: State, task: nat)
    requires KeyInv(s)
    ensures KeyInv(Crash(s, task))
  {
    var t := Crash(s, task);
    assert KeyOk(s, task);
    if task < |s.tasks| && s.tasks[task].progress.Stored? {
      forall n: nat ensures KeyOk(t, n) {
        assert KeyOk(s, n);
      }
    } else {
      TaskMovesKeepKeys(s, t);
    }
  }

  lemma DeactivateKeepsKeys(s: State, user: nat, now: int)
    requires KeyInv(s)
    ensures KeyInv(Deactivate(s, user, now))
  {
    var cut := Withdraw(s, user, false, now);
    SameKeysKeepInv(s, cut);
    TakeOverKeepsKeys(cut, user, false);
    if user < |s.users| {
      var u, t := TakeOver(cut, user, false), Deactivate(s, user, now);
      forall n: nat ensures KeyOk(t, n) {
        assert KeyOk(u, n);
      }
    }
  }

  lemma FileServiceKeepsKeys(s: State, key: nat)
    requires KeyInv(s) && key in s.handedOver
    ensures KeyInv(s.(objects := s.objects - {key}))
  {
    var t := s.(objects := s.objects - {key});
    assert KeyOk(s, key);
    forall n: nat ensures KeyOk(t, n) {
      assert KeyOk(s, n);
    }
  }

  lemma StepKeepsKeys(s: State, step: Step, config: Config)
    requires KeyInv(s)
    ensures KeyInv(After(s, step, config))
  {
    hide KeyInv, Settle, Write, Crash, TryDeletion, Purge, TakeOver, Deactivate;
    var t := After(s, step, config);
    match step
    case AddUser => AddUserKeepsKeys(s);
    case ClaimStep(_, _) => TaskMovesKeepKeys(s, t);
    case WriteStep(task, outcome) => WriteKeepsKeys(s, task, outcome);
    case SettleStep(task, now) => SettleKeepsKeys(s, task, now, config);
    case DeletionStep(deletion, outcome, purged, now) => DeletionKeepsKeys(s, deletion, outcome, purged, now);
    case PurgeStep(upload, now) => PurgeKeepsKeys(s, upload, now, config);
    case TakeOverStep(user, hasFile) => TakeOverKeepsKeys(s, user, hasFile);
    case CrashStep(task) => CrashKeepsKeys(s, task);
    case DeactivateStep(user, now) => DeactivateKeepsKeys(s, user, now);
    case FileServiceDeletes(key) =>
      if key in s.handedOver {
        FileServiceKeepsKeys(s, key);
      }
    case CreateStep(_, _) => SameKeysKeepInv(s, t);
    case ConfirmStep(_, _, _) => SameKeysKeepInv(s, t);
    case SweepStep(_, _) => SameKeysKeepInv(s, t);
    case TemporaryStep(_) => SameKeysKeepInv(s, t);
    case WithdrawStep(_, _) => SameKeysKeepInv(s, t);
  }

  lemma {:induction false} EveryHistoryKeepsKeys(steps: seq<Step>, config: Config)
    ensures KeyInv(AfterAll(Start, steps, config))
  {
    hide After;
    if steps != [] {
      EveryHistoryKeepsKeys(steps[..|steps| - 1], config);
      StepKeepsKeys(AfterAll(Start, steps[..|steps| - 1], config), steps[|steps| - 1], config);
    }
  }

  // ---------------------------------------------------------------- what follows

  predicate IsAvatarKey(s: State, u: nat, key: nat) {
    u < |s.users| && s.users[u].avatarKey == Some(key)
  }

  /** A deletion row that has not yet removed its object. */
  predicate AwaitsDeletion(row: Deletion, key: nat) {
    row.key == key && !row.objectDeleted
  }

  predicate IsUnsettled(task: Task, key: nat) {
    task.progress == Stored(key)
  }

  /** Someone still answers for the object. */
  ghost predicate Accounted(s: State, key: nat) {
    || (exists u :: 0 <= u < |s.users| && IsAvatarKey(s, u, key))
    || (exists d :: 0 <= d < |s.deletions| && AwaitsDeletion(s.deletions[d], key))
    || (exists t :: 0 <= t < |s.tasks| && IsUnsettled(s.tasks[t], key))
    || key in s.handedOver
  }

  /** The step lets go of a stored object without a record of its key: a write raises
      after the store has taken the object, a worker dies holding one, or the file service
      replaces an avatar while a legacy key stands beside the user's asset. */
  ghost predicate LosesAt(s: State, step: Step, key: nat) {
    match step
    case WriteStep(t, outcome) =>
      outcome.RaisedAfter? && t < |s.tasks| && s.tasks[t].progress.Claimed? && key == |s.holders|
    case CrashStep(t) => t < |s.tasks| && s.tasks[t].progress == Stored(key)
    case TakeOverStep(u, _) => u < |s.users| && s.users[u].hasFile && s.users[u].avatarKey == Some(key)
    case DeactivateStep(u, _) => u < |s.users| && s.users[u].hasFile && s.users[u].avatarKey == Some(key)
    case _ => false
  }

  ghost predicate LosesIn(steps: seq<Step>, k: nat, config: Config, key: nat) {
    k < |steps| && LosesAt(AfterAll(Start, steps[..k], config), steps[k], key)
  }

  /** Some step of the history let go of the object. */
  ghost predicate WasLost(steps: seq<Step>, config: Config, key: nat) {
    exists k :: 0 <= k < |steps| && LosesIn(steps, k, config, key)
  }

  lemma WriteLoses(s: State, t: nat, outcome: WriteOutcome, key: nat)
    ensures Holds(Write(s, t, outcome), key, Lost) <==> Holds(s, key, Lost) || LosesAt(s, WriteStep(t, outcome), key)
  {
  }

  lemma SettleLoses(s: State, t: nat, now: int, config: Config, key: nat)
    requires KeyInv(s)
    ensures Holds(Settle(s, t, now, config), key, Lost) <==> Holds(s, key, Lost)
  {
    hide PowerOfTwo;
    if t < |s.tasks| && s.tasks[t].progress.Stored? {
      assert KeyOk(s, t);
      var i := s.tasks[t].upload;
      if HasUpload(s, i) && s.uploads[i].value.user < |s.users| {
        assert KeyOk(s, s.uploads[i].value.user);
      }
    }
  }

  lemma CrashLoses(s: State, t: nat, key: nat)
    requires KeyInv(s)
    ensures Holds(Crash(s, t), key, Lost) <==> Holds(s, key, Lost) || LosesAt(s, CrashStep(t), key)
  {
    assert KeyOk(s, t);
  }

  lemma TakeOverLoses(s: State, u: nat, hasFile: bool, key: nat)
    requires KeyInv(s)
    ensures Holds(TakeOver(s, u, hasFile), key, Lost) <==>
        Holds(s, key, Lost) || LosesAt(s, TakeOverStep(u, hasFile), key)
  {
    assert KeyOk(s, u);
  }

  /** The bookkeeping follows the history: a key is marked lost exactly by such a step. */
  lemma StepLoses(s: State, step: Step, config: Config, key: nat)
    requires KeyInv(s)
    ensures Holds(After(s, step, config), key, Lost) <==> Holds(s, key, Lost) || LosesAt(s, step, key)
  {
    hide KeyInv, Settle, Write, Crash, TakeOver, DeletionDelay, Supersede, IsLive;
    match step
    case WriteStep(t, outcome) => WriteLoses(s, t, outcome, key);
    case SettleStep(t, now) => SettleLoses(s, t, now, config, key);
    case CrashStep(t) => CrashLoses(s, t, key);
    case TakeOverStep(u, hasFile) => TakeOverLoses(s, u, hasFile, key);
    case DeactivateStep(u, now) =>
      var cut := Withdraw(s, u, false, now);
      SameKeysKeepInv(s, cut);
      TakeOverLoses(cut, u, false, key);
    case _ =>
  }

  lemma {:induction false} LostIsHistory(steps: seq<Step>, config: Config, key: nat)
    ensures Holds(AfterAll(Start, steps, config), key, Lost) <==> WasLost(steps, config, key)
  {
    hide After, LosesAt;
    if steps != [] {
      var n := |steps| - 1;
      LostIsHistory(steps[..n], config, key);
      EveryHistoryKeepsKeys(steps[..n], config);
      StepLoses(AfterAll(Start, steps[..n], config), steps[n], config, key);
      WasLostSnoc(steps, config, key);
    }
  }

  lemma WasLostSnoc(steps: seq<Step>, config: Config, key: nat)
    requires steps != []
    ensures var n := |steps| - 1;
            WasLost(steps, config, key) <==>
                WasLost(steps[..n], config, key) || LosesAt(AfterAll(Start, steps[..n], config), steps[n], key)
  {
    hide AfterAll, LosesAt;
    var n := |steps| - 1;
    forall k | 0 <= k < n ensures LosesIn(steps, k, config, key) <==> LosesIn(steps[..n], k, config, key) {
      assert steps[..n][..k] == steps[..k];
    }
    assert LosesIn(steps, n, config, key) <==> LosesAt(AfterAll(Start, steps[..n], config), steps[n], key);
  }

  /** In every history a stored public object is some user's avatar, awaits deletion
      here or at the file service, or is held by a living unsettled attempt, if and only
      if no step of the history let go of it. For a lost one nobody ever answers. */
  lemma ObjectsAreAccounted(steps: seq<Step>, config: Config, key: nat)
    requires key in AfterAll(Start, steps, config).objects
    ensures Accounted(AfterAll(Start, steps, config), key) <==> !WasLost(steps, config, key)
  {
    EveryHistoryKeepsKeys(steps, config);
    LostIsHistory(steps, config, key);
    hide AfterAll, WasLost;
    var s := AfterAll(Start, steps, config);
    assert KeyOk(s, key);
    match s.holders[key]
    case AvatarOf(u) => assert IsAvatarKey(s, u, key);
    case HeldBy(t) => assert IsUnsettled(s.tasks[t], key);
    case Condemned(d) => assert AwaitsDeletion(s.deletions[d], key);
    case HandedOver =>
    case Lost => LostIsUnaccounted(s, key);
  }

  lemma LostIsUnaccounted(s: State, key: nat)
    requires KeyInv(s) && Holds(s, key, Lost)
    ensures !Accounted(s, key)
  {
    assert KeyOk(s, key);
    forall u | 0 <= u < |s.users| ensures !IsAvatarKey(s, u, key) {
      assert KeyOk(s, u);
    }
    forall d | 0 <= d < |s.deletions| ensures !AwaitsDeletion(s.deletions[d], key) {
      assert KeyOk(s, d);
    }
    forall t | 0 <= t < |s.tasks| ensures !IsUnsettled(s.tasks[t], key) {
      assert KeyOk(s, t);
    }
  }

  /** One upload, claimed and written with the given outcome. */
  function WriteHistory(config: Config, outcome: WriteOutcome): seq<Step> {
    [AddUser, CreateStep(0, 0), ConfirmStep(0, config.sessionTtl - 1, true), ClaimStep(0, 0), WriteStep(0, outcome)]
  }

  lemma WriteHistoryClaims(config: Config, outcome: WriteOutcome)
    ensures var steps := WriteHistory(config, outcome);
            var s := AfterAll(Start, steps[..4], config);
            s.tasks == [Task(0, 1, Claimed)] && s.objects == {} && s.holders == []
            && AfterAll(Start, steps, config) == Write(s, 0, outcome)
  {
    var steps := WriteHistory(config, outcome);
    NoSteps(Start, config);
    AfterSnoc(Start, [], steps[0], config);
    var one := AfterAll(Start, [steps[0]], config);
    assert [] + [steps[0]] == [steps[0]] && one.users == [User(true, None, false)];
    AfterSnoc(Start, [steps[0]], steps[1], config);
    assert [steps[0]] + [steps[1]] == steps[..2];
    var two := AfterAll(Start, steps[..2], config);
    hide AfterAll;
    assert two == one.(uploads := [Some(NewUpload(0, 0, config))]);
    AfterSnoc(Start, steps[..2], steps[2], config);
    assert steps[..2] + [steps[2]] == steps[..3];
    AfterSnoc(Start, steps[..3], steps[3], config);
    assert steps[..3] + [steps[3]] == steps[..4];
    AfterSnoc(Start, steps[..4], steps[4], config);
    assert steps[..4] + [steps[4]] == steps;
  }

  /** Lost objects exist: one upload whose only write raises after storing, and one
      whose worker dies between a successful write and its settlement. */
  lemma WritesAndCrashesLose(config: Config)
    ensures var s := AfterAll(Start, WriteHistory(config, RaisedAfter), config); s.objects == {0} && !Accounted(s, 0)
    ensures var s := AfterAll(Start, WriteHistory(config, Wrote) + [CrashStep(0)], config);
        s.objects == {0} && !Accounted(s, 0)
  {
    hide AfterAll, Accounted, KeyInv;
    WriteHistoryClaims(config, RaisedAfter);
    EveryHistoryKeepsKeys(WriteHistory(config, RaisedAfter), config);
    LostIsUnaccounted(AfterAll(Start, WriteHistory(config, RaisedAfter), config), 0);
    var steps := WriteHistory(config, Wrote);
    WriteHistoryClaims(config, Wrote);
    AfterSnoc(Start, steps, CrashStep(0), config);
    EveryHistoryKeepsKeys(steps + [CrashStep(0)], config);
    LostIsUnaccounted(AfterAll(Start, steps + [CrashStep(0)], config), 0);
  }

  /** A current avatar is stored, belongs to one user, and has no deletion row, done
      or pending, so nothing ever deletes it while it is shown. */
  lemma CurrentAvatarsAreSafe(steps: seq<Step>, config: Config, u: nat)
    requires u < |AfterAll(Start, steps, config).users| && AfterAll(Start, steps, config).users[u].avatarKey.Some?
    ensures var s := AfterAll(Start, steps, config);
            var key := s.users[u].avatarKey.value;
            && key in s.objects && key !in s.handedOver
            && (forall d :: 0 <= d < |s.deletions| ==> s.deletions[d].key != key)
            && (forall v :: 0 <= v < |s.users| && s.users[v].avatarKey == Some(key) ==> v == u)
  {
    EveryHistoryKeepsKeys(steps, config);
    hide AfterAll;
    var s := AfterAll(Start, steps, config);
    var key := s.users[u].avatarKey.value;
    assert KeyOk(s, u) && KeyOk(s, key);
    forall d | 0 <= d < |s.deletions| ensures s.deletions[d].key != key {
      assert KeyOk(s, d);
    }
    forall v | 0 <= v < |s.users| && s.users[v].avatarKey == Some(key) ensures v == u {
      assert KeyOk(s, v);
    }
  }

  /** A completed deletion has purged its address and its object is gone for good. */
  lemma CompletedDeletionsAreDone(steps: seq<Step>, config: Config, d: nat)
    requires d < |AfterAll(Start, steps, config).deletions| && AfterAll(Start, steps, config).deletions[d].completed
    ensures var s := AfterAll(Start, steps, config);
            s.deletions[d].cdnPurged && s.deletions[d].objectDeleted && s.deletions[d].key !in s.objects
  {
    EveryHistoryKeepsKeys(steps, config);
    hide AfterAll;
    var s := AfterAll(Start, steps, config);
    assert KeyOk(s, d) && KeyOk(s, s.deletions[d].key);
  }
}
