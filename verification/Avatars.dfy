/** The avatar worker: uploads claimed under a lease, a public object written
    outside any transaction, settlement by the live owner, the sweep of expired
    leases and the deletion queue. Every transaction is one atomic step. */
module Avatars {
  import opened Prelude

  datatype UploadStatus = Pending | Queued | Processing | Succeeded | Failed | Expired

  datatype Upload = Upload(
    user: nat,
    status: UploadStatus,
    isCurrent: bool,
    attempts: nat,
    leaseOwner: Option<nat>,
    leaseExpiresAt: Option<int>,
    expiresAt: int,
    queuedAt: Option<int>,
    completedAt: Option<int>,
    finalKey: Option<nat>,
    temporaryDeleted: bool)

  /** `hasFile` says that the user's avatar is an asset of the file service. */
  datatype User = User(active: bool, avatarKey: Option<nat>, hasFile: bool)

  datatype Deletion = Deletion(
    upload: Option<nat>,
    key: nat,
    objectDeleted: bool,
    cdnPurged: bool,
    attempts: nat,
    nextAttemptAt: int,
    completed: bool)

  /** Where a worker task stands: it has claimed, has stored an object it has not
      settled, knows a permanent or a passing failure, is through, or has died. */
  datatype Progress = Claimed | Stored(key: nat) | Rejected | Broken | Settled | Dead

  datatype Task = Task(upload: nat, attempt: nat, progress: Progress)

  /** Who answers for a public object key. A bookkeeping value: no step reads it. */
  datatype Holder = AvatarOf(user: nat) | HeldBy(task: nat) | Condemned(deletion: nat) | HandedOver | Lost

  datatype Config = Config(maxAttempts: int, lease: int, sessionTtl: int, retention: int)

  /** Ids are indices. A purged upload leaves `None`. `handedOver` are keys given to
      the file service's own deletion table, and `holders` has one entry per key issued. */
  datatype State = State(
    users: seq<User>,
    uploads: seq<Option<Upload>>,
    deletions: seq<Deletion>,
    tasks: seq<Task>,
    objects: set<nat>,
    handedOver: set<nat>,
    holders: seq<Holder>)

  const Start := State([], [], [], [], {}, {}, [])

  predicate IsLive(status: UploadStatus) {
    status.Pending? || status.Queued? || status.Processing?
  }

  predicate HasUpload(s: State, i: nat) {
    i < |s.uploads| && s.uploads[i].Some?
  }

  // ---------------------------------------------------------------- row effects

  function Unleased(row: Upload): Upload {
    row.(leaseOwner := None, leaseExpiresAt := None)
  }

  /** What a new upload of the same user does to a current one. */
  function Superseded(row: Upload, now: int): Upload {
    if !row.isCurrent then row
    else if row.status.Pending? || row.status.Queued? then
        row.(isCurrent := false, status := Expired, completedAt := Some(now))
    else if row.status.Processing? then row.(isCurrent := false)
    else row
  }

  /** What the account or file service does to a live upload. */
  function Withdrawn(row: Upload, now: int): Upload {
    if IsLive(row.status) then Unleased(row.(isCurrent := false, status := Expired, completedAt := Some(now))) else row
  }

  function Confirmed(row: Upload, now: int, valid: bool): Upload {
    if !row.status.Pending? then row
    else if row.expiresAt <= now || !row.isCurrent then row.(status := Expired, completedAt := Some(now))
    else if valid then row.(status := Queued, queuedAt := Some(now))
    else row
  }

  predicate Claimable(row: Upload, user: User) {
    row.status.Queued? && row.isCurrent && user.active
  }

  function ClaimedRow(row: Upload, task: nat, now: int, config: Config): Upload {
    row.(status := Processing, leaseOwner := Some(task), leaseExpiresAt := Some(now + config.lease),
        attempts := row.attempts + 1)
  }

  function RejectedRow(row: Upload, now: int): Upload {
    Unleased(row.(status := Failed, completedAt := Some(now)))
  }

  function PowerOfTwo(n: nat): nat {
    if n == 0 then 1 else 2 * PowerOfTwo(n - 1)
  }

  function BrokenRow(row: Upload, attempt: nat, now: int, config: Config): Upload {
    if attempt >= config.maxAttempts then RejectedRow(row, now)
    else Unleased(row.(status := Queued, queuedAt := Some(now + PowerOfTwo(attempt))))
  }

  function SweptRow(row: Upload, now: int, config: Config): Upload {
    if row.status.Processing? && row.leaseExpiresAt.Some? && row.leaseExpiresAt.value <= now then
      if row.attempts >= config.maxAttempts then RejectedRow(row, now)
      else Unleased(row.(status := Queued, queuedAt := Some(now)))
    else if row.status.Pending? && row.expiresAt <= now then row.(status := Expired, completedAt := Some(now))
    else row
  }

  /** The owner of the lease may publish only a current upload of an active user. */
  predicate Publishable(row: Upload, user: User, task: nat) {
    row.status.Processing? && row.leaseOwner == Some(task) && row.isCurrent && user.active
  }

  function UnpublishedRow(row: Upload, task: nat, now: int): Upload {
    if row.status.Processing? && row.leaseOwner == Some(task) then
      Unleased(row.(status := Expired, completedAt := Some(now)))
    else row
  }

  function PublishedRow(row: Upload, key: nat, now: int): Upload {
    Unleased(row.(finalKey := Some(key), status := Succeeded, completedAt := Some(now)))
  }

  // ---------------------------------------------------------------- steps

  function NewUpload(user: nat, now: int, config: Config): Upload {
    Upload(user, Pending, true, 0, None, None, now + config.sessionTtl, None, None, None, false)
  }

  function Supersede(s: State, user: nat, now: int): seq<Option<Upload>> {
    seq(|s.uploads|, i requires 0 <= i < |s.uploads| =>
      if s.uploads[i].Some? && s.uploads[i].value.user == user then Some(Superseded(s.uploads[i].value, now))
          else s.uploads[i])
  }

  function Create(s: State, user: nat, now: int, config: Config): State {
    if user >= |s.users| || !s.users[user].active then s
    else s.(uploads := Supersede(s, user, now) + [Some(NewUpload(user, now, config))])
  }

  function SetUpload(s: State, i: nat, row: Upload): State
    requires i < |s.uploads|
  {
    s.(uploads := s.uploads[i := Some(row)])
  }

  function Confirm(s: State, i: nat, now: int, valid: bool): State {
    if !HasUpload(s, i) then s else SetUpload(s, i, Confirmed(s.uploads[i].value, now, valid))
  }

  function Claim(s: State, i: nat, now: int, config: Config): State {
    if !HasUpload(s, i) then s
    else
      var row := s.uploads[i].value;
      if row.user >= |s.users| || !Claimable(row, s.users[row.user]) then s
      else
        var claimed := SetUpload(s, i, ClaimedRow(row, |s.tasks|, now, config));
        claimed.(tasks := s.tasks + [Task(i, row.attempts + 1, Claimed)])
  }

  /** Rendering and writing the public object: it is stored, rendering rejects the
      image, or something raises before or after the store took the object. */
  datatype WriteOutcome = Wrote | WasRejected | RaisedBefore | RaisedAfter

  function SetProgress(s: State, t: nat, progress: Progress): State
    requires t < |s.tasks|
  {
    s.(tasks := s.tasks[t := s.tasks[t].(progress := progress)])
  }

  function Write(s: State, t: nat, outcome: WriteOutcome): State {
    if t >= |s.tasks| || !s.tasks[t].progress.Claimed? then s
    else
      var key := |s.holders|;
      match outcome
      case WasRejected => SetProgress(s, t, Rejected)
      case RaisedBefore => SetProgress(s, t, Broken)
      case Wrote => SetProgress(s, t, Stored(key)).(objects := s.objects + {key}, holders := s.holders + [HeldBy(t)])
      case RaisedAfter =>
        SetProgress(s, t, Broken).(objects := s.objects + {key}, holders := s.holders + [Lost])
  }

  function Condemn(s: State, upload: Option<nat>, key: nat, now: int): State
    requires key < |s.holders|
  {
    s.(deletions := s.deletions + [Deletion(upload, key, false, false, 0, now, false)],
       holders := s.holders[key := Condemned(|s.deletions|)])
  }

  function Publish(s: State, i: nat, key: nat, now: int): State
    requires HasUpload(s, i) && s.uploads[i].value.user < |s.users| && key < |s.holders|
  {
    var user := s.uploads[i].value.user;
    var was := s.users[user].avatarKey;
    var t := SetUpload(s, i, PublishedRow(s.uploads[i].value, key, now))
             .(users := s.users[user := s.users[user].(avatarKey := Some(key))],
               holders := s.holders[key := AvatarOf(user)]);
    if was.Some? && was.value != key && was.value < |s.holders| then Condemn(t, Some(i), was.value, now) else t
  }

  function SettleStored(s: State, t: nat, now: int): State
    requires t < |s.tasks| && s.tasks[t].progress.Stored? && s.tasks[t].progress.key < |s.holders|
  {
    var i, key := s.tasks[t].upload, s.tasks[t].progress.key;
    var done := SetProgress(s, t, Settled);
    if !HasUpload(s, i) then Condemn(done, None, key, now)
    else
      var row := s.uploads[i].value;
      if row.user < |s.users| && Publishable(row, s.users[row.user], t) then Publish(done, i, key, now)
      else Condemn(SetUpload(done, i, UnpublishedRow(row, t, now)), Some(i), key, now)
  }

  /** The transaction after the external work. A task that lost its lease changes no
      upload row on failure, and only queues its own object for deletion otherwise. */
  function Settle(s: State, t: nat, now: int, config: Config): State {
    if t >= |s.tasks| then s
    else
      var task := s.tasks[t];
      match task.progress
      case Claimed => s
      case Settled => s
      case Dead => s
      case Stored(key) => if key < |s.holders| then SettleStored(s, t, now) else s
      case Rejected =>
        if HasUpload(s, task.upload) && s.uploads[task.upload].value.leaseOwner == Some(t) then
          SetUpload(SetProgress(s, t, Settled), task.upload, RejectedRow(s.uploads[task.upload].value, now))
        else SetProgress(s, t, Settled)
      case Broken =>
        if HasUpload(s, task.upload) && s.uploads[task.upload].value.leaseOwner == Some(t) then
          SetUpload(SetProgress(s, t, Settled), task.upload,
              BrokenRow(s.uploads[task.upload].value, task.attempt, now, config))
        else SetProgress(s, t, Settled)
  }

  /** A worker dies between its transactions. Nothing records the object it had stored. */
  function Crash(s: State, t: nat): State {
    if t >= |s.tasks| then s
    else
      var progress := s.tasks[t].progress;
      var dead := SetProgress(s, t, Dead);
      if progress.Stored? && progress.key < |s.holders| then dead.(holders := s.holders[progress.key := Lost]) else dead
  }

  function Sweep(s: State, i: nat, now: int, config: Config): State {
    if HasUpload(s, i) then SetUpload(s, i, SweptRow(s.uploads[i].value, now, config)) else s
  }

  /** Deleting the object succeeds, fails, or raises after the store removed it. */
  datatype DeleteOutcome = Removed | NotRemoved | RemovedButRaised

  function DeletionDelay(attempts: nat): int {
    Min(6 * 3600, 60 * PowerOfTwo(Min(Max(attempts - 1, 0), 8)))
  }

  function DeletionTried(row: Deletion, outcome: DeleteOutcome, purged: bool, now: int): Deletion {
    var tried := row.(attempts := row.attempts + 1,
                      objectDeleted := row.objectDeleted || outcome.Removed?,
                      cdnPurged := row.cdnPurged || purged);
    if tried.objectDeleted && tried.cdnPurged then tried.(completed := true)
    else tried.(nextAttemptAt := now + DeletionDelay(tried.attempts))
  }

  function TryDeletion(s: State, d: nat, outcome: DeleteOutcome, purged: bool, now: int): State {
    if d >= |s.deletions| || s.deletions[d].completed || s.deletions[d].nextAttemptAt > now then s
    else
      var row := s.deletions[d];
      var gone := if row.objectDeleted || outcome.NotRemoved? then {} else {row.key};
      s.(deletions := s.deletions[d := DeletionTried(row, outcome, purged, now)], objects := s.objects - gone)
  }

  predicate Purgeable(s: State, i: nat, now: int, config: Config) {
    && HasUpload(s, i) && s.uploads[i].value.completedAt.Some?
       && s.uploads[i].value.completedAt.value <= now - config.retention
    && s.uploads[i].value.temporaryDeleted
    && forall d :: 0 <= d < |s.deletions| ==> s.deletions[d].upload == Some(i) ==> s.deletions[d].completed
  }

  function Purge(s: State, i: nat, now: int, config: Config): State {
    if !Purgeable(s, i, now, config) then s
    else
      s.(uploads := s.uploads[i := None],
         deletions := seq(|s.deletions|, d requires 0 <= d < |s.deletions| =>
           if s.deletions[d].upload == Some(i) then s.deletions[d].(upload := None) else s.deletions[d]))
  }

  function ForgetTemporary(s: State, i: nat): State {
    if HasUpload(s, i) then SetUpload(s, i, s.uploads[i].value.(temporaryDeleted := true)) else s
  }

  // ---------------------------------------------------------------- file service

  /** The file service starts its own avatar upload: current legacy uploads end. */
  function Withdraw(s: State, user: nat, onlyCurrent: bool, now: int): State {
    s.(uploads := seq(|s.uploads|, i requires 0 <= i < |s.uploads| =>
      if s.uploads[i].Some? && s.uploads[i].value.user == user && (onlyCurrent ==> s.uploads[i].value.isCurrent)
      then Some(Withdrawn(s.uploads[i].value, now)) else s.uploads[i]))
  }

  /** The file service replaces a user's avatar by an asset of its own, or by none. A
      legacy key that was the avatar is queued for deletion there; one that stood beside
      an asset is forgotten, since only the asset is then deleted. */
  function TakeOver(s: State, user: nat, hasFile: bool): State {
    if user >= |s.users| then s
    else
      var was := s.users[user];
      var t := s.(users := s.users[user := was.(avatarKey := None, hasFile := hasFile)]);
      if was.avatarKey.None? || was.avatarKey.value >= |s.holders| then t
      else if was.hasFile then t.(holders := s.holders[was.avatarKey.value := Lost])
      else
        t.(handedOver := s.handedOver + {was.avatarKey.value}, holders := s.holders[was.avatarKey.value := HandedOver])
  }

  function Deactivate(s: State, user: nat, now: int): State {
    if user >= |s.users| then s
    else
      var ended := TakeOver(Withdraw(s, user, false, now), user, false);
      ended.(users := ended.users[user := ended.users[user].(active := false)])
  }

  datatype Step =
    | AddUser
    | CreateStep(user: nat, now: int)
    | ConfirmStep(upload: nat, now: int, valid: bool)
    | ClaimStep(upload: nat, now: int)
    | WriteStep(task: nat, outcome: WriteOutcome)
    | SettleStep(task: nat, now: int)
    | CrashStep(task: nat)
    | SweepStep(upload: nat, now: int)
    | DeletionStep(deletion: nat, removal: DeleteOutcome, purged: bool, now: int)
    | PurgeStep(upload: nat, now: int)
    | TemporaryStep(upload: nat)
    | WithdrawStep(user: nat, now: int)
    | TakeOverStep(user: nat, hasFile: bool)
    | DeactivateStep(user: nat, now: int)
    | FileServiceDeletes(key: nat)

  function After(s: State, step: Step, config: Config): State {
    match step
    case AddUser => s.(users := s.users + [User(true, None, false)])
    case CreateStep(user, now) => Create(s, user, now, config)
    case ConfirmStep(upload, now, valid) => Confirm(s, upload, now, valid)
    case ClaimStep(upload, now) => Claim(s, upload, now, config)
    case WriteStep(task, outcome) => Write(s, task, outcome)
    case SettleStep(task, now) => Settle(s, task, now, config)
    case CrashStep(task) => Crash(s, task)
    case SweepStep(upload, now) => Sweep(s, upload, now, config)
    case DeletionStep(deletion, removal, purged, now) => TryDeletion(s, deletion, removal, purged, now)
    case PurgeStep(upload, now) => Purge(s, upload, now, config)
    case TemporaryStep(upload) => ForgetTemporary(s, upload)
    case WithdrawStep(user, now) => Withdraw(s, user, true, now)
    case TakeOverStep(user, hasFile) => TakeOver(s, user, hasFile)
    case DeactivateStep(user, now) => Deactivate(s, user, now)
    case FileServiceDeletes(key) => if key in s.handedOver then s.(objects := s.objects - {key}) else s
  }

  function AfterAll(s: State, steps: seq<Step>, config: Config): State {
    if steps == [] then s else After(AfterAll(s, steps[..|steps| - 1], config), steps[|steps| - 1], config)
  }

  lemma NoSteps(s: State, config: Config)
    ensures AfterAll(s, [], config) == s
  {
  }

  lemma AfterSnoc(s: State, steps: seq<Step>, step: Step, config: Config)
    ensures AfterAll(s, steps + [step], config) == After(AfterAll(s, steps, config), step, config)
  {
    assert (steps + [step])[..|steps|] == steps;
  }
}
