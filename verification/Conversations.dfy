/** The conversation store: submitting, editing and regenerating user turns,
    deriving the image context, and the run status changes that end a turn. */
module Conversations {
  import opened Prelude
  import opened Messages
  import opened ContextTrim
  import opened Attachments
  import opened Transcript

  datatype RunStatus = Queued | Started | Streaming | Cancelling | Succeeded | Failed | Cancelled

  predicate IsActive(status: RunStatus) {
    status.Queued? || status.Started? || status.Streaming? || status.Cancelling?
  }

  /** A run, with the user turn stored when it was queued. */
  datatype RunRow = RunRow(userMessage: nat, status: RunStatus, supports: Option<bool>, input: seq<Block>)

  /** The rows of one conversation; a row's id is its index. `detached` holds the
      files whose detached mark is set. */
  datatype Store = Store(
    messages: seq<MessageRow>,
    runs: seq<RunRow>,
    files: map<string, FileRow>,
    detached: set<string>)

  const EmptyStore := Store([], [], map[], {})

  /** What every queueing call is given: the caller, the clock, the settings, the
      token meter, the quote projection and the model's image capability. */
  datatype Env = Env(
    user: int,
    now: int,
    settings: Settings,
    meter: Meter,
    project: (string, string) -> string,
    supports: Option<bool>)

  datatype Quote = Quote(source: nat, excerpt: string)

  datatype Failure =
    | MessageNotFound
    | EditTargetNotUserMessage
    | CannotResolveUserMessage
    | ActiveRunExists
    | QuoteSourceInvalid
    | VisionModelRequired
    | LegacyImageContext(message: Option<nat>)
    | AttachmentFailure(error: PlanError)

  // ------------------------------------------------------------------- image context

  datatype ImageFacts = ImageFacts(message: nat, position: int, vision: set<string>, legacy: set<string>)

  /** The user turn its current run was given, or nothing. */
  function TurnBlocks(s: Store, id: nat): seq<Block>
    requires id < |s.messages|
  {
    var run := s.messages[id].runId;
    if run.Some? && run.value < |s.runs| && s.runs[run.value].userMessage == id then s.runs[run.value].input else []
  }

  function FactsOf(s: Store, id: nat): ImageFacts
    requires id < |s.messages|
  {
    ImageFacts(id, s.messages[id].position, VisionFiles(TurnBlocks(s, id)), LegacyFiles(TurnBlocks(s, id)))
  }

  /** The facts of the visible user messages among the first `n` rows. */
  function ContextOf(s: Store, n: nat): seq<ImageFacts>
    requires n <= |s.messages|
  {
    if n == 0 then []
    else if s.messages[n - 1].archived || s.messages[n - 1].role != User then ContextOf(s, n - 1)
    else ContextOf(s, n - 1) + [FactsOf(s, n - 1)]
  }

  function ImageContext(s: Store): seq<ImageFacts> {
    ContextOf(s, |s.messages|)
  }

  predicate HasVision(facts: seq<ImageFacts>) {
    exists k :: 0 <= k < |facts| && facts[k].vision != {}
  }

  predicate HasLegacy(facts: seq<ImageFacts>) {
    exists k :: 0 <= k < |facts| && facts[k].legacy != {}
  }

  function Before(facts: seq<ImageFacts>, position: int): seq<ImageFacts> {
    if facts == [] then []
    else
      var front, last := Before(facts[..|facts| - 1], position), facts[|facts| - 1];
      if last.position < position then front + [last] else front
  }

  function ForMessage(facts: seq<ImageFacts>, id: nat): Option<ImageFacts> {
    if facts == [] then None
    else if facts[0].message == id then Some(facts[0])
    else ForMessage(facts[1..], id)
  }

  function FirstLegacy(facts: seq<ImageFacts>): Option<nat> {
    if facts == [] then None
    else if facts[0].legacy != {} then Some(facts[0].message)
    else FirstLegacy(facts[1..])
  }

  /** The turns a new run would be queued behind must suit its model. */
  function ContextConflict(facts: seq<ImageFacts>, supports: Option<bool>): Option<Failure> {
    if supports == Some(false) && HasVision(facts) then Some(VisionModelRequired)
    else if supports == Some(true) && HasLegacy(facts) then
      Some(LegacyImageContext(if HasVision(facts) then None else FirstLegacy(facts)))
    else None
  }

  predicate SnapshotHolds(facts: Option<ImageFacts>, selected: seq<string>) {
    facts.Some? ==> forall f :: f in facts.value.vision + facts.value.legacy ==> f in selected
  }

  // ------------------------------------------------------------------- rows

  predicate HasActiveRun(s: Store) {
    exists r :: 0 <= r < |s.runs| && IsActive(s.runs[r].status)
  }

  /** A message's attachments whose file still exists. */
  function AttachedFiles(s: Store, id: nat): seq<string>
    requires id < |s.messages|
  {
    Present(s.messages[id].attachments, s.files)
  }

  function Present(ids: seq<string>, files: map<string, FileRow>): seq<string> {
    if ids == [] then []
    else if ids[|ids| - 1] in files then Present(ids[..|ids| - 1], files) + [ids[|ids| - 1]]
    else Present(ids[..|ids| - 1], files)
  }

  function ModelInput(quote: Option<string>, content: string, env: Env): string {
    if quote.Some? then env.project(quote.value, content) else content
  }

  predicate QuoteResolves(s: Store, quote: Option<Quote>) {
    quote.Some? ==>
      && IsVisible(s.messages, quote.value.source)
      && s.messages[quote.value.source].role == Assistant
      && s.messages[quote.value.source].position < NextPosition(s.messages)
  }

  function Bound(file: FileRow, now: int): FileRow {
    if file.boundAt.None? then file.(boundAt := Some(now), unboundExpiresAt := None) else file
  }

  function BoundFiles(files: map<string, FileRow>, ids: seq<string>, now: int): map<string, FileRow> {
    map f | f in files :: if f in ids then Bound(files[f], now) else files[f]
  }

  predicate Attaches(row: MessageRow, file: string) {
    !row.archived && file in row.attachments
  }

  predicate Referenced(rows: seq<MessageRow>, file: string) {
    exists i :: 0 <= i < |rows| && Attaches(rows[i], file)
  }

  predicate Refreshable(files: map<string, FileRow>, file: string) {
    file in files && !files[file].deletionStarted
  }

  function Refreshed(s: Store, touched: set<string>): set<string> {
    (set f | f in s.detached && !(f in touched && Refreshable(s.files, f)))
    + (set f | f in touched && Refreshable(s.files, f) && !Referenced(s.messages, f))
  }

  /** Appends a user message with its queued run and binds its files. */
  function AppendTurn(s: Store, row: MessageRow, blocks: seq<Block>, env: Env): Store {
    Store(s.messages + [row.(runId := Some(|s.runs|))],
          s.runs + [RunRow(|s.messages|, Queued, env.supports, blocks)],
          BoundFiles(s.files, row.attachments, env.now),
          s.detached - Elements(row.attachments))
  }

  function UserRow(content: string, quote: Option<string>, ids: seq<string>, rows: seq<MessageRow>): MessageRow {
    MessageRow(User, content, quote, None, ids, NextPosition(rows), false)
  }

  // ------------------------------------------------------------------- the operations

  function PlanRequest(content: string, ids: seq<string>, allowed: set<string>, legacy: set<string>,
                       env: Env): Request {
    Request(env.user, content, ids, allowed, env.supports, legacy, env.now)
  }

  ghost function SubmitPlan(s: Store, content: string, quote: Option<Quote>, ids: seq<string>,
                            env: Env): Result<seq<Block>, Failure> {
    var conflict := ContextConflict(ImageContext(s), env.supports);
    if HasActiveRun(s) then Err(ActiveRunExists)
    else if conflict.Some? then Err(conflict.value)
    else if !QuoteResolves(s, quote) then Err(QuoteSourceInvalid)
    else
      var text := ModelInput(Excerpt(quote), content, env);
      Lifted(AttachmentPlan(s.files, PlanRequest(text, ids, {}, {}, env), env.settings, env.meter))
  }

  function Excerpt(quote: Option<Quote>): Option<string> {
    if quote.Some? then Some(quote.value.excerpt) else None
  }

  function Lifted(plan: Result<seq<Block>, PlanError>): Result<seq<Block>, Failure> {
    if plan.Ok? then Ok(plan.value) else Err(AttachmentFailure(plan.error))
  }

  ghost function Submit(s: Store, content: string, quote: Option<Quote>, ids: seq<string>, env: Env): Result<Store,
                        Failure> {
    var plan := SubmitPlan(s, content, quote, ids, env);
    if plan.Err? then Err(plan.error)
    else Ok(AppendTurn(s, UserRow(content, Excerpt(quote), ids, s.messages), plan.value, env))
  }

  /** Checks shared by editing and regenerating: the turns before the reused turn
      must suit the model, and so must the images the turn keeps. */
  function ReuseConflict(s: Store, id: nat, selected: seq<string>, checkSnapshot: bool, env: Env): Option<Failure>
    requires id < |s.messages|
  {
    var context := ImageContext(s);
    var facts := ForMessage(context, id);
    var conflict := ContextConflict(Before(context, s.messages[id].position), env.supports);
    if checkSnapshot && !SnapshotHolds(facts, selected) then Some(AttachmentFailure(AttachmentInvalid))
    else if conflict.Some? then conflict
    else if env.supports == Some(false) && facts.Some? && exists f :: f in facts.value.vision && f in selected then
      Some(VisionModelRequired)
    else None
  }

  /** Inherited files the turn showed only as image notices. */
  function LegacyNotices(s: Store, id: nat): set<string>
    requires id < |s.messages|
  {
    var facts := ForMessage(ImageContext(s), id);
    set f | f in AttachedFiles(s, id) && facts.Some? && f in facts.value.legacy
  }

  ghost function ReusePlan(s: Store, id: nat, text: string, selected: seq<string>, checkSnapshot: bool, env: Env)
    : Result<seq<Block>, Failure>
    requires id < |s.messages|
  {
    var conflict := ReuseConflict(s, id, selected, checkSnapshot, env);
    if HasActiveRun(s) then Err(ActiveRunExists)
    else if conflict.Some? then Err(conflict.value)
    else
      var inherited := AttachedFiles(s, id);
      Lifted(AttachmentPlan(s.files, PlanRequest(text, selected, Elements(inherited), LegacyNotices(s, id), env),
                            env.settings, env.meter))
  }

  function Selected(s: Store, id: nat, ids: Option<seq<string>>): seq<string>
    requires id < |s.messages|
  {
    if ids.Some? then ids.value else AttachedFiles(s, id)
  }

  ghost function EditPlan(s: Store, id: nat, content: string, ids: Option<seq<string>>, env: Env): Result<seq<Block>,
                          Failure> {
    if !IsVisible(s.messages, id) then Err(MessageNotFound)
    else if s.messages[id].role != User then Err(EditTargetNotUserMessage)
    else ReusePlan(s, id, ModelInput(s.messages[id].quote, content, env), Selected(s, id, ids), ids.None?, env)
  }

  /** The store after an accepted edit, before the detached marks are refreshed. */
  function EditTurn(s: Store, id: nat, content: string, ids: seq<string>, blocks: seq<Block>, env: Env): Store
    requires id < |s.messages|
  {
    var cut := s.(messages := ArchiveFrom(s.messages, s.messages[id].position));
    AppendTurn(cut, UserRow(content, s.messages[id].quote, ids, cut.messages), blocks, env)
  }

  ghost function Edit(s: Store, id: nat, content: string, ids: Option<seq<string>>, env: Env): Result<Store, Failure> {
    var plan := EditPlan(s, id, content, ids, env);
    if plan.Err? then Err(plan.error)
    else
      var selected, inherited := Selected(s, id, ids), AttachedFiles(s, id);
      var edited := EditTurn(s, id, content, selected, plan.value, env);
      Ok(edited.(detached := Refreshed(edited, Elements(inherited) + Elements(selected))))
  }

  /** The user message to regenerate from. */
  function Anchor(s: Store, id: nat): Result<nat, Failure> {
    if !IsVisible(s.messages, id) then Err(MessageNotFound)
    else if s.messages[id].role != Assistant then Ok(id)
    else if s.messages[id].runId.None? || s.messages[id].runId.value >= |s.runs| then Err(CannotResolveUserMessage)
    else
      var anchor := s.runs[s.messages[id].runId.value].userMessage;
      if !IsVisible(s.messages, anchor) then Err(MessageNotFound)
      else if s.messages[anchor].role != User then Err(CannotResolveUserMessage)
      else Ok(anchor)
  }

  ghost function RegeneratePlan(s: Store, id: nat, env: Env): Result<seq<Block>, Failure> {
    var anchor := Anchor(s, id);
    if anchor.Err? then Err(anchor.error)
    else
      var row := s.messages[anchor.value];
      ReusePlan(s, anchor.value, ModelInput(row.quote, row.content, env), AttachedFiles(s, anchor.value), true, env)
  }

  /** Archives what follows the anchor and queues a new run for it. */
  function RerunTurn(s: Store, anchor: nat, blocks: seq<Block>, env: Env): Store
    requires anchor < |s.messages|
  {
    var cut := ArchiveAfter(s.messages, s.messages[anchor].position);
    s.(messages := cut[anchor := cut[anchor].(runId := Some(|s.runs|))],
       runs := s.runs + [RunRow(anchor, Queued, env.supports, blocks)])
  }

  ghost function Regenerate(s: Store, id: nat, env: Env): Result<Store, Failure> {
    var plan := RegeneratePlan(s, id, env);
    if plan.Err? then Err(plan.error) else Ok(RerunTurn(s, Anchor(s, id).value, plan.value, env))
  }

  // ------------------------------------------------------------------- run status

  datatype RunAction = Claim | BeginStreaming | RequestCancel | Fail | Cancel | CancelIfCancelling

  function NextStatus(status: RunStatus, action: RunAction): RunStatus {
    match action
    case Claim => if status.Queued? then Started else status
    case BeginStreaming => if status.Started? then Streaming else status
    case RequestCancel =>
      if status.Queued? then Cancelled else if status.Started? || status.Streaming? then Cancelling else status
    case Fail => if status.Started? || status.Streaming? || status.Cancelling? then Failed else status
    case Cancel => if IsActive(status) then Cancelled else status
    case CancelIfCancelling => if status.Cancelling? then Cancelled else status
  }

  function SetStatus(s: Store, run: nat, status: RunStatus): Store
    requires run < |s.runs|
  {
    s.(runs := s.runs[run := s.runs[run].(status := status)])
  }

  function AnswerRow(s: Store, run: nat, content: string): MessageRow {
    MessageRow(Assistant, content, None, Some(run), [], NextPosition(s.messages), false)
  }

  /** Finalizing a succeeded outcome: the run succeeds from started or streaming and
      its answer is materialized in the same transaction; a cancelling run ends
      cancelled, and any other is left alone. */
  function Finish(s: Store, run: nat, content: string): Store
    requires run < |s.runs|
  {
    var status := s.runs[run].status;
    if status.Started? || status.Streaming? then
      var done := SetStatus(s, run, Succeeded);
      done.(messages := done.messages + [AnswerRow(done, run, content)])
    else SetStatus(s, run, NextStatus(status, CancelIfCancelling))
  }
}
