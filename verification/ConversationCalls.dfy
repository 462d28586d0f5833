/** When each conversation call is accepted and what it stores besides the list, told by
    the rows and the caller's arguments. */
module ConversationCalls {
  import opened Prelude
  import opened Messages
  import opened Attachments
  import opened Transcript
  import opened Conversations
  import opened ConversationSafety
  import opened ConversationRuns
  import opened ConversationImages

  // ------------------------------------------------------------------- rows

  /** Every run of the conversation has ended. */
  ghost predicate AllEnded(s: Store) {
    forall r :: 0 <= r < |s.runs| ==> s.runs[r].status in {Succeeded, Failed, Cancelled}
  }

  lemma NoActiveRunMeansEnded(s: Store)
    ensures HasActiveRun(s) <==> !AllEnded(s)
  {
  }

  /** Which statuses each lifecycle action leaves, and for which. */
  lemma LifecycleMoves(status: RunStatus, action: RunAction)
    ensures NextStatus(status, Claim) == (if status == Queued then Started else status)
    ensures NextStatus(status, BeginStreaming) == (if status == Started then Streaming else status)
    ensures NextStatus(status, Fail) == (if status in {Started, Streaming, Cancelling} then Failed else status)
    ensures NextStatus(status, Cancel) ==
              if status in {Queued, Started, Streaming, Cancelling} then Cancelled else status
    ensures NextStatus(status, CancelIfCancelling) == (if status == Cancelling then Cancelled else status)
    ensures NextStatus(status, RequestCancel) ==
              if status == Queued then Cancelled else if status in {Started, Streaming} then Cancelling else status
    ensures status in {Succeeded, Failed, Cancelled} ==> NextStatus(status, action) == status
    ensures NextStatus(status, action) == Succeeded ==> status == Succeeded
  {
  }

  lemma NextPositionIsOneMore(rows: seq<MessageRow>)
    ensures rows == [] ==> NextPosition(rows) == 1
    ensures rows != [] ==> exists i :: 0 <= i < |rows| && NextPosition(rows) == rows[i].position + 1
    ensures forall i :: 0 <= i < |rows| ==> rows[i].position < NextPosition(rows)
  {
    if rows != [] {
      var i :| 0 <= i < |rows| && rows[i].position == MaxPosition(rows);
      assert NextPosition(rows) == rows[i].position + 1;
    }
  }

  /** A message's files are those of its attachments that still exist, in order. */
  lemma {:induction false} PresentAre(ids: seq<string>, files: map<string, FileRow>)
    ensures forall f :: f in Present(ids, files) <==> f in ids && f in files
    ensures (forall i :: 0 <= i < |ids| ==> ids[i] in files) ==> Present(ids, files) == ids
  {
    if ids != [] {
      PresentAre(ids[..|ids| - 1], files);
      assert ids == ids[..|ids| - 1] + [ids[|ids| - 1]];
    }
  }

  /** A visible user turn is what its current run was queued with. */
  lemma TurnIsItsRunsInput(s: Store, id: nat)
    requires Inv(s) && id < |s.messages| && s.messages[id].role == User
    ensures s.messages[id].runId.Some? && s.messages[id].runId.value < |s.runs|
    ensures TurnBlocks(s, id) == s.runs[s.messages[id].runId.value].input
  {
    hide AnswerHolds, PinHolds, OneAnswer;
  }

  /** Binding marks each planned file bound at the first time, and no other. */
  lemma BoundOnce(files: map<string, FileRow>, ids: seq<string>, now: int, f: string)
    requires f in files
    ensures f in BoundFiles(files, ids, now)
    ensures BoundFiles(files, ids, now)[f] ==
              if f in ids && files[f].boundAt.None? then files[f].(boundAt := Some(now), unboundExpiresAt := None)
              else files[f]
  {
  }

  /** A refresh marks a touched file exactly when no visible message attaches it, unless
      it is gone or being deleted; other marks stay. */
  lemma RefreshedExactly(s: Store, touched: set<string>, f: string)
    ensures f in Refreshed(s, touched) <==>
              if f in touched && f in s.files && !s.files[f].deletionStarted
              then forall i :: 0 <= i < |s.messages| ==> s.messages[i].archived || f !in s.messages[i].attachments
              else f in s.detached
  {
  }

  // ------------------------------------------------------------------- facts of one turn

  lemma {:induction false} ForMessageFinds(facts: seq<ImageFacts>, f: ImageFacts)
    requires f in facts && forall k :: 0 <= k < |facts| && facts[k].message == f.message ==> facts[k] == f
    ensures ForMessage(facts, f.message) == Some(f)
  {
    if facts[0].message != f.message {
      assert f in facts[1..];
      assert forall k :: 0 <= k < |facts| - 1 ==> facts[1..][k] == facts[k + 1];
      ForMessageFinds(facts[1..], f);
    }
  }

  /** The facts of a visible user message are those of its turn. */
  lemma FactsAreTheTurns(s: Store, id: nat)
    requires IsVisible(s.messages, id) && s.messages[id].role == User
    ensures var turn := TurnBlocks(s, id);
            ForMessage(ImageContext(s), id)
              == Some(ImageFacts(id, s.messages[id].position, VisionFiles(turn), LegacyFiles(turn)))
  {
    hide VisionFiles, LegacyFiles, TurnBlocks, ContextOf, ForMessage;
    ContextIsVisibleUsers(s, |s.messages|);
    ForMessageFinds(ImageContext(s), FactsOf(s, id));
  }

  /** No visible turn before a position clashes with the model. */
  ghost predicate SuitsBefore(s: Store, position: int, supports: Option<bool>) {
    && (supports == Some(false) ==>
          forall i :: 0 <= i < |s.messages| && s.messages[i].position < position ==> !ShowsImage(s, i))
    && (supports == Some(true) ==>
          forall i :: 0 <= i < |s.messages| && s.messages[i].position < position ==> !MentionsImage(s, i))
  }

  lemma ConflictExactly(s: Store, position: int, supports: Option<bool>)
    ensures ContextConflict(Before(ImageContext(s), position), supports).None? <==> SuitsBefore(s, position, supports)
  {
    ContextBeforeIsExact(s, position);
    hide ShowsImage, MentionsImage, HasVision, HasLegacy, ImageContext, Before, FirstLegacy;
  }

  // ------------------------------------------------------------------- submit

  /** What the model is given of a message: its text, or its quote's projection with it. */
  function GivenText(quote: Option<string>, content: string, env: Env): string {
    match quote
    case None => content
    case Some(excerpt) => env.project(excerpt, content)
  }

  ghost predicate QuotesAnswer(s: Store, quote: Option<Quote>) {
    quote.Some? ==>
      && quote.value.source < |s.messages|
      && !s.messages[quote.value.source].archived && s.messages[quote.value.source].role == Assistant
  }

  /** A submit is accepted exactly when every run has ended, no visible turn clashes with
      the model, a quote names a visible answer, and the turn can be planned; the new run
      is given exactly that plan, made from the quote and the text. */
  lemma SubmitAcceptsExactly(s: Store, content: string, quote: Option<Quote>, ids: seq<string>, env: Env,
                             blocks: seq<Block>)
    ensures (Submit(s, content, quote, ids, env).Ok? && SubmitPlan(s, content, quote, ids, env) == Ok(blocks)) <==>
              && AllEnded(s) && SuitsBefore(s, NextPosition(s.messages), env.supports) && QuotesAnswer(s, quote)
              && var excerpt := if quote.Some? then Some(quote.value.excerpt) else None;
                 var text := GivenText(excerpt, content, env);
                 IsPlan(s.files, Request(env.user, text, ids, {}, env.supports, {}, env.now),
                        env.settings, env.meter, blocks)
  {
    NoActiveRunMeansEnded(s);
    ConflictExactly(s, NextPosition(s.messages), env.supports);
    NextPositionIsAhead(s);
    NextPositionIsOneMore(s.messages);
    PlanAcceptsExactly(s.files, PlanRequest(ModelInput(Excerpt(quote), content, env), ids, {}, {}, env),
                       env.settings, env.meter, blocks);
    hide HasActiveRun, AllEnded, SuitsBefore, ContextConflict;
    hide ImageContext, Before, NextPosition, AttachmentPlan, IsPlan;
    hide AppendTurn;
  }

  /** A submit binds its files, clears their detached marks, and touches no other file. */
  lemma SubmitBinds(s: Store, content: string, quote: Option<Quote>, ids: seq<string>, env: Env, f: string)
    requires Submit(s, content, quote, ids, env).Ok?
    ensures var t := Submit(s, content, quote, ids, env).value;
            && (f in t.detached <==> f in s.detached && f !in ids)
            && (f in t.files <==> f in s.files)
            && (f in s.files ==>
                  t.files[f] == if f in ids && s.files[f].boundAt.None?
                                then s.files[f].(boundAt := Some(env.now), unboundExpiresAt := None) else s.files[f])
  {
    hide SubmitPlan, NextPosition;
  }

  // ------------------------------------------------------------------- edit and regenerate

  /** Reusing a turn with some of its files is possible: every run has ended, with its own
      files all its pictures are still there, no earlier turn clashes with the model, a
      model without vision is given none of the images it showed, and the turn can be
      planned, its own files being allowed and its image notices kept. */
  ghost predicate Reuses(s: Store, id: nat, text: string, selected: seq<string>, own: bool, env: Env,
                         blocks: seq<Block>)
    requires id < |s.messages|
  {
    var turn, attached := TurnBlocks(s, id), Present(s.messages[id].attachments, s.files);
    && AllEnded(s) && SuitsBefore(s, s.messages[id].position, env.supports)
    && (own ==> forall f :: f in VisionFiles(turn) || f in LegacyFiles(turn) ==> f in selected)
    && (env.supports == Some(false) ==> forall f :: f in VisionFiles(turn) ==> f !in selected)
    && var noticed := set f | f in attached && f in LegacyFiles(turn);
       IsPlan(s.files, Request(env.user, text, selected, Elements(attached), env.supports, noticed, env.now),
              env.settings, env.meter, blocks)
  }

  lemma ReusePlanExactly(s: Store, id: nat, text: string, selected: seq<string>, own: bool, env: Env,
                         blocks: seq<Block>)
    requires IsVisible(s.messages, id) && s.messages[id].role == User
    ensures ReusePlan(s, id, text, selected, own, env) == Ok(blocks) <==>
              Reuses(s, id, text, selected, own, env, blocks)
  {
    NoActiveRunMeansEnded(s);
    ConflictExactly(s, s.messages[id].position, env.supports);
    FactsAreTheTurns(s, id);
    assert LegacyNotices(s, id) == set f | f in AttachedFiles(s, id) && f in LegacyFiles(TurnBlocks(s, id));
    PlanAcceptsExactly(s.files, PlanRequest(text, selected, Elements(AttachedFiles(s, id)), LegacyNotices(s, id), env),
                       env.settings, env.meter, blocks);
    hide HasActiveRun, AllEnded, SuitsBefore, ContextConflict, ImageContext, Before, AttachmentPlan, IsPlan;
    hide ForMessage, VisionFiles, LegacyFiles, TurnBlocks, Present, LegacyNotices;
  }

  /** An edit is accepted exactly when its target is a visible user message whose turn can
      be reused with the chosen files, its own by default. */
  lemma EditAcceptsExactly(s: Store, id: nat, content: string, ids: Option<seq<string>>, env: Env, blocks: seq<Block>)
    ensures (Edit(s, id, content, ids, env).Ok? && EditPlan(s, id, content, ids, env) == Ok(blocks)) <==>
              && id < |s.messages| && !s.messages[id].archived && s.messages[id].role == User
              && var selected := if ids.Some? then ids.value else Present(s.messages[id].attachments, s.files);
                 Reuses(s, id, GivenText(s.messages[id].quote, content, env), selected, ids.None?, env, blocks)
  {
    hide ReusePlan, Reuses, AppendTurn, Refreshed, Present;
    if IsVisible(s.messages, id) && s.messages[id].role == User {
      var text := ModelInput(s.messages[id].quote, content, env);
      ReusePlanExactly(s, id, text, Selected(s, id, ids), ids.None?, env, blocks);
    }
  }

  /** A regeneration is accepted exactly when its anchor's turn can be reused as it is. */
  lemma RegenerateAcceptsExactly(s: Store, id: nat, env: Env, blocks: seq<Block>)
    requires Inv(s)
    ensures (Regenerate(s, id, env).Ok? && RegeneratePlan(s, id, env) == Ok(blocks)) <==>
              && Anchor(s, id).Ok?
              && var anchor := Anchor(s, id).value;
                 && anchor < |s.messages|
                 && Reuses(s, anchor, GivenText(s.messages[anchor].quote, s.messages[anchor].content, env),
                           Present(s.messages[anchor].attachments, s.files), true, env, blocks)
  {
    hide ReusePlan, Reuses, Present, Anchor, Inv;
    if Anchor(s, id).Ok? {
      AnchorIsUserMessage(s, id);
      var anchor := Anchor(s, id).value;
      var row := s.messages[anchor];
      ReusePlanExactly(s, anchor, ModelInput(row.quote, row.content, env), AttachedFiles(s, anchor), true, env, blocks);
    }
  }

  /** The marks an edit leaves: a file the message had or now has is detached exactly when
      no visible message attaches it any more; every other mark stays. */
  lemma EditRefreshes(s: Store, id: nat, content: string, ids: Option<seq<string>>, env: Env, f: string)
    requires Edit(s, id, content, ids, env).Ok?
    ensures id < |s.messages|
    ensures var t, selected := Edit(s, id, content, ids, env).value, Selected(s, id, ids);
            f in t.detached <==>
              if (f in AttachedFiles(s, id) || f in selected) && f in t.files && !t.files[f].deletionStarted
              then forall i :: 0 <= i < |t.messages| ==> t.messages[i].archived || f !in t.messages[i].attachments
              else f in s.detached && f !in selected
  {
    EditTargetIsVisible(s, id, content, ids, env);
    hide ReusePlan, Present, NextPosition, BoundFiles;
    var edited := EditTurn(s, id, content, Selected(s, id, ids), EditPlan(s, id, content, ids, env).value, env);
    RefreshedExactly(edited, Elements(AttachedFiles(s, id)) + Elements(Selected(s, id, ids)), f);
    hide Refreshed;
  }

  /** Regenerating changes no file. */
  lemma RegenerateLeavesFiles(s: Store, id: nat, env: Env)
    requires Regenerate(s, id, env).Ok?
    ensures Regenerate(s, id, env).value.files == s.files && Regenerate(s, id, env).value.detached == s.detached
  {
    hide ReusePlan;
  }

  // ------------------------------------------------------------------- refusals

  /** Why a call on a message is refused before anything else is looked at. */
  lemma TargetRefusals(s: Store, id: nat, content: string, ids: Option<seq<string>>, env: Env)
    ensures Edit(s, id, content, ids, env) == Err(MessageNotFound) <==> id >= |s.messages| || s.messages[id].archived
    ensures Edit(s, id, content, ids, env) == Err(EditTargetNotUserMessage) <==>
              id < |s.messages| && !s.messages[id].archived && s.messages[id].role != User
    ensures id >= |s.messages| || s.messages[id].archived ==> Regenerate(s, id, env) == Err(MessageNotFound)
    ensures !AllEnded(s) && id < |s.messages| && !s.messages[id].archived && s.messages[id].role == User ==>
              && Edit(s, id, content, ids, env) == Err(ActiveRunExists)
              && Regenerate(s, id, env) == Err(ActiveRunExists)
  {
    NoActiveRunMeansEnded(s);
    hide AttachmentPlan, HasActiveRun, AllEnded, AppendTurn, Refreshed, ImageContext, Present, FirstLegacy;
  }

  /** A submit is refused for an unfinished run first, then for the image context, then for
      its quote, and only then for its files. */
  lemma SubmitRefusals(s: Store, content: string, quote: Option<Quote>, ids: seq<string>, env: Env)
    ensures Submit(s, content, quote, ids, env) == Err(ActiveRunExists) <==> !AllEnded(s)
    ensures AllEnded(s) && !SuitsBefore(s, NextPosition(s.messages), env.supports) ==>
              var r := Submit(s, content, quote, ids, env);
                  r.Err? && (r.error.VisionModelRequired? || r.error.LegacyImageContext?)
    ensures AllEnded(s) && SuitsBefore(s, NextPosition(s.messages), env.supports) && !QuotesAnswer(s, quote) ==>
              Submit(s, content, quote, ids, env) == Err(QuoteSourceInvalid)
  {
    NoActiveRunMeansEnded(s);
    ConflictExactly(s, NextPosition(s.messages), env.supports);
    NextPositionIsAhead(s);
    NextPositionIsOneMore(s.messages);
    hide HasActiveRun, AllEnded, SuitsBefore, ImageContext, Before, NextPosition, AttachmentPlan, FirstLegacy;
    hide AppendTurn, HasVision, HasLegacy;
  }
}
