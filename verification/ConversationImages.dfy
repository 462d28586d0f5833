/** Image and text-only contexts never mix, and a detached file is in no visible
    message. */
module ConversationImages {
  import opened Prelude
  import opened Messages
  import opened Attachments
  import opened Transcript
  import opened Conversations
  import opened ConversationSafety
  import opened ConversationRuns

  // ------------------------------------------------------------------- facts and rows

  /** A visible user turn whose current run shows the model an image. */
  ghost predicate ShowsImage(s: Store, id: nat) {
    IsVisible(s.messages, id) && s.messages[id].role == User && VisionFiles(TurnBlocks(s, id)) != {}
  }

  /** A visible user turn whose current run only mentions an image. */
  ghost predicate MentionsImage(s: Store, id: nat) {
    IsVisible(s.messages, id) && s.messages[id].role == User && LegacyFiles(TurnBlocks(s, id)) != {}
  }

  lemma {:induction false} ContextIsVisibleUsers(s: Store, n: nat)
    requires n <= |s.messages|
    ensures forall k :: 0 <= k < |ContextOf(s, n)| ==>
              var id := ContextOf(s, n)[k].message;
              id < n && !s.messages[id].archived && s.messages[id].role == User && ContextOf(s, n)[k] == FactsOf(s, id)
    ensures forall id :: 0 <= id < n && !s.messages[id].archived && s.messages[id].role == User ==>
        FactsOf(s, id) in ContextOf(s, n)
  {
    hide FactsOf;
    if n > 0 {
      ContextIsVisibleUsers(s, n - 1);
      assert FactsOf(s, n - 1).message == n - 1 by {
        FactsName(s, n - 1);
      }
    }
  }

  lemma FactsName(s: Store, id: nat)
    requires id < |s.messages|
    ensures FactsOf(s, id).message == id && FactsOf(s, id).position == s.messages[id].position
  {
  }

  lemma {:induction false} BeforeIsFilter(facts: seq<ImageFacts>, position: int)
    ensures forall f :: f in Before(facts, position) <==> f in facts && f.position < position
  {
    if facts != [] {
      BeforeIsFilter(facts[..|facts| - 1], position);
      assert facts == facts[..|facts| - 1] + [facts[|facts| - 1]];
    }
  }

  lemma HasVisionMember(facts: seq<ImageFacts>)
    ensures HasVision(facts) <==> exists f :: f in facts && f.vision != {}
    ensures HasLegacy(facts) <==> exists f :: f in facts && f.legacy != {}
  {
  }

  /** The context before a position holds an image exactly when a visible user turn
      before it shows one; likewise for image notices. */
  lemma ContextBeforeIsExact(s: Store, position: int)
    ensures HasVision(Before(ImageContext(s), position)) <==>
            exists id :: 0 <= id < |s.messages| && ShowsImage(s, id) && s.messages[id].position < position
    ensures HasLegacy(Before(ImageContext(s), position)) <==>
            exists id :: 0 <= id < |s.messages| && MentionsImage(s, id) && s.messages[id].position < position
  {
    hide Before, VisionFiles, LegacyFiles, TurnBlocks, ContextOf;
    var facts := ImageContext(s);
    ContextIsVisibleUsers(s, |s.messages|);
    BeforeIsFilter(facts, position);
    HasVisionMember(Before(facts, position));
    hide HasVision, HasLegacy;
    forall id | 0 <= id < |s.messages| && IsVisible(s.messages, id) && s.messages[id].role == User
        && s.messages[id].position < position
      ensures FactsOf(s, id) in Before(facts, position)
    {
    }
    forall f | f in Before(facts, position)
      ensures f.message < |s.messages| && IsVisible(s.messages, f.message) && s.messages[f.message].role == User
      ensures f == FactsOf(s, f.message) && s.messages[f.message].position < position
    {
    }
  }

  // ------------------------------------------------------------------- the invariant

  /** No visible turn clashes with a model of the given capability. */
  ghost predicate Suits(s: Store, supports: Option<bool>) {
    && (supports == Some(false) ==> forall id :: 0 <= id < |s.messages| ==> !ShowsImage(s, id))
    && (supports == Some(true) ==> forall id :: 0 <= id < |s.messages| ==> !MentionsImage(s, id))
  }

  /** The visible user turns never hold both images and image notices. */
  ghost predicate Unmixed(s: Store) {
    forall i, j :: 0 <= i < |s.messages| && 0 <= j < |s.messages| && ShowsImage(s, i) ==> !MentionsImage(s, j)
  }

  /** ... and every active run's model can be given all of them. */
  ghost predicate ImageInv(s: Store) {
    Unmixed(s) && forall r :: 0 <= r < |s.runs| && IsActive(s.runs[r].status) ==> Suits(s, s.runs[r].supports)
  }

  /** Row `id` is the same user turn, with the same blocks, in both stores. */
  ghost predicate SameTurn(s: Store, t: Store, id: nat) {
    id < |s.messages| && id < |t.messages| && t.messages[id] == s.messages[id] && TurnBlocks(t, id) == TurnBlocks(s, id)
  }

  /** Queueing a run keeps the invariant when every other visible user turn is an
      old one before `position` and the checks passed. */
  lemma QueueKeepsImages(s: Store, t: Store, turn: nat, position: int, supports: Option<bool>)
    requires supports.Some? && turn < |t.messages|
    requires forall id ::
               0 <= id < |t.messages| && id != turn && IsVisible(t.messages, id) && t.messages[id].role == User ==>
               SameTurn(s, t, id) && s.messages[id].position < position
    requires ContextConflict(Before(ImageContext(s), position), supports).None?
    requires supports == Some(false) ==> VisionFiles(TurnBlocks(t, turn)) == {}
    requires supports == Some(true) ==> LegacyFiles(TurnBlocks(t, turn)) == {}
    requires forall r :: 0 <= r < |t.runs| && IsActive(t.runs[r].status) ==> t.runs[r].supports == supports
    ensures ImageInv(t)
  {
    hide Before, VisionFiles, LegacyFiles, TurnBlocks, ImageContext;
    ContextBeforeIsExact(s, position);
    forall id | 0 <= id < |t.messages|
      ensures supports == Some(false) ==> !ShowsImage(t, id)
      ensures supports == Some(true) ==> !MentionsImage(t, id)
    {
      if id != turn && IsVisible(t.messages, id) && t.messages[id].role == User {
        assert SameTurn(s, t, id);
        assert ShowsImage(t, id) <==> ShowsImage(s, id);
        assert MentionsImage(t, id) <==> MentionsImage(s, id);
      }
    }
    hide ShowsImage, MentionsImage, ContextConflict, HasVision, HasLegacy;
    assert Suits(t, supports);
    match supports {
      case Some(vision) =>
        if vision {
          assert supports == Some(true);
        } else {
          assert supports == Some(false);
        }
    }
  }

  lemma AppendedTurnBlocks(s: Store, row: MessageRow, blocks: seq<Block>, env: Env)
    requires UserRuns(s)
    ensures var t := AppendTurn(s, row, blocks, env);
            && TurnBlocks(t, |s.messages|) == blocks
            && forall id :: 0 <= id < |s.messages| && s.messages[id].role == User ==> SameTurn(s, t, id)
  {
    hide BoundFiles;
  }

  lemma OnlyTheNewRunIsActive(s: Store, runs: seq<RunRow>, run: RunRow)
    requires !HasActiveRun(s) && runs == s.runs + [run]
    ensures forall r :: 0 <= r < |runs| && IsActive(runs[r].status) ==> runs[r] == run
  {
  }

  lemma BeforeEverything(facts: seq<ImageFacts>, position: int)
    requires forall k :: 0 <= k < |facts| ==> facts[k].position < position
    ensures Before(facts, position) == facts
  {
    if facts != [] {
      BeforeEverything(facts[..|facts| - 1], position);
    }
  }

  lemma NextPositionIsAhead(s: Store)
    ensures Before(ImageContext(s), NextPosition(s.messages)) == ImageContext(s)
  {
    hide FactsOf;
    ContextIsVisibleUsers(s, |s.messages|);
    forall k | 0 <= k < |ImageContext(s)| ensures ImageContext(s)[k].position < NextPosition(s.messages) {
      FactsName(s, ImageContext(s)[k].message);
    }
    BeforeEverything(ImageContext(s), NextPosition(s.messages));
  }

  /** The whole context, likewise. */
  lemma ContextIsExact(s: Store)
    ensures HasVision(ImageContext(s)) <==> exists id :: 0 <= id < |s.messages| && ShowsImage(s, id)
    ensures HasLegacy(ImageContext(s)) <==> exists id :: 0 <= id < |s.messages| && MentionsImage(s, id)
  {
    NextPositionIsAhead(s);
    ContextBeforeIsExact(s, NextPosition(s.messages));
    assert forall id :: 0 <= id < |s.messages| ==> s.messages[id].position < NextPosition(s.messages);
    hide *;
  }

  lemma SubmitKeepsImages(s: Store, content: string, quote: Option<Quote>, ids: seq<string>, env: Env)
    requires Inv(s) && env.supports.Some? && Submit(s, content, quote, ids, env).Ok?
    ensures ImageInv(Submit(s, content, quote, ids, env).value)
  {
    hide AttachmentPlan, VisionFiles, LegacyFiles, ContextConflict;
    hide Before, ImageContext, AnswerHolds, PinHolds, TurnBlocks;
    var t, n := Submit(s, content, quote, ids, env).value, |s.messages|;
    var blocks := SubmitPlan(s, content, quote, ids, env).value;
    var row := UserRow(content, Excerpt(quote), ids, s.messages);
    PlanNeverMixes(s.files, PlanRequest(ModelInput(Excerpt(quote), content, env), ids, {}, {}, env),
                   env.settings, env.meter);
    AppendedTurnBlocks(s, row, blocks, env);
    NextPositionIsAhead(s);
    OnlyTheNewRunIsActive(s, t.runs, t.runs[|s.runs|]);
    QueueKeepsImages(s, t, n, NextPosition(s.messages), env.supports);
  }

  lemma EditShape(s: Store, id: nat, content: string, ids: Option<seq<string>>, env: Env)
    requires Edit(s, id, content, ids, env).Ok?
    ensures var t, n := Edit(s, id, content, ids, env).value, |s.messages|;
            && id < n && |t.messages| == n + 1 && t.messages[n].runId == Some(|s.runs|) && !HasActiveRun(s)
            && t.runs == s.runs + [RunRow(n, Queued, env.supports, EditPlan(s, id, content, ids, env).value)]
            && (forall i :: 0 <= i < n ==>
                  t.messages[i] == if s.messages[i].position >= s.messages[id].position then Archive(s.messages[i])
                      else s.messages[i])
  {
    hide AttachmentPlan, ReuseConflict, Refreshed, BoundFiles, NextPosition;
  }

  lemma EditPlanIsChecked(s: Store, id: nat, content: string, ids: Option<seq<string>>, env: Env)
    requires Edit(s, id, content, ids, env).Ok?
    ensures ContextConflict(Before(ImageContext(s), s.messages[id].position), env.supports).None?
    ensures var blocks := EditPlan(s, id, content, ids, env).value;
            && (env.supports != Some(true) ==> VisionFiles(blocks) == {})
            && (env.supports == Some(true) ==> LegacyFiles(blocks) == {})
  {
    hide AttachmentPlan, VisionFiles, LegacyFiles, ContextConflict, Before, ImageContext, AppendTurn, Refreshed;
    PlanNeverMixes(s.files, PlanRequest(ModelInput(s.messages[id].quote, content, env), Selected(s, id, ids),
                                        Elements(AttachedFiles(s, id)), LegacyNotices(s, id), env),
                   env.settings, env.meter);
  }

  lemma EditKeepsImages(s: Store, id: nat, content: string, ids: Option<seq<string>>, env: Env)
    requires Inv(s) && env.supports.Some? && Edit(s, id, content, ids, env).Ok?
    ensures ImageInv(Edit(s, id, content, ids, env).value)
  {
    EditShape(s, id, content, ids, env);
    EditPlanIsChecked(s, id, content, ids, env);
    hide Edit, EditPlan, HasActiveRun, AnswerHolds, PinHolds, OneAnswer;
    hide RunAnchors, ContextConflict, Before, ImageContext, VisionFiles, LegacyFiles;
    var t := Edit(s, id, content, ids, env).value;
    OnlyTheNewRunIsActive(s, t.runs, t.runs[|s.runs|]);
    TurnBlocksReadRunsAndRow(s, t);
    QueueKeepsImages(s, t, |s.messages|, s.messages[id].position, env.supports);
  }

  /** A turn's blocks depend only on its row and the runs there were. */
  lemma TurnBlocksReadRunsAndRow(s: Store, t: Store)
    requires UserRuns(s) && |s.runs| <= |t.runs| && |s.messages| <= |t.messages|
    requires forall r :: 0 <= r < |s.runs| ==>
        t.runs[r].userMessage == s.runs[r].userMessage && t.runs[r].input == s.runs[r].input
    ensures forall id :: 0 <= id < |s.messages| && s.messages[id].role == User && t.messages[id] == s.messages[id] ==>
        SameTurn(s, t, id)
  {
  }

  lemma RegenerateKeepsImages(s: Store, id: nat, env: Env)
    requires Inv(s) && env.supports.Some? && Regenerate(s, id, env).Ok?
    ensures ImageInv(Regenerate(s, id, env).value)
  {
    hide AttachmentPlan, VisionFiles, LegacyFiles, ContextConflict, Before, ImageContext, AnswerHolds, PinHolds, Anchor;
    AnchorIsUserMessage(s, id);
    var t, anchor := Regenerate(s, id, env).value, Anchor(s, id).value;
    var row := s.messages[anchor];
    PlanNeverMixes(s.files, PlanRequest(ModelInput(row.quote, row.content, env), AttachedFiles(s, anchor),
                                        Elements(AttachedFiles(s, anchor)), LegacyNotices(s, anchor), env),
                   env.settings, env.meter);
    OnlyTheNewRunIsActive(s, t.runs, t.runs[|s.runs|]);
    TurnBlocksReadRunsAndRow(s, t);
    QueueKeepsImages(s, t, anchor, row.position, env.supports);
  }

  /** Steps that queue no run and add no user turn. */
  ghost predicate IsQuiet(s: Store, t: Store) {
    && |t.runs| == |s.runs| && |s.messages| <= |t.messages|
    && (forall r :: 0 <= r < |s.runs| ==> s.runs[r].(status := t.runs[r].status) == t.runs[r])
    && (forall i :: 0 <= i < |s.messages| ==> t.messages[i] == s.messages[i])
    && (forall i :: |s.messages| <= i < |t.messages| ==> t.messages[i].role == Assistant)
  }

  lemma QuietStepAddsNoImage(s: Store, t: Store)
    requires Inv(s) && IsQuiet(s, t)
    ensures forall id :: 0 <= id < |t.messages| && ShowsImage(t, id) ==> id < |s.messages| && ShowsImage(s, id)
    ensures forall id :: 0 <= id < |t.messages| && MentionsImage(t, id) ==> id < |s.messages| && MentionsImage(s, id)
  {
    TurnBlocksReadRunsAndRow(s, t);
    hide VisionFiles, LegacyFiles, TurnBlocks, AnswerHolds, PinHolds, UserRuns, OneAnswer, RunAnchors;
    forall id | 0 <= id < |t.messages|
      ensures ShowsImage(t, id) ==> id < |s.messages| && ShowsImage(s, id)
      ensures MentionsImage(t, id) ==> id < |s.messages| && MentionsImage(s, id)
    {
      if id < |s.messages| && s.messages[id].role == User {
        assert SameTurn(s, t, id);
      }
    }
  }

  lemma QuietStepKeepsImages(s: Store, t: Store)
    requires Inv(s) && ImageInv(s) && IsQuiet(s, t)
    requires forall r :: 0 <= r < |s.runs| && IsActive(t.runs[r].status) ==> IsActive(s.runs[r].status)
    ensures ImageInv(t)
  {
    QuietStepAddsNoImage(s, t);
    hide ShowsImage, MentionsImage, Inv;
  }

  predicate FlagsKnown(step: Step) {
    step.SubmitStep? || step.EditStep? || step.RegenerateStep? ==> step.env.supports.Some?
  }

  lemma StepKeepsImages(s: Store, step: Step)
    requires Inv(s) && ImageInv(s) && FlagsKnown(step)
    ensures ImageInv(After(s, step))
  {
    hide Inv, ImageInv, Submit, Edit, Regenerate, NextPosition;
    match step
    case SubmitStep(content, quote, ids, env) =>
      if Submit(s, content, quote, ids, env).Ok? {
        SubmitKeepsImages(s, content, quote, ids, env);
      }
    case EditStep(message, content, ids, env) =>
      if Edit(s, message, content, ids, env).Ok? {
        EditKeepsImages(s, message, content, ids, env);
      }
    case RegenerateStep(message, env) =>
      if Regenerate(s, message, env).Ok? {
        RegenerateKeepsImages(s, message, env);
      }
    case FinishStep(run, content) => QuietStepKeepsImages(s, After(s, step));
    case StatusStep(run, action) => QuietStepKeepsImages(s, After(s, step));
    case FilesStep(files) => QuietStepKeepsImages(s, After(s, step));
  }

  /** In every reachable conversation images and image notices never meet, and no
      active run's model is given a turn it cannot be shown, as long as every
      queueing call names its model's capability. */
  lemma {:induction false} ContextsNeverMix(steps: seq<Step>)
    requires forall k :: 0 <= k < |steps| ==> FlagsKnown(steps[k])
    ensures ImageInv(AfterAll(EmptyStore, steps))
  {
    hide After;
    if steps != [] {
      ContextsNeverMix(steps[..|steps| - 1]);
      EveryHistoryKeepsInv(steps[..|steps| - 1]);
      StepKeepsImages(AfterAll(EmptyStore, steps[..|steps| - 1]), steps[|steps| - 1]);
    }
  }

  lemma {:induction false} FirstLegacyIsFirst(facts: seq<ImageFacts>)
    ensures FirstLegacy(facts).Some? <==> HasLegacy(facts)
    ensures FirstLegacy(facts).Some? ==>
              exists k :: 0 <= k < |facts| && facts[k].legacy != {} && facts[k].message == FirstLegacy(facts).value
                          && forall j :: 0 <= j < k ==> facts[j].legacy == {}
  {
    if facts != [] && facts[0].legacy == {} {
      FirstLegacyIsFirst(facts[1..]);
      assert HasLegacy(facts) <==> HasLegacy(facts[1..]) by {
        assert forall k :: 0 < k < |facts| ==> facts[k] == facts[1..][k - 1];
      }
      if HasLegacy(facts[1..]) {
        var k :| 0 <= k < |facts[1..]| && facts[1..][k].legacy != {}
            && facts[1..][k].message == FirstLegacy(facts[1..]).value
                 && forall j :: 0 <= j < k ==> facts[1..][j].legacy == {};
        assert facts[k + 1] == facts[1..][k];
        assert forall j :: 0 < j < k + 1 ==> facts[j] == facts[1..][j - 1];
      }
    }
  }

  /** A model with vision is refused exactly when a visible turn mentions an image, and
      the refusal names such a turn; a model without is refused exactly when one shows
      an image. */
  lemma RefusalsAreExact(s: Store, supports: bool)
    requires Unmixed(s)
    ensures var refused := ContextConflict(ImageContext(s), Some(supports));
            if supports then
              && (refused.Some? <==> exists id :: 0 <= id < |s.messages| && MentionsImage(s, id))
              && (refused.Some? ==> refused.value.LegacyImageContext? && refused.value.message.Some?
                                    && MentionsImage(s, refused.value.message.value))
            else refused == if exists id :: 0 <= id < |s.messages| && ShowsImage(s, id) then Some(VisionModelRequired)
                else None
  {
    hide VisionFiles, LegacyFiles, TurnBlocks;
    var facts := ImageContext(s);
    ContextIsExact(s);
    FirstLegacyIsFirst(facts);
    ContextIsVisibleUsers(s, |s.messages|);
    hide ContextOf, HasVision, HasLegacy, FirstLegacy;
  }

  // ------------------------------------------------------------------- detached files

  /** A file marked detached is attached to no visible message. */
  ghost predicate DetachedUnreferenced(s: Store) {
    forall f :: f in s.detached ==> !Referenced(s.messages, f)
  }

  lemma AppendKeepsDetached(s: Store, row: MessageRow, blocks: seq<Block>, env: Env)
    requires DetachedUnreferenced(s)
    ensures DetachedUnreferenced(AppendTurn(s, row, blocks, env))
  {
    var t := AppendTurn(s, row, blocks, env);
    forall f | f in t.detached ensures !Referenced(t.messages, f) {
      ReferencedSnoc(s.messages, row.(runId := Some(|s.runs|)), f);
    }
  }

  lemma ReferencedSnoc(rows: seq<MessageRow>, row: MessageRow, f: string)
    ensures Referenced(rows + [row], f) ==> Referenced(rows, f) || Attaches(row, f)
  {
  }

  lemma ArchivingKeepsDetached(s: Store, rows: seq<MessageRow>)
    requires DetachedUnreferenced(s) && |rows| == |s.messages|
    requires forall i :: 0 <= i < |rows| ==>
               rows[i].archived || (!s.messages[i].archived && rows[i].attachments == s.messages[i].attachments)
    ensures DetachedUnreferenced(s.(messages := rows))
  {
    forall f | f in s.detached && Referenced(rows, f) ensures false {
      var i :| 0 <= i < |rows| && Attaches(rows[i], f);
      assert Attaches(s.messages[i], f);
    }
  }

  lemma RefreshKeepsDetached(s: Store, touched: set<string>)
    requires DetachedUnreferenced(s)
    ensures DetachedUnreferenced(s.(detached := Refreshed(s, touched)))
  {
    hide Referenced;
  }

  lemma EditKeepsDetached(s: Store, id: nat, content: string, ids: Option<seq<string>>, env: Env)
    requires DetachedUnreferenced(s) && Edit(s, id, content, ids, env).Ok?
    ensures DetachedUnreferenced(Edit(s, id, content, ids, env).value)
  {
    hide DetachedUnreferenced, AttachmentPlan, ReuseConflict, Refreshed, AppendTurn;
    var selected, inherited := Selected(s, id, ids), AttachedFiles(s, id);
    var cut := s.(messages := ArchiveFrom(s.messages, s.messages[id].position));
    var blocks := EditPlan(s, id, content, ids, env).value;
    ArchivingKeepsDetached(s, cut.messages);
    AppendKeepsDetached(cut, UserRow(content, s.messages[id].quote, selected, cut.messages), blocks, env);
    RefreshKeepsDetached(EditTurn(s, id, content, selected, blocks, env), Elements(inherited) + Elements(selected));
  }

  lemma RegenerateKeepsDetached(s: Store, id: nat, env: Env)
    requires Inv(s) && DetachedUnreferenced(s) && Regenerate(s, id, env).Ok?
    ensures DetachedUnreferenced(Regenerate(s, id, env).value)
  {
    hide AttachmentPlan, ReuseConflict, Anchor, AnswerHolds, PinHolds, Referenced;
    AnchorIsUserMessage(s, id);
    ArchivingKeepsDetached(s, Regenerate(s, id, env).value.messages);
  }

  lemma StepKeepsDetached(s: Store, step: Step)
    requires Inv(s) && DetachedUnreferenced(s)
    ensures DetachedUnreferenced(After(s, step))
  {
    hide Inv, DetachedUnreferenced, Edit, Regenerate, AppendTurn, AttachmentPlan, ContextConflict, NextPosition;
    match step
    case SubmitStep(content, quote, ids, env) =>
      if Submit(s, content, quote, ids, env).Ok? {
        AppendKeepsDetached(s, UserRow(content, Excerpt(quote), ids, s.messages),
            SubmitPlan(s, content, quote, ids, env).value, env);
      }
    case EditStep(message, content, ids, env) =>
      if Edit(s, message, content, ids, env).Ok? {
        EditKeepsDetached(s, message, content, ids, env);
      }
    case RegenerateStep(message, env) =>
      if Regenerate(s, message, env).Ok? {
        RegenerateKeepsDetached(s, message, env);
      }
    case FinishStep(run, content) => FinishKeepsDetached(s, run, content);
    case StatusStep(run, action) => RowsKeepDetached(s, After(s, step));
    case FilesStep(files) => RowsKeepDetached(s, After(s, step));
  }

  lemma RowsKeepDetached(s: Store, t: Store)
    requires DetachedUnreferenced(s) && t.messages == s.messages && t.detached == s.detached
    ensures DetachedUnreferenced(t)
  {
  }

  lemma FinishKeepsDetached(s: Store, run: nat, content: string)
    requires DetachedUnreferenced(s)
    ensures run < |s.runs| ==> DetachedUnreferenced(Finish(s, run, content))
  {
    hide NextPosition;
    if run < |s.runs| {
      forall f | f in s.detached ensures !Referenced(Finish(s, run, content).messages, f) {
        ReferencedSnoc(s.messages, AnswerRow(s, run, content), f);
      }
    }
  }

  /** In every reachable conversation a detached file is in no visible message. */
  lemma {:induction false} DetachedFilesAreUnreferenced(steps: seq<Step>)
    ensures DetachedUnreferenced(AfterAll(EmptyStore, steps))
  {
    hide After;
    if steps != [] {
      DetachedFilesAreUnreferenced(steps[..|steps| - 1]);
      EveryHistoryKeepsInv(steps[..|steps| - 1]);
      StepKeepsDetached(AfterAll(EmptyStore, steps[..|steps| - 1]), steps[|steps| - 1]);
    }
  }
}
