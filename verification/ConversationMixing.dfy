/** What happens when a queueing call does not name its model's image capability:
    which calls then mix images and image notices, and histories that do. */
module ConversationMixing {
  import opened Prelude
  import opened Messages
  import opened Attachments
  import opened Transcript
  import opened Conversations
  import opened ConversationSafety
  import opened ConversationRuns
  import opened ConversationImages
  import ContextTrim

  // ------------------------------------------------------------------- the condition

  /** An image file, as its row says, that is not read as a document. */
  predicate IsPicture(file: FileRow) {
    file.kind != Some(DocumentInput) && IsImageMedia(file.mediaType)
  }

  predicate AttachesPicture(files: map<string, FileRow>, ids: seq<string>) {
    exists i :: 0 <= i < |ids| && ids[i] in files && IsPicture(files[ids[i]])
  }

  /** Without a capability an accepted file becomes an image notice exactly when its
      row describes a picture. */
  lemma BlindBlock(id: string, file: FileRow, request: Request)
    requires request.supports.None? && FileBlock(id, file, request).Ok?
    ensures var b := FileBlock(id, file, request).value; b.Notice? && IsImageMedia(b.mediaType) <==> IsPicture(file)
  {
    hide IsImageMedia;
  }

  lemma InLegacy(blocks: seq<Block>, k: nat)
    requires k < |blocks| && blocks[k].Notice? && IsImageMedia(blocks[k].mediaType)
    ensures LegacyFiles(blocks) != {}
  {
    assert blocks[k] in blocks && blocks[k].fileId in LegacyFiles(blocks);
  }

  lemma LegacyBlock(blocks: seq<Block>) returns (k: nat)
    requires LegacyFiles(blocks) != {}
    ensures k < |blocks| && blocks[k].Notice? && IsImageMedia(blocks[k].mediaType)
  {
    var f :| f in LegacyFiles(blocks);
    var b :| b in blocks && b.Notice? && IsImageMedia(b.mediaType) && b.fileId == f;
    k :| 0 <= k < |blocks| && blocks[k] == b;
  }

  /** Without a capability an accepted plan shows no image, and mentions one exactly
      when a picture is attached. */
  lemma BlindPlanMentions(files: map<string, FileRow>, request: Request, settings: Settings, meter: ContextTrim.Meter)
    requires request.supports.None? && AttachmentPlan(files, request, settings, meter).Ok?
    ensures var plan := AttachmentPlan(files, request, settings, meter).value;
            VisionFiles(plan) == {} && (LegacyFiles(plan) != {} <==> AttachesPicture(files, request.ids))
  {
    PlanNeverMixes(files, request, settings, meter);
    PlanIsOneBlockPerFile(files, request, settings, meter);
    hide AttachmentPlan, FileBlock, IsUsable, LegacyFiles, VisionFiles, IsImageMedia;
    var plan, n := AttachmentPlan(files, request, settings, meter).value, |TextPart(request.content)|;
    if AttachesPicture(files, request.ids) {
      var i :| 0 <= i < |request.ids| && request.ids[i] in files && IsPicture(files[request.ids[i]]);
      BlindBlock(request.ids[i], files[request.ids[i]], request);
      InLegacy(plan, n + i);
    }
    if LegacyFiles(plan) != {} {
      var k := LegacyBlock(plan);
      BlindBlock(request.ids[k - n], files[request.ids[k - n]], request);
    }
  }

  /** Replacing or adding one turn that shows no image, behind the old turns before a
      position, mixes an unmixed store exactly when it mentions one behind a shown one. */
  lemma BlindTurnMixes(s: Store, t: Store, turn: nat, position: int)
    requires Unmixed(s) && IsVisible(t.messages, turn) && t.messages[turn].role == User
    requires VisionFiles(TurnBlocks(t, turn)) == {}
    requires forall id ::
               0 <= id < |t.messages| && id != turn && IsVisible(t.messages, id) && t.messages[id].role == User ==>
               SameTurn(s, t, id) && s.messages[id].position < position
    requires forall id :: 0 <= id < |s.messages| && IsVisible(s.messages, id) && s.messages[id].role == User ==>
               s.messages[id].position < position ==> id != turn && SameTurn(s, t, id)
    ensures Unmixed(t) <==> !(HasVision(Before(ImageContext(s), position)) && LegacyFiles(TurnBlocks(t, turn)) != {})
  {
    ContextBeforeIsExact(s, position);
    hide Before, ImageContext, VisionFiles, LegacyFiles, TurnBlocks, HasVision, HasLegacy;
    assert MentionsImage(t, turn) <==> LegacyFiles(TurnBlocks(t, turn)) != {};
    assert !ShowsImage(t, turn);
    if HasVision(Before(ImageContext(s), position)) && MentionsImage(t, turn) {
      var id :| 0 <= id < |s.messages| && ShowsImage(s, id) && s.messages[id].position < position;
      assert SameTurn(s, t, id) && ShowsImage(t, id);
    } else {
      forall id | 0 <= id < |t.messages| && id != turn
        ensures ShowsImage(t, id) ==> id < |s.messages| && ShowsImage(s, id) && s.messages[id].position < position
        ensures MentionsImage(t, id) ==> id < |s.messages| && MentionsImage(s, id)
      {
        assert IsVisible(t.messages, id) && t.messages[id].role == User ==> SameTurn(s, t, id);
      }
    }
  }

  // ------------------------------------------------------------------- the three calls

  /** An accepted submit that names no capability mixes the context if and only if some
      visible turn shows an image and a picture is attached. */
  lemma BlindSubmitMixes(s: Store, content: string, quote: Option<Quote>, ids: seq<string>, env: Env)
    requires Inv(s) && Unmixed(s) && env.supports.None? && Submit(s, content, quote, ids, env).Ok?
    ensures Unmixed(Submit(s, content, quote, ids, env).value) <==>
            !(HasVision(ImageContext(s)) && AttachesPicture(s.files, ids))
  {
    var t, n := Submit(s, content, quote, ids, env).value, |s.messages|;
    var request := PlanRequest(ModelInput(Excerpt(quote), content, env), ids, {}, {}, env);
    BlindPlanMentions(s.files, request, env.settings, env.meter);
    hide AttachmentPlan, VisionFiles, LegacyFiles, ContextConflict, ImageContext, HasVision;
    hide AnswerHolds, PinHolds, TurnBlocks, Unmixed, AttachesPicture, Before;
    AppendedTurnBlocks(s, UserRow(content, Excerpt(quote), ids, s.messages),
        SubmitPlan(s, content, quote, ids, env).value, env);
    NextPositionIsAhead(s);
    BlindTurnMixes(s, t, n, NextPosition(s.messages));
  }

  /** An accepted edit that names no capability mixes the context if and only if a
      visible turn before the target shows an image and a picture is selected. */
  lemma BlindEditMixes(s: Store, id: nat, content: string, ids: Option<seq<string>>, env: Env)
    requires Inv(s) && Unmixed(s) && env.supports.None? && Edit(s, id, content, ids, env).Ok?
    ensures id < |s.messages|
    ensures Unmixed(Edit(s, id, content, ids, env).value) <==>
            !(HasVision(Before(ImageContext(s), s.messages[id].position))
                && AttachesPicture(s.files, Selected(s, id, ids)))
  {
    EditShape(s, id, content, ids, env);
    EditedRow(s, id, content, ids, env);
    BlindEditPlan(s, id, content, ids, env);
    hide Edit, EditPlan, AnswerHolds, PinHolds, OneAnswer, RunAnchors, Before, ImageContext, VisionFiles, LegacyFiles;
    hide HasVision, AttachesPicture, Unmixed, Selected;
    var t := Edit(s, id, content, ids, env).value;
    TurnBlocksReadRunsAndRow(s, t);
    BlindTurnMixes(s, t, |s.messages|, s.messages[id].position);
  }

  lemma EditedRow(s: Store, id: nat, content: string, ids: Option<seq<string>>, env: Env)
    requires Edit(s, id, content, ids, env).Ok?
    ensures var t := Edit(s, id, content, ids, env).value;
            |t.messages| == |s.messages| + 1 && t.messages[|s.messages|].role == User
                && !t.messages[|s.messages|].archived
  {
    hide AttachmentPlan, ReuseConflict, Refreshed, BoundFiles, NextPosition;
  }

  lemma BlindEditPlan(s: Store, id: nat, content: string, ids: Option<seq<string>>, env: Env)
    requires env.supports.None? && Edit(s, id, content, ids, env).Ok?
    ensures var blocks := EditPlan(s, id, content, ids, env).value;
            VisionFiles(blocks) == {} && (LegacyFiles(blocks) != {} <==> AttachesPicture(s.files, Selected(s, id, ids)))
  {
    hide AttachmentPlan, VisionFiles, LegacyFiles, AttachesPicture, ReuseConflict, AppendTurn, Refreshed;
    BlindPlanMentions(s.files, PlanRequest(ModelInput(s.messages[id].quote, content, env), Selected(s, id, ids),
                                           Elements(AttachedFiles(s, id)), LegacyNotices(s, id), env),
                      env.settings, env.meter);
  }

  /** An accepted regeneration that names no capability mixes the context if and only if a
      visible turn before the anchor shows an image and the anchor has a picture attached:
      the anchor's own image turns into a notice. */
  lemma BlindRegenerateMixes(s: Store, id: nat, env: Env)
    requires Inv(s) && Unmixed(s) && env.supports.None? && Regenerate(s, id, env).Ok?
    ensures Anchor(s, id).Ok? && Anchor(s, id).value < |s.messages|
    ensures var anchor := Anchor(s, id).value;
            Unmixed(Regenerate(s, id, env).value) <==>
            !(HasVision(Before(ImageContext(s), s.messages[anchor].position))
                && AttachesPicture(s.files, AttachedFiles(s, anchor)))
  {
    hide AttachmentPlan, VisionFiles, LegacyFiles, ReuseConflict, Before, ImageContext, AnswerHolds, PinHolds, Anchor;
    hide HasVision, AttachesPicture, Unmixed;
    AnchorIsUserMessage(s, id);
    var t, anchor := Regenerate(s, id, env).value, Anchor(s, id).value;
    var row := s.messages[anchor];
    BlindPlanMentions(s.files, PlanRequest(ModelInput(row.quote, row.content, env), AttachedFiles(s, anchor),
                                           Elements(AttachedFiles(s, anchor)), LegacyNotices(s, anchor), env),
                      env.settings, env.meter);
    TurnBlocksReadRunsAndRow(s, t);
    BlindTurnMixes(s, t, anchor, row.position);
  }

  // ------------------------------------------------------------------- whole histories

  ghost predicate IsAccepted(s: Store, step: Step) {
    match step
    case SubmitStep(content, quote, ids, env) => Submit(s, content, quote, ids, env).Ok?
    case EditStep(id, content, ids, env) => Edit(s, id, content, ids, env).Ok?
    case RegenerateStep(id, env) => Regenerate(s, id, env).Ok?
    case _ => true
  }

  /** A queueing call without a capability whose files clash with the turns it is queued
      behind. */
  ghost predicate IsBlindClash(s: Store, step: Step) {
    match step
    case SubmitStep(_, _, ids, env) =>
      env.supports.None? && HasVision(ImageContext(s)) && AttachesPicture(s.files, ids)
    case EditStep(id, _, ids, env) =>
      && env.supports.None? && id < |s.messages|
      && HasVision(Before(ImageContext(s), s.messages[id].position)) && AttachesPicture(s.files, Selected(s, id, ids))
    case RegenerateStep(id, env) =>
      && env.supports.None? && Anchor(s, id).Ok? && Anchor(s, id).value < |s.messages|
      && HasVision(Before(ImageContext(s), s.messages[Anchor(s, id).value].position))
      && AttachesPicture(s.files, AttachedFiles(s, Anchor(s, id).value))
    case _ => false
  }

  /** A step mixes an unmixed context if and only if it is an accepted blind clash. */
  lemma OnlyBlindClashesMix(s: Store, step: Step)
    requires Inv(s) && Unmixed(s)
    ensures Unmixed(After(s, step)) <==> !(IsAccepted(s, step) && IsBlindClash(s, step))
  {
    match step
    case SubmitStep(content, quote, ids, env) => SubmitClash(s, content, quote, ids, env);
    case EditStep(id, content, ids, env) => EditClash(s, id, content, ids, env);
    case RegenerateStep(id, env) => RegenerateClash(s, id, env);
    case FinishStep(run, content) => QuietUnmixed(s, step);
    case StatusStep(run, action) => QuietUnmixed(s, step);
    case FilesStep(files) => QuietUnmixed(s, step);
  }

  lemma QuietUnmixed(s: Store, step: Step)
    requires Inv(s) && Unmixed(s) && (step.FinishStep? || step.StatusStep? || step.FilesStep?)
    ensures Unmixed(After(s, step))
  {
    hide NextPosition, Inv;
    QuietStepAddsNoImage(s, After(s, step));
    hide ShowsImage, MentionsImage;
  }

  lemma SubmitClash(s: Store, content: string, quote: Option<Quote>, ids: seq<string>, env: Env)
    requires Inv(s) && Unmixed(s)
    ensures var step := SubmitStep(content, quote, ids, env);
            Unmixed(After(s, step)) <==> !(IsAccepted(s, step) && IsBlindClash(s, step))
  {
    hide Inv, Unmixed, Submit, ImageContext, HasVision, AttachesPicture;
    if Submit(s, content, quote, ids, env).Ok? {
      if env.supports.Some? {
        SubmitKeepsImages(s, content, quote, ids, env);
      } else {
        BlindSubmitMixes(s, content, quote, ids, env);
      }
    }
  }

  lemma EditClash(s: Store, id: nat, content: string, ids: Option<seq<string>>, env: Env)
    requires Inv(s) && Unmixed(s)
    ensures var step := EditStep(id, content, ids, env);
            Unmixed(After(s, step)) <==> !(IsAccepted(s, step) && IsBlindClash(s, step))
  {
    hide Inv, Unmixed, Edit, ImageContext, HasVision, AttachesPicture, Before;
    if Edit(s, id, content, ids, env).Ok? {
      if env.supports.Some? {
        EditKeepsImages(s, id, content, ids, env);
      } else {
        BlindEditMixes(s, id, content, ids, env);
      }
    }
  }

  lemma RegenerateClash(s: Store, id: nat, env: Env)
    requires Inv(s) && Unmixed(s)
    ensures var step := RegenerateStep(id, env);
            Unmixed(After(s, step)) <==> !(IsAccepted(s, step) && IsBlindClash(s, step))
  {
    hide Inv, Unmixed, Regenerate, ImageContext, HasVision, AttachesPicture, Before, Anchor;
    if Regenerate(s, id, env).Ok? {
      if env.supports.Some? {
        RegenerateKeepsImages(s, id, env);
      } else {
        BlindRegenerateMixes(s, id, env);
      }
    }
  }

  /** Step `k` of a history was accepted and clashed. */
  ghost predicate ClashedAt(steps: seq<Step>, k: nat) {
    k < |steps| && IsAccepted(AfterAll(EmptyStore, steps[..k]), steps[k])
        && IsBlindClash(AfterAll(EmptyStore, steps[..k]), steps[k])
  }

  ghost predicate UnmixedAt(steps: seq<Step>, k: nat) {
    k <= |steps| && Unmixed(AfterAll(EmptyStore, steps[..k]))
  }

  /** A conversation is unmixed after every one of its steps if and only if none of them
      was an accepted blind clash. */
  lemma UnmixedExactlyWithoutClashes(steps: seq<Step>)
    ensures (forall k :: 0 <= k <= |steps| ==> UnmixedAt(steps, k)) <==>
            (forall k :: 0 <= k < |steps| ==> !ClashedAt(steps, k))
  {
    if forall k :: 0 <= k <= |steps| ==> UnmixedAt(steps, k) {
      hide UnmixedAt, ClashedAt;
      forall k | 0 <= k < |steps| ensures !ClashedAt(steps, k) {
        assert UnmixedAt(steps, k) && UnmixedAt(steps, k + 1);
        StepInHistory(steps, k);
      }
    } else if forall k :: 0 <= k < |steps| ==> !ClashedAt(steps, k) {
      hide UnmixedAt, ClashedAt;
      forall k | 0 <= k <= |steps| ensures UnmixedAt(steps, k) {
        UnmixedSoFar(steps, k);
      }
    }
  }

  lemma StepInHistory(steps: seq<Step>, k: nat)
    requires k < |steps| && UnmixedAt(steps, k)
    ensures UnmixedAt(steps, k + 1) <==> !ClashedAt(steps, k)
  {
    hide After, Unmixed, IsAccepted, IsBlindClash, Inv;
    EveryHistoryKeepsInv(steps[..k]);
    assert steps[..k + 1][..k] == steps[..k];
    OnlyBlindClashesMix(AfterAll(EmptyStore, steps[..k]), steps[k]);
  }

  lemma {:induction false} UnmixedSoFar(steps: seq<Step>, k: nat)
    requires k <= |steps| && forall i :: 0 <= i < |steps| ==> !ClashedAt(steps, i)
    ensures UnmixedAt(steps, k)
    decreases k
  {
    if k > 0 {
      hide UnmixedAt, ClashedAt;
      UnmixedSoFar(steps, k - 1);
      StepInHistory(steps, k - 1);
    }
  }
}
