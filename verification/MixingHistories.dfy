/** Concrete histories from the empty conversation in which a submit, an edit and a
    regeneration without a capability mix images and image notices. */
module MixingHistories {
  import opened Prelude
  import opened Messages
  import opened Attachments
  import opened Transcript
  import opened Conversations
  import opened ConversationSafety
  import opened ConversationRuns
  import opened ConversationImages
  import opened ConversationMixing
  import ContextTrim

  // ------------------------------------------------------------------- the set-up

  function CallEnv(supports: Option<bool>): Env {
    Env(1, 0, Settings(5, 100, 1000, 2000), ContextTrim.Meter(_ => 0, 0), (excerpt, content) => content, supports)
  }

  /** An uploaded picture with a safe preview, and the same once bound to a message. */
  function NewPicture(): FileRow {
    FileRow(1, true, false, None, Some(1), 0, Some(ImageInput), "image/png", "", "", None, Some("image-v1"),
            Some(Preview(Some(seq(64, _ => '0')), "image/webp")), Some(1), Some(1))
  }

  function BoundPicture(): FileRow {
    NewPicture().(boundAt := Some(0), unboundExpiresAt := None)
  }

  function Shown(f: string): seq<Block> {
    [Text("a"), Image(f, "")]
  }

  function Mentioned(f: string): seq<Block> {
    [Text("a"), Notice(f, "", "image/png")]
  }

  function Turn(f: string, run: nat): MessageRow {
    MessageRow(User, "a", None, Some(run), [f], run + 1, false)
  }

  /** Three pictures are uploaded; two are sent to a model with vision, and both runs
      are cancelled. */
  function SetUp(): seq<Step> {
    [FilesStep(map["p" := NewPicture(), "q" := NewPicture(), "r" := NewPicture()]),
     SubmitStep("a", None, ["p"], CallEnv(Some(true))),
     StatusStep(0, RequestCancel),
     SubmitStep("a", None, ["q"], CallEnv(Some(true))),
     StatusStep(1, RequestCancel)]
  }

  function Uploaded(): Store {
    EmptyStore.(files := map["p" := NewPicture(), "q" := NewPicture(), "r" := NewPicture()])
  }

  function OneShown(): Store {
    Store([Turn("p", 0)], [RunRow(0, Cancelled, Some(true), Shown("p"))],
          map["p" := BoundPicture(), "q" := NewPicture(), "r" := NewPicture()], {})
  }

  function TwoShown(): Store {
    Store([Turn("p", 0), Turn("q", 1)],
          [RunRow(0, Cancelled, Some(true), Shown("p")), RunRow(1, Cancelled, Some(true), Shown("q"))],
          map["p" := BoundPicture(), "q" := BoundPicture(), "r" := NewPicture()], {})
  }

  // ------------------------------------------------------------------- plans

  lemma FewTokens(blocks: seq<Block>, supports: Option<bool>)
    ensures ContextTrim.MessageTokens(Message(User, blocks), CallEnv(supports).meter) == 4
  {
    hide ContextTrim.JoinedText, ContextTrim.ImageCount;
    assert ContextTrim.ImageCount(blocks) * Max(0, 0) == 0;
  }

  lemma PictureBlock(f: string, file: FileRow, allowed: set<string>, legacy: set<string>, supports: Option<bool>)
    requires supports != Some(false) && (file == NewPicture() || (file == BoundPicture() && f in allowed))
    ensures var request := PlanRequest("a", [f], allowed, legacy, CallEnv(supports));
            && IsUsable(file, f, request) && file.size == 0
            && FileBlock(f, file, request)
               == Ok(if supports == Some(true) then Image(f, "") else Notice(f, "", "image/png"))
  {
  }

  lemma OneSize(files: map<string, FileRow>, f: string)
    requires f in files && files[f].size == 0
    ensures TotalSize(files, [f]) == 0
  {
    assert [f][..0] == [] && TotalSize(files, []) == 0;
  }

  /** One picture with one word of text is always planned. */
  lemma PicturePlan(files: map<string, FileRow>, f: string, allowed: set<string>, legacy: set<string>,
                    supports: Option<bool>)
    requires supports != Some(false) && f in files
    requires files[f] == NewPicture() || (files[f] == BoundPicture() && f in allowed)
    ensures var env := CallEnv(supports);
            AttachmentPlan(files, PlanRequest("a", [f], allowed, legacy, env), env.settings, env.meter)
              == Ok(if supports == Some(true) then Shown(f) else Mentioned(f))
  {
    var env := CallEnv(supports);
    var request := PlanRequest("a", [f], allowed, legacy, env);
    var blocks := if supports == Some(true) then Shown(f) else Mentioned(f);
    PictureBlock(f, files[f], allowed, legacy, supports);
    OneSize(files, f);
    FewTokens(blocks, supports);
    assert !IsBlankChar("a"[0]);
    hide ContextTrim.MessageTokens, IsUsable, FileBlock, TotalSize, AttachmentPlan, NewPicture, BoundPicture;
    assert blocks[..1] == TextPart("a");
    assert IsPlan(files, request, env.settings, env.meter, blocks);
    PlanAcceptsExactly(files, request, env.settings, env.meter, blocks);
  }

  // ------------------------------------------------------------------- the set-up reaches two shown turns

  lemma ShownFacts(f: string)
    ensures VisionFiles(Shown(f)) == {f} && LegacyFiles(Shown(f)) == {}
  {
    assert Shown(f)[1] in Shown(f);
  }

  /** A picture may be sent to a model with vision behind turns that mention none. */
  lemma PictureSubmit(s: Store, f: string)
    requires !HasActiveRun(s) && !HasLegacy(ImageContext(s)) && f in s.files && s.files[f] == NewPicture()
    ensures var env := CallEnv(Some(true));
            Submit(s, "a", None, [f], env) == Ok(AppendTurn(s, UserRow("a", None, [f], s.messages), Shown(f), env))
  {
    hide AttachmentPlan, AppendTurn, NewPicture, BoundPicture, ImageContext, HasActiveRun, NextPosition;
    PicturePlan(s.files, f, {}, {}, Some(true));
  }

  /** ... and the run cancelled before it starts. */
  lemma SendAndCancel(s: Store, f: string)
    requires !HasActiveRun(s) && !HasLegacy(ImageContext(s)) && f in s.files && s.files[f] == NewPicture()
    ensures var send, cancel := SubmitStep("a", None, [f], CallEnv(Some(true))), StatusStep(|s.runs|, RequestCancel);
            var row := MessageRow(User, "a", None, Some(|s.runs|), [f], NextPosition(s.messages), false);
            After(After(s, send), cancel) ==
              Store(s.messages + [row], s.runs + [RunRow(|s.messages|, Cancelled, Some(true), Shown(f))],
                    s.files[f := BoundPicture()], s.detached - {f})
  {
    PictureSubmit(s, f);
    AppendThenCancel(s, f);
    hide Submit, NewPicture, BoundPicture, NextPosition, HasActiveRun;
    hide ImageContext, HasLegacy, Shown, AppendTurn, SetStatus;
  }

  lemma AppendThenCancel(s: Store, f: string)
    requires f in s.files && s.files[f] == NewPicture()
    ensures var t := AppendTurn(s, UserRow("a", None, [f], s.messages), Shown(f), CallEnv(Some(true)));
            && |t.runs| == |s.runs| + 1 && t.runs[|s.runs|].status == Queued
            && SetStatus(t, |s.runs|, Cancelled) ==
                 Store(s.messages + [MessageRow(User, "a", None, Some(|s.runs|), [f], NextPosition(s.messages), false)],
                       s.runs + [RunRow(|s.messages|, Cancelled, Some(true), Shown(f))],
                       s.files[f := BoundPicture()], s.detached - {f})
  {
    BindsOne(s.files, f);
    hide NewPicture, BoundPicture, BoundFiles, NextPosition, Shown;
    assert Elements([f]) == {f};
  }

  lemma UploadedIsEmpty()
    ensures !HasActiveRun(Uploaded()) && !HasLegacy(ImageContext(Uploaded()))
  {
    hide NewPicture;
  }

  lemma FirstTurn()
    ensures After(After(Uploaded(), SetUp()[1]), SetUp()[2]) == OneShown()
  {
    UploadedIsEmpty();
    SendAndCancel(Uploaded(), "p");
    hide After, NewPicture, BoundPicture, ImageContext, HasActiveRun, HasLegacy, CallEnv, Shown;
    assert NextPosition(Uploaded().messages) == 1;
    assert Uploaded().files["p" := BoundPicture()] == OneShown().files;
  }

  lemma BindsOne(files: map<string, FileRow>, f: string)
    requires f in files && files[f] == NewPicture()
    ensures BoundFiles(files, [f], 0) == files[f := BoundPicture()]
  {
  }

  lemma OneShownFacts()
    ensures !HasActiveRun(OneShown()) && !HasLegacy(ImageContext(OneShown()))
  {
    ShownFacts("p");
    hide VisionFiles, LegacyFiles, NewPicture, BoundPicture;
    var s := OneShown();
    assert TurnBlocks(s, 0) == Shown("p");
    assert ContextOf(s, 1) == ContextOf(s, 0) + [FactsOf(s, 0)];
  }

  lemma SecondTurn()
    ensures After(After(OneShown(), SetUp()[3]), SetUp()[4]) == TwoShown()
  {
    OneShownFacts();
    SendAndCancel(OneShown(), "q");
    hide After, NewPicture, BoundPicture, ImageContext, HasActiveRun, HasLegacy, CallEnv, Shown;
    assert NextPosition(OneShown().messages) == 2;
    assert OneShown().files["q" := BoundPicture()] == TwoShown().files;
  }

  lemma AfterAllSnoc(steps: seq<Step>, step: Step)
    ensures AfterAll(EmptyStore, steps + [step]) == After(AfterAll(EmptyStore, steps), step)
  {
    assert (steps + [step])[..|steps|] == steps;
  }

  lemma SetUpReaches()
    ensures AfterAll(EmptyStore, SetUp()) == TwoShown()
  {
    hide After, AfterAll, TwoShown, OneShown;
    var u := SetUp();
    FirstTurn();
    SecondTurn();
    EmptyHistory();
    AfterAllSnoc([], u[0]);
    AfterAllSnoc(u[..1], u[1]);
    AfterAllSnoc(u[..2], u[2]);
    AfterAllSnoc(u[..3], u[3]);
    AfterAllSnoc(u[..4], u[4]);
    assert [] + [u[0]] == u[..1] && u[..1] + [u[1]] == u[..2] && u[..2] + [u[2]] == u[..3];
    assert u[..3] + [u[3]] == u[..4] && u[..4] + [u[4]] == u;
  }

  lemma EmptyHistory()
    ensures AfterAll(EmptyStore, []) == EmptyStore && After(EmptyStore, SetUp()[0]) == Uploaded()
  {
  }

  // ------------------------------------------------------------------- the three clashes

  function FactsP(): ImageFacts {
    ImageFacts(0, 1, {"p"}, {})
  }

  function FactsQ(): ImageFacts {
    ImageFacts(1, 2, {"q"}, {})
  }

  lemma TwoShownContext()
    ensures ImageContext(TwoShown()) == [FactsP(), FactsQ()]
  {
    ShownFacts("p");
    ShownFacts("q");
    hide VisionFiles, LegacyFiles, NewPicture, BoundPicture;
    var s := TwoShown();
    assert TurnBlocks(s, 0) == Shown("p") && TurnBlocks(s, 1) == Shown("q");
    hide Shown;
    assert ContextOf(s, 1) == ContextOf(s, 0) + [FactsOf(s, 0)] && ContextOf(s, 2) == ContextOf(s, 1) + [FactsOf(s, 1)];
  }

  lemma FactsBefore()
    ensures HasVision([FactsP(), FactsQ()]) && HasVision(Before([FactsP(), FactsQ()], 2))
    ensures ForMessage([FactsP(), FactsQ()], 1) == Some(FactsQ())
  {
    var a, b := FactsP(), FactsQ();
    assert "p" in a.vision;
    assert [a, b][0] == a && [a, b][..1] == [a] && [a][..0] == [] && [a, b][1..] == [b];
    assert Before([a], 2) == [a] && Before([a, b], 2) == [a];
    assert [a][0].vision != {};
  }

  lemma TwoShownFacts()
    ensures var s := TwoShown();
            && !HasActiveRun(s) && HasVision(ImageContext(s)) && HasVision(Before(ImageContext(s), 2))
            && ForMessage(ImageContext(s), 1) == Some(FactsQ()) && AttachedFiles(s, 1) == ["q"]
  {
    TwoShownContext();
    FactsBefore();
    hide ImageContext, HasVision, Before, ForMessage, NewPicture, BoundPicture;
    assert Present([], TwoShown().files) == [] && ["q"][..0] == [];
  }

  /** The three calls that name no capability. */
  function BlindSteps(): seq<Step> {
    [SubmitStep("a", None, ["r"], CallEnv(None)),
     EditStep(1, "a", None, CallEnv(None)),
     RegenerateStep(1, CallEnv(None))]
  }

  lemma BlindPictureSubmit(s: Store, f: string)
    requires !HasActiveRun(s) && f in s.files && s.files[f] == NewPicture()
    ensures Submit(s, "a", None, [f], CallEnv(None)).Ok? && AttachesPicture(s.files, [f])
  {
    PicturePlan(s.files, f, {}, {}, None);
    assert IsPicture(s.files[f]) && [f][0] in s.files;
    hide AttachmentPlan, AppendTurn, NewPicture, ImageContext, HasActiveRun, NextPosition, HasVision, IsPicture;
  }

  lemma SubmitIsAccepted()
    ensures IsAccepted(TwoShown(), BlindSteps()[0]) && IsBlindClash(TwoShown(), BlindSteps()[0])
  {
    TwoShownFacts();
    BlindPictureSubmit(TwoShown(), "r");
    hide Submit, NewPicture, BoundPicture, ImageContext, HasVision, AttachesPicture, HasActiveRun;
  }

  lemma BlindReuse(s: Store, id: nat, f: string, facts: ImageFacts)
    requires id < |s.messages| && !HasActiveRun(s) && f in s.files && s.files[f] == BoundPicture()
    requires AttachedFiles(s, id) == [f]
    requires ForMessage(ImageContext(s), id) == Some(facts) && facts.vision == {f} && facts.legacy == {}
    ensures ReusePlan(s, id, "a", [f], true, CallEnv(None)) == Ok(Mentioned(f)) && AttachesPicture(s.files, [f])
  {
    PicturePlan(s.files, f, Elements([f]), LegacyNotices(s, id), None);
    assert IsPicture(s.files[f]) && [f][0] in s.files;
    hide AttachmentPlan, BoundPicture, ImageContext, HasActiveRun;
    hide HasVision, ForMessage, IsPicture, Before, AttachedFiles;
    assert SnapshotHolds(ForMessage(ImageContext(s), id), [f]);
  }

  lemma ReuseIsAccepted()
    ensures ReusePlan(TwoShown(), 1, "a", ["q"], true, CallEnv(None)) == Ok(Mentioned("q"))
    ensures AttachesPicture(TwoShown().files, ["q"])
  {
    TwoShownFacts();
    hide ImageContext, HasActiveRun, HasVision, ForMessage, Before;
    hide NewPicture, BoundPicture, ReusePlan, AttachesPicture, Present;
    BlindReuse(TwoShown(), 1, "q", FactsQ());
  }

  lemma EditIsAccepted()
    ensures IsAccepted(TwoShown(), BlindSteps()[1]) && IsBlindClash(TwoShown(), BlindSteps()[1])
  {
    TwoShownFacts();
    ReuseIsAccepted();
    hide ReusePlan, AppendTurn, Refreshed, NewPicture, BoundPicture;
    hide ImageContext, HasVision, AttachesPicture, Before, Present;
  }

  lemma RegenerationIsAccepted()
    ensures IsAccepted(TwoShown(), BlindSteps()[2]) && IsBlindClash(TwoShown(), BlindSteps()[2])
  {
    TwoShownFacts();
    ReuseIsAccepted();
    hide ReusePlan, NewPicture, BoundPicture, ImageContext, HasVision, AttachesPicture, Before, Present;
  }

  /** From the empty conversation, after a set-up in which every call names its model's
      capability, each of the three calls without one mixes images and image notices. */
  lemma MixingHappens(k: nat)
    requires k < 3
    ensures forall i :: 0 <= i < |SetUp()| ==> FlagsKnown(SetUp()[i])
    ensures Unmixed(AfterAll(EmptyStore, SetUp())) && !Unmixed(AfterAll(EmptyStore, SetUp() + [BlindSteps()[k]]))
  {
    hide Unmixed, After, AfterAll, IsAccepted, IsBlindClash, Inv, TwoShown;
    SetUpReaches();
    ContextsNeverMix(SetUp());
    EveryHistoryKeepsInv(SetUp());
    SubmitIsAccepted();
    EditIsAccepted();
    RegenerationIsAccepted();
    OnlyBlindClashesMix(TwoShown(), BlindSteps()[k]);
    AfterAllSnoc(SetUp(), BlindSteps()[k]);
  }
}
