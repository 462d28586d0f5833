/** Planning the content blocks of a user turn from its text and attached files. */
module Attachments {
  import opened Prelude
  import opened Messages
  import opened ContextTrim

  datatype InputKind = DocumentInput | ImageInput

  datatype Preview = Preview(sha256: Option<string>, mediaType: string)

  /** A file asset. `metadata` stands for the fields a block copies verbatim
      (filename, media type, hash, extractor version, warnings, summary). */
  datatype FileRow = FileRow(
    owner: int,
    isMessageAttachment: bool,
    deletionStarted: bool,
    boundAt: Option<int>,
    unboundExpiresAt: Option<int>,
    size: int,
    kind: Option<InputKind>,
    mediaType: string,
    filename: string,
    metadata: string,
    documentText: Option<string>,
    extractorVersion: Option<string>,
    preview: Option<Preview>,
    width: Option<int>,
    height: Option<int>)

  datatype Settings = Settings(maxAttachments: int, maxMessageBytes: int, targetTurnTokens: int, contextBudget: nat)

  /** What one planning call is given besides the file table. `supports` is the
      model's image capability where the caller knows it. */
  datatype Request = Request(
    user: int,
    content: string,
    ids: seq<string>,
    allowed: set<string>,
    supports: Option<bool>,
    legacyNotices: set<string>,
    now: int)

  datatype PlanError =
    | TooManyAttachments
    | DuplicateAttachments
    | AttachmentInvalid
    | AttachmentsTooLarge
    | ImageInputNotSupported
    | EmptyModelInput
    | TurnTooLarge

  // ------------------------------------------------------------------ characters

  predicate SameLetter(c: char, lower: char) {
    c == lower || ('a' <= lower <= 'z' && c == lower - 32 as char)
  }

  /** The media type starts with "image/" in any case; no other character case-folds
      to one of these letters. */
  predicate IsImageMedia(media: string) {
    && |media| >= 6 && SameLetter(media[0], 'i') && SameLetter(media[1], 'm') && SameLetter(media[2], 'a')
    && SameLetter(media[3], 'g') && SameLetter(media[4], 'e') && media[5] == '/'
  }

  // ------------------------------------------------------------------- image facts

  /** Files a turn shows the model as images. */
  function VisionFiles(blocks: seq<Block>): set<string> {
    set b | b in blocks && b.Image? :: b.fileId
  }

  /** Image files a turn only mentions by an attachment notice. */
  function LegacyFiles(blocks: seq<Block>): set<string> {
    set b | b in blocks && b.Notice? && IsImageMedia(b.mediaType) :: b.fileId
  }

  // ------------------------------------------------------------------- one file

  predicate IsUsable(file: FileRow, id: string, request: Request) {
    && file.owner == request.user && file.isMessageAttachment && !file.deletionStarted
    && (|| id in request.allowed
        || (file.boundAt.None? && file.unboundExpiresAt.Some? && file.unboundExpiresAt.value > request.now))
  }

  /** A stored preview the model may be shown. */
  predicate HasSafePreview(file: FileRow) {
    && file.preview.Some? && file.preview.value.sha256.Some? && |file.preview.value.sha256.value| == 64
    && file.preview.value.mediaType == "image/webp"
    && file.width.Some? && file.width.value > 0 && file.height.Some? && file.height.value > 0
    && (file.extractorVersion == Some("image-v1") || file.extractorVersion == Some("image-v2"))
  }

  function NoticeOf(id: string, file: FileRow): Block {
    Notice(id, file.filename, file.mediaType)
  }

  function FileBlock(id: string, file: FileRow, request: Request): Result<Block, PlanError> {
    match file.kind
    case Some(DocumentInput) =>
      if file.documentText.None? || file.documentText.value == "" then Err(AttachmentInvalid)
      else Ok(Document(id, file.metadata, file.documentText.value))
    case Some(ImageInput) =>
      if !IsImageMedia(file.mediaType) then Err(AttachmentInvalid)
      else if request.supports == Some(false) && id !in request.legacyNotices then Err(ImageInputNotSupported)
      else if request.supports == Some(true) then
        if HasSafePreview(file) then Ok(Image(id, file.metadata)) else Err(AttachmentInvalid)
      else Ok(NoticeOf(id, file))
    case None =>
      if request.supports == Some(true) && IsImageMedia(file.mediaType) then Err(AttachmentInvalid)
      else Ok(NoticeOf(id, file))
  }

  // ------------------------------------------------------------------- the plan

  function Elements(ids: seq<string>): set<string> {
    set id | id in ids
  }

  ghost predicate Distinct(ids: seq<string>) {
    forall i, j :: 0 <= i < j < |ids| ==> ids[i] != ids[j]
  }

  function TotalSize(files: map<string, FileRow>, ids: seq<string>): int
    requires forall i :: 0 <= i < |ids| ==> ids[i] in files
  {
    if ids == [] then 0 else TotalSize(files, ids[..|ids| - 1]) + files[ids[|ids| - 1]].size
  }

  function TextPart(content: string): seq<Block> {
    if content == "" then [] else [Text(content)]
  }

  /** The blocks of the files in order, or the first file's error. */
  function FileBlocks(files: map<string, FileRow>, ids: seq<string>, request: Request): Result<seq<Block>, PlanError>
    requires forall i :: 0 <= i < |ids| ==> ids[i] in files
  {
    if ids == [] then Ok([])
    else
      var front := FileBlocks(files, ids[..|ids| - 1], request);
      if front.Err? then front
      else
        var last := FileBlock(ids[|ids| - 1], files[ids[|ids| - 1]], request);
        if last.Err? then Err(last.error) else Ok(front.value + [last.value])
  }

  predicate IsReadable(block: Block) {
    block.Document? || block.Image?
  }

  function TurnLimit(settings: Settings): int {
    Min(settings.targetTurnTokens, settings.contextBudget / 2)
  }

  /** The last two admission tests, on the planned blocks. */
  function Admitted(content: string, blocks: seq<Block>, settings: Settings, meter: Meter): Result<seq<Block>,
                    PlanError> {
    if IsBlank(content) && !exists k :: 0 <= k < |blocks| && IsReadable(blocks[k]) then Err(EmptyModelInput)
    else if MessageTokens(Message(User, blocks), meter) > TurnLimit(settings) then Err(TurnTooLarge)
    else Ok(blocks)
  }

  ghost function AttachmentPlan(files: map<string, FileRow>, request: Request, settings: Settings, meter: Meter)
    : Result<seq<Block>, PlanError>
  {
    var ids := request.ids;
    if |ids| > settings.maxAttachments then Err(TooManyAttachments)
    else if !Distinct(ids) then Err(DuplicateAttachments)
    else if exists i :: 0 <= i < |ids| && ids[i] !in files then Err(AttachmentInvalid)
    else if exists i :: 0 <= i < |ids| && !IsUsable(files[ids[i]], ids[i], request) then Err(AttachmentInvalid)
    else if TotalSize(files, ids) > settings.maxMessageBytes then Err(AttachmentsTooLarge)
    else
      var blocks := FileBlocks(files, ids, request);
      if blocks.Err? then blocks
      else Admitted(request.content, TextPart(request.content) + blocks.value, settings, meter)
  }

  // ------------------------------------------------------------------- properties

  lemma {:induction false} BlocksFollowFiles(files: map<string, FileRow>, ids: seq<string>, request: Request)
    requires forall i :: 0 <= i < |ids| ==> ids[i] in files
    requires FileBlocks(files, ids, request).Ok?
    ensures |FileBlocks(files, ids, request).value| == |ids|
    ensures forall i :: 0 <= i < |ids| ==>
              FileBlock(ids[i], files[ids[i]], request) == Ok(FileBlocks(files, ids, request).value[i])
  {
    hide FileBlock;
    if ids != [] {
      BlocksFollowFiles(files, ids[..|ids| - 1], request);
    }
  }

  lemma {:induction false} FilesGiveBlocks(files: map<string, FileRow>, ids: seq<string>, request: Request,
                                           blocks: seq<Block>)
    requires |blocks| == |ids| && forall i :: 0 <= i < |ids| ==> ids[i] in files
    requires forall i :: 0 <= i < |ids| ==> FileBlock(ids[i], files[ids[i]], request) == Ok(blocks[i])
    ensures FileBlocks(files, ids, request) == Ok(blocks)
  {
    hide FileBlock;
    if ids != [] {
      var n := |ids| - 1;
      FilesGiveBlocks(files, ids[..n], request, blocks[..n]);
      assert blocks == blocks[..n] + [blocks[n]];
    }
  }

  // ------------------------------------------------------------------- on the rows

  /** A file the user may attach: their own message attachment, not being deleted, and
      either inherited or uploaded, unbound and not yet expired. */
  ghost predicate MayAttach(file: FileRow, id: string, request: Request) {
    && file.owner == request.user && file.isMessageAttachment && !file.deletionStarted
    && (|| id in request.allowed
        || (file.boundAt.None? && file.unboundExpiresAt.Some? && request.now < file.unboundExpiresAt.value))
  }

  ghost predicate StartsWithImage(media: string) {
    |media| >= 6 && forall k :: 0 <= k < 6 ==> media[k] == "image/"[k] || media[k] == "IMAGE/"[k]
  }

  /** How a file is put before the model, told by its row: a document by its nonempty
      text; a processed image as an image for a model with vision, given a hashed WebP
      preview of known size and version, and otherwise as a notice, for a model known to
      lack vision only where the turn already had one; any other file as a notice, unless
      it is an image for a model with vision. */
  ghost predicate Presents(id: string, file: FileRow, request: Request, block: Block) {
    match file.kind
    case Some(DocumentInput) =>
      && file.documentText.Some? && file.documentText.value != ""
      && block == Document(id, file.metadata, file.documentText.value)
    case Some(ImageInput) =>
      && StartsWithImage(file.mediaType)
      && (match request.supports
          case Some(vision) =>
            if vision then
              && block == Image(id, file.metadata)
              && file.preview.Some? && file.preview.value.mediaType == "image/webp"
              && file.preview.value.sha256.Some? && |file.preview.value.sha256.value| == 64
              && file.width.Some? && file.height.Some? && file.width.value >= 1 && file.height.value >= 1
              && file.extractorVersion.Some? && file.extractorVersion.value in {"image-v1", "image-v2"}
            else id in request.legacyNotices && block == Notice(id, file.filename, file.mediaType)
          case None => block == Notice(id, file.filename, file.mediaType))
    case None =>
      && !(request.supports == Some(true) && StartsWithImage(file.mediaType))
      && block == Notice(id, file.filename, file.mediaType)
  }

  lemma ImageMediaIsAPrefix(media: string)
    ensures IsImageMedia(media) <==> StartsWithImage(media)
  {
    if |media| >= 6 && IsImageMedia(media) {
      forall k | 0 <= k < 6 ensures media[k] == "image/"[k] || media[k] == "IMAGE/"[k] {
        if k == 0 {} else if k == 1 {} else if k == 2 {} else if k == 3 {} else if k == 4 {} else {}
      }
    }
  }

  lemma UsableExactly(file: FileRow, id: string, request: Request)
    ensures IsUsable(file, id, request) <==> MayAttach(file, id, request)
  {
  }

  /** A file yields a block exactly as its row tells. */
  lemma FileBlockExactly(id: string, file: FileRow, request: Request, block: Block)
    ensures FileBlock(id, file, request) == Ok(block) <==> Presents(id, file, request, block)
  {
    ImageMediaIsAPrefix(file.mediaType);
    hide IsImageMedia, StartsWithImage;
    match request.supports
    case None =>
    case Some(vision) =>
      if vision {
        assert request.supports == Some(true);
      } else {
        assert request.supports == Some(false);
      }
  }

  /** The one error that names the model: a processed image for a model known to lack
      vision, where the turn had no notice of it. */
  lemma UnsupportedExactly(id: string, file: FileRow, request: Request)
    ensures FileBlock(id, file, request) == Err(ImageInputNotSupported) <==>
              && file.kind == Some(ImageInput) && StartsWithImage(file.mediaType)
              && request.supports == Some(false) && id !in request.legacyNotices
    ensures FileBlock(id, file, request).Err? ==>
              FileBlock(id, file, request).error in {ImageInputNotSupported, AttachmentInvalid}
  {
    ImageMediaIsAPrefix(file.mediaType);
    hide IsImageMedia, StartsWithImage;
  }

  lemma TotalSizeIsASum(files: map<string, FileRow>, ids: seq<string>, id: string)
    requires id in files && forall i :: 0 <= i < |ids| ==> ids[i] in files
    ensures TotalSize(files, []) == 0 && TotalSize(files, ids + [id]) == TotalSize(files, ids) + files[id].size
  {
    assert (ids + [id])[..|ids|] == ids;
  }

  /** What a caller may rely on, without the order of the checks: few enough distinct
      known files the user may attach, within the size limit, a block for each, something
      to read, and a turn within the token limits. */
  ghost predicate IsPlan(files: map<string, FileRow>, request: Request, settings: Settings, meter: Meter,
                         blocks: seq<Block>) {
    var ids, n := request.ids, if request.content == "" then 0 else 1;
    && |ids| <= settings.maxAttachments && (forall i, j :: 0 <= i < j < |ids| ==> ids[i] != ids[j])
    && (forall i :: 0 <= i < |ids| ==> ids[i] in files && MayAttach(files[ids[i]], ids[i], request))
    && TotalSize(files, ids) <= settings.maxMessageBytes
    && |blocks| == n + |ids| && (n == 1 ==> blocks[0] == Text(request.content))
    && (forall i :: 0 <= i < |ids| ==> Presents(ids[i], files[ids[i]], request, blocks[n + i]))
    && (!IsBlank(request.content) || exists k :: 0 <= k < |blocks| && (blocks[k].Document? || blocks[k].Image?))
    && MessageTokens(Message(User, blocks), meter) <= settings.targetTurnTokens
    && MessageTokens(Message(User, blocks), meter) <= settings.contextBudget / 2
  }

  lemma AcceptedIsAPlan(files: map<string, FileRow>, request: Request, settings: Settings, meter: Meter,
                        blocks: seq<Block>)
    requires AttachmentPlan(files, request, settings, meter) == Ok(blocks)
    ensures IsPlan(files, request, settings, meter, blocks)
  {
    hide FileBlock, FileBlocks, IsUsable, MessageTokens, TotalSize, IsBlank, MayAttach, Presents;
    PlanIsOneBlockPerFile(files, request, settings, meter);
    var ids, n := request.ids, |TextPart(request.content)|;
    assert n == 1 ==> blocks[0] == blocks[..1][0];
    forall i | 0 <= i < |ids| ensures Presents(ids[i], files[ids[i]], request, blocks[n + i]) {
      FileBlockExactly(ids[i], files[ids[i]], request, blocks[n + i]);
    }
  }

  lemma PresentedFiles(files: map<string, FileRow>, request: Request, blocks: seq<Block>, n: nat)
    requires |blocks| == n + |request.ids|
    requires forall i :: 0 <= i < |request.ids| ==>
               request.ids[i] in files && Presents(request.ids[i], files[request.ids[i]], request, blocks[n + i])
    ensures FileBlocks(files, request.ids, request) == Ok(blocks[n..])
  {
    hide FileBlock, FileBlocks, Presents;
    var ids, rest := request.ids, blocks[n..];
    forall i | 0 <= i < |ids| ensures FileBlock(ids[i], files[ids[i]], request) == Ok(rest[i]) {
      FileBlockExactly(ids[i], files[ids[i]], request, blocks[n + i]);
    }
    FilesGiveBlocks(files, ids, request, rest);
  }

  lemma PlansAreAccepted(files: map<string, FileRow>, request: Request, settings: Settings, meter: Meter,
                         blocks: seq<Block>)
    requires IsPlan(files, request, settings, meter, blocks)
    ensures AttachmentPlan(files, request, settings, meter) == Ok(blocks)
  {
    hide FileBlock, FileBlocks, IsUsable, MessageTokens, TotalSize, IsBlank, MayAttach, Presents;
    var ids, n := request.ids, |TextPart(request.content)|;
    PresentedFiles(files, request, blocks, n);
    forall i | 0 <= i < |ids| ensures IsUsable(files[ids[i]], ids[i], request) {
      UsableExactly(files[ids[i]], ids[i], request);
    }
    assert blocks == TextPart(request.content) + blocks[n..];
  }

  /** The planner accepts exactly the plans a caller may rely on. */
  lemma PlanAcceptsExactly(files: map<string, FileRow>, request: Request, settings: Settings, meter: Meter,
                           blocks: seq<Block>)
    ensures AttachmentPlan(files, request, settings, meter) == Ok(blocks) <==>
              IsPlan(files, request, settings, meter, blocks)
  {
    hide AttachmentPlan, IsPlan;
    if AttachmentPlan(files, request, settings, meter) == Ok(blocks) {
      AcceptedIsAPlan(files, request, settings, meter, blocks);
    }
    if IsPlan(files, request, settings, meter, blocks) {
      PlansAreAccepted(files, request, settings, meter, blocks);
    }
  }

  /** The refusals before any file is read, in the order they are made. */
  lemma RefusalsInOrder(files: map<string, FileRow>, request: Request, settings: Settings, meter: Meter)
    ensures var plan, ids := AttachmentPlan(files, request, settings, meter), request.ids;
            && (plan == Err(TooManyAttachments) <==> |ids| > settings.maxAttachments)
            && (plan == Err(DuplicateAttachments) <==>
                  |ids| <= settings.maxAttachments && exists i, j :: 0 <= i < j < |ids| && ids[i] == ids[j])
            && ((exists i :: 0 <= i < |ids| && (ids[i] !in files || !MayAttach(files[ids[i]], ids[i], request))) ==>
                  plan in {Err(TooManyAttachments), Err(DuplicateAttachments), Err(AttachmentInvalid)})
            && (plan == Err(AttachmentsTooLarge) ==>
                  && (forall i :: 0 <= i < |ids| ==> ids[i] in files && MayAttach(files[ids[i]], ids[i], request))
                  && TotalSize(files, ids) > settings.maxMessageBytes)
  {
    hide FileBlock, IsUsable, MessageTokens, TotalSize, IsBlank, MayAttach, FileBlocks;
    var ids := request.ids;
    forall i | 0 <= i < |ids| && ids[i] in files
      ensures IsUsable(files[ids[i]], ids[i], request) <==> MayAttach(files[ids[i]], ids[i], request)
    {
      UsableExactly(files[ids[i]], ids[i], request);
    }
    if forall i :: 0 <= i < |ids| ==> ids[i] in files {
      FileErrors(files, ids, request);
    }
  }

  lemma {:induction false} FileErrors(files: map<string, FileRow>, ids: seq<string>, request: Request)
    requires forall i :: 0 <= i < |ids| ==> ids[i] in files
    ensures FileBlocks(files, ids, request).Err? ==>
              FileBlocks(files, ids, request).error in {ImageInputNotSupported, AttachmentInvalid}
  {
    hide FileBlock;
    if ids != [] {
      FileErrors(files, ids[..|ids| - 1], request);
      UnsupportedExactly(ids[|ids| - 1], files[ids[|ids| - 1]], request);
    }
  }

  /** A block planned for a file names that file, and its image form follows the
      model's capability. */
  lemma FileBlockForm(id: string, file: FileRow, request: Request)
    requires FileBlock(id, file, request).Ok?
    ensures var b := FileBlock(id, file, request).value;
            && (b.Document? || b.Image? || b.Notice?) && b.fileId == id
            && (b.Document? <==> file.kind == Some(DocumentInput))
            && (b.Document? ==> b.text != "" && Some(b.text) == file.documentText)
            && (b.Image? ==> request.supports == Some(true) && file.kind == Some(ImageInput) && HasSafePreview(file))
            && (b.Notice? && IsImageMedia(b.mediaType) ==> request.supports != Some(true))
            && (b.Notice? && file.kind == Some(ImageInput) && request.supports == Some(false) ==>
                id in request.legacyNotices)
  {
  }

  /** An accepted plan is the text block, when there is text, followed by exactly
      one block per attachment in the order the caller gave them. */
  lemma PlanIsOneBlockPerFile(files: map<string, FileRow>, request: Request, settings: Settings, meter: Meter)
    requires AttachmentPlan(files, request, settings, meter).Ok?
    ensures var plan, n := AttachmentPlan(files, request, settings, meter).value, |TextPart(request.content)|;
            && |plan| == n + |request.ids| && plan[..n] == TextPart(request.content)
            && (forall i :: 0 <= i < |request.ids| ==>
                  && request.ids[i] in files
                  && IsUsable(files[request.ids[i]], request.ids[i], request)
                  && MayAttach(files[request.ids[i]], request.ids[i], request)
                  && FileBlock(request.ids[i], files[request.ids[i]], request) == Ok(plan[n + i]))
  {
    hide FileBlock, FileBlocks, IsUsable, MessageTokens, MayAttach;
    BlocksFollowFiles(files, request.ids, request);
    forall i | 0 <= i < |request.ids| ensures MayAttach(files[request.ids[i]], request.ids[i], request) {
      UsableExactly(files[request.ids[i]], request.ids[i], request);
    }
  }

  /** The images and the image notices of a plan are attached files, a model
      without vision is never planned an image, and a model with vision never an
      image notice. */
  lemma PlanNeverMixes(files: map<string, FileRow>, request: Request, settings: Settings, meter: Meter)
    requires AttachmentPlan(files, request, settings, meter).Ok?
    ensures var plan := AttachmentPlan(files, request, settings, meter).value;
            && (request.supports != Some(true) ==> VisionFiles(plan) == {})
            && (request.supports == Some(true) ==> LegacyFiles(plan) == {})
            && (forall f :: f in VisionFiles(plan) + LegacyFiles(plan) ==> f in request.ids)
  {
    hide AttachmentPlan, FileBlock, IsUsable, IsImageMedia, HasSafePreview;
    var plan, n := AttachmentPlan(files, request, settings, meter).value, |TextPart(request.content)|;
    PlanIsOneBlockPerFile(files, request, settings, meter);
    forall k | 0 <= k < |plan| && !plan[k].Text?
      ensures (plan[k].Image? || plan[k].Notice?) ==> plan[k].fileId in request.ids
      ensures plan[k].Image? ==> request.supports == Some(true)
      ensures plan[k].Notice? && IsImageMedia(plan[k].mediaType) ==> request.supports != Some(true)
    {
      FileBlockForm(request.ids[k - n], files[request.ids[k - n]], request);
    }
  }

  /** An accepted turn is a whole turn of its own and, with a system prompt of at
      most the other half, every context ending in it fits the budget. */
  lemma AcceptedTurnAlwaysFits(files: map<string, FileRow>, request: Request, settings: Settings, meter: Meter,
                               prompt: string, history: seq<Message>)
    requires AttachmentPlan(files, request, settings, meter).Ok?
    requires MessageTokens(SystemText(prompt), meter) <= settings.contextBudget - settings.contextBudget / 2
    ensures var turn := Message(User, AttachmentPlan(files, request, settings, meter).value);
            && IsTurnBoundary(turn)
            && var context := BuildContext(prompt, history + [turn], settings.contextBudget, meter);
               Cost(context, meter) <= settings.contextBudget
  {
    hide AttachmentPlan, FileBlock, IsUsable, MessageTokens, Cost, BuildContext;
    var plan := AttachmentPlan(files, request, settings, meter).value;
    PlanIsAdmitted(files, request, settings, meter);
    PlanIsOneBlockPerFile(files, request, settings, meter);
    var turn := Message(User, plan);
    if IsBlank(request.content) {
      var k :| 0 <= k < |plan| && IsReadable(plan[k]);
      assert !turn.blocks[k].ToolResult?;
    } else {
      assert plan[0] == plan[..1][0] == Text(request.content);
      assert !turn.blocks[0].ToolResult?;
    }
    AdmittedTurnFits(prompt, history, turn, settings.contextBudget, meter);
  }

  lemma PlanIsAdmitted(files: map<string, FileRow>, request: Request, settings: Settings, meter: Meter)
    requires AttachmentPlan(files, request, settings, meter).Ok?
    ensures var plan := AttachmentPlan(files, request, settings, meter).value;
            && (IsBlank(request.content) ==> exists k :: 0 <= k < |plan| && IsReadable(plan[k]))
            && MessageTokens(Message(User, plan), meter) <= settings.contextBudget / 2
  {
    hide FileBlocks, IsUsable, MessageTokens;
  }

  // ------------------------------------------------------------------- the loops

  method CheckUsable(files: map<string, FileRow>, request: Request) returns (ok: bool)
    requires forall i :: 0 <= i < |request.ids| ==> request.ids[i] in files
    ensures ok <==> forall i :: 0 <= i < |request.ids| ==> IsUsable(files[request.ids[i]], request.ids[i], request)
  {
    for k := 0 to |request.ids|
      invariant forall i :: 0 <= i < k ==> IsUsable(files[request.ids[i]], request.ids[i], request)
    {
      if !IsUsable(files[request.ids[k]], request.ids[k], request) {
        return false;
      }
    }
    return true;
  }

  method SumSizes(files: map<string, FileRow>, ids: seq<string>) returns (total: int)
    requires forall i :: 0 <= i < |ids| ==> ids[i] in files
    ensures total == TotalSize(files, ids)
  {
    total := 0;
    for k := 0 to |ids|
      invariant total == TotalSize(files, ids[..k])
    {
      assert ids[..k + 1][..k] == ids[..k];
      total := total + files[ids[k]].size;
    }
    assert ids[..|ids|] == ids;
  }

  lemma {:induction false} EarlierFailureStays(files: map<string, FileRow>, ids: seq<string>, k: nat, request: Request)
    requires forall i :: 0 <= i < |ids| ==> ids[i] in files
    requires k <= |ids| && FileBlocks(files, ids[..k], request).Err?
    ensures FileBlocks(files, ids, request) == FileBlocks(files, ids[..k], request)
    decreases |ids|
  {
    hide FileBlock;
    if k == |ids| {
      assert ids[..k] == ids;
    } else {
      assert ids[..|ids| - 1][..k] == ids[..k];
      EarlierFailureStays(files, ids[..|ids| - 1], k, request);
    }
  }

  /** The block loop of the planner: it appends to `blocks` and leaves at the first
      file it cannot present. */
  method PlanFiles(files: map<string, FileRow>, request: Request) returns (r: Result<seq<Block>, PlanError>)
    requires forall i :: 0 <= i < |request.ids| ==> request.ids[i] in files
    ensures var planned := FileBlocks(files, request.ids, request);
            r == if planned.Ok? then Ok(TextPart(request.content) + planned.value) else planned
  {
    hide FileBlock;
    var ids := request.ids;
    var blocks: seq<Block> := [];
    if request.content != "" {
      blocks := blocks + [Text(request.content)];
    }
    for k := 0 to |ids|
      invariant FileBlocks(files, ids[..k], request).Ok?
      invariant blocks == TextPart(request.content) + FileBlocks(files, ids[..k], request).value
    {
      assert ids[..k + 1][..k] == ids[..k];
      var block := FileBlock(ids[k], files[ids[k]], request);
      if block.Err? {
        EarlierFailureStays(files, ids, k + 1, request);
        return Err(block.error);
      }
      blocks := blocks + [block.value];
    }
    assert ids[..|ids|] == ids;
    return Ok(blocks);
  }

  lemma {:induction false} DistinctByCount(ids: seq<string>)
    ensures |Elements(ids)| <= |ids|
    ensures |Elements(ids)| == |ids| <==> Distinct(ids)
  {
    if ids != [] {
      var front, last := ids[..|ids| - 1], ids[|ids| - 1];
      DistinctByCount(front);
      var all, fewer := Elements(ids), Elements(front);
      assert ids == front + [last];
      assert all == fewer + {last};
      if last in front {
        assert all == fewer;
        var i :| 0 <= i < |front| && front[i] == last;
        assert ids[i] == ids[|ids| - 1];
        assert !Distinct(ids);
      } else {
        assert Distinct(ids) <==> Distinct(front) by {
          if Distinct(front) {
            forall i, j | 0 <= i < j < |ids| ensures ids[i] != ids[j] {
              assert ids[i] == front[i];
            }
          }
          if Distinct(ids) {
            assert forall i :: 0 <= i < |front| ==> front[i] == ids[i];
          }
        }
      }
    }
  }

  method PrepareAttachmentPlan(files: map<string, FileRow>, request: Request, settings: Settings, meter: Meter)
    returns (r: Result<seq<Block>, PlanError>)
    ensures r == AttachmentPlan(files, request, settings, meter)
  {
    hide FileBlock, FileBlocks, TotalSize, IsUsable, MessageTokens;
    var ids := request.ids;
    if |ids| > settings.maxAttachments {
      return Err(TooManyAttachments);
    }
    DistinctByCount(ids);
    if |ids| != |Elements(ids)| {
      return Err(DuplicateAttachments);
    }
    if exists i :: 0 <= i < |ids| && ids[i] !in files {
      return Err(AttachmentInvalid);
    }
    var usable := CheckUsable(files, request);
    if !usable {
      return Err(AttachmentInvalid);
    }
    var total := SumSizes(files, ids);
    if total > settings.maxMessageBytes {
      return Err(AttachmentsTooLarge);
    }
    var planned := PlanFiles(files, request);
    if planned.Err? {
      return planned;
    }
    return Admitted(request.content, planned.value, settings, meter);
  }
}
