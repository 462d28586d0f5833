/** The conversation operations as operations on a plain list, over every run. */
module ConversationRuns {
  import opened Prelude
  import opened Messages
  import opened Attachments
  import opened Transcript
  import opened Conversations
  import opened ConversationSafety

  /** One committed transaction. A refused operation rolls back. `FilesStep` is
      whatever the file service does to the file table. */
  datatype Step =
    | SubmitStep(content: string, quote: Option<Quote>, ids: seq<string>, env: Env)
    | EditStep(message: nat, content: string, chosen: Option<seq<string>>, env: Env)
    | RegenerateStep(message: nat, env: Env)
    | FinishStep(run: nat, content: string)
    | StatusStep(run: nat, action: RunAction)
    | FilesStep(files: map<string, FileRow>)

  function Committed(s: Store, r: Result<Store, Failure>): Store {
    if r.Ok? then r.value else s
  }

  ghost function After(s: Store, step: Step): Store {
    match step
    case SubmitStep(content, quote, ids, env) => Committed(s, Submit(s, content, quote, ids, env))
    case EditStep(message, content, ids, env) => Committed(s, Edit(s, message, content, ids, env))
    case RegenerateStep(message, env) => Committed(s, Regenerate(s, message, env))
    case FinishStep(run, content) => if run < |s.runs| then Finish(s, run, content) else s
    case StatusStep(run, action) => if run < |s.runs| then SetStatus(s, run, NextStatus(s.runs[run].status, action))
        else s
    case FilesStep(files) => s.(files := files)
  }

  ghost function AfterAll(s: Store, steps: seq<Step>): Store {
    if steps == [] then s else After(AfterAll(s, steps[..|steps| - 1]), steps[|steps| - 1])
  }

  // ------------------------------------------------------------------- the invariant over runs

  /** The invariant reads only the messages and the runs. */
  lemma FilesDoNotMatter(s: Store, files: map<string, FileRow>, detached: set<string>)
    requires Inv(s)
    ensures Inv(s.(files := files, detached := detached))
  {
    var t := s.(files := files, detached := detached);
    forall j: nat ensures AnswerHolds(t, j) {
      assert AnswerHolds(s, j);
    }
    forall r: nat ensures PinHolds(t, r) {
      assert PinHolds(s, r);
    }
  }

  lemma AnchorIsUserMessage(s: Store, id: nat)
    requires Inv(s) && Anchor(s, id).Ok?
    ensures IsVisible(s.messages, Anchor(s, id).value) && s.messages[Anchor(s, id).value].role == User
  {
  }

  lemma SubmitKeepsInv(s: Store, content: string, quote: Option<Quote>, ids: seq<string>, env: Env)
    requires Inv(s) && Submit(s, content, quote, ids, env).Ok?
    ensures Inv(Submit(s, content, quote, ids, env).value)
  {
    hide Inv, AttachmentPlan, ContextConflict;
    var plan := SubmitPlan(s, content, quote, ids, env);
    AppendKeepsInv(s, UserRow(content, Excerpt(quote), ids, s.messages), plan.value, env);
  }

  lemma EditStepKeepsInv(s: Store, id: nat, content: string, ids: Option<seq<string>>, env: Env)
    requires Inv(s) && Edit(s, id, content, ids, env).Ok?
    ensures Inv(Edit(s, id, content, ids, env).value)
  {
    hide Inv, AttachmentPlan, ReuseConflict, AppendTurn;
    var plan := EditPlan(s, id, content, ids, env);
    var edited := EditTurn(s, id, content, Selected(s, id, ids), plan.value, env);
    EditKeepsInv(s, id, content, Selected(s, id, ids), plan.value, env);
    FilesDoNotMatter(edited, edited.files, Edit(s, id, content, ids, env).value.detached);
  }

  lemma RegenerateKeepsInv(s: Store, id: nat, env: Env)
    requires Inv(s) && Regenerate(s, id, env).Ok?
    ensures Inv(Regenerate(s, id, env).value)
  {
    hide Inv, AttachmentPlan, ReuseConflict, Anchor;
    AnchorIsUserMessage(s, id);
    RerunKeepsInv(s, Anchor(s, id).value, RegeneratePlan(s, id, env).value, env);
  }

  lemma StepKeepsInv(s: Store, step: Step)
    requires Inv(s)
    ensures Inv(After(s, step))
  {
    hide Inv, Submit, Edit, Regenerate;
    match step
    case SubmitStep(content, quote, ids, env) =>
      if Submit(s, content, quote, ids, env).Ok? {
        SubmitKeepsInv(s, content, quote, ids, env);
      }
    case EditStep(message, content, ids, env) =>
      if Edit(s, message, content, ids, env).Ok? {
        EditStepKeepsInv(s, message, content, ids, env);
      }
    case RegenerateStep(message, env) =>
      if Regenerate(s, message, env).Ok? {
        RegenerateKeepsInv(s, message, env);
      }
    case FinishStep(run, content) =>
      if run < |s.runs| {
        var status := s.runs[run].status;
        if status.Started? || status.Streaming? {
          MaterializeKeepsInv(s, run, content);
        } else {
          StatusKeepsInv(s, run, NextStatus(status, CancelIfCancelling));
        }
      }
    case StatusStep(run, action) =>
      if run < |s.runs| {
        StatusKeepsInv(s, run, NextStatus(s.runs[run].status, action));
      }
    case FilesStep(files) => FilesDoNotMatter(s, files, s.detached);
  }

  /** Every history of submits, edits, regenerations, finishes and status changes,
      refused ones included, keeps the invariant. */
  lemma {:induction false} EveryHistoryKeepsInv(steps: seq<Step>)
    ensures Inv(AfterAll(EmptyStore, steps))
  {
    if steps != [] {
      EveryHistoryKeepsInv(steps[..|steps| - 1]);
      StepKeepsInv(AfterAll(EmptyStore, steps[..|steps| - 1]), steps[|steps| - 1]);
    }
  }

  // ------------------------------------------------------------------- the plain list

  lemma SubmitAppends(s: Store, content: string, quote: Option<Quote>, ids: seq<string>, env: Env)
    requires Submit(s, content, quote, ids, env).Ok?
    ensures var t := Submit(s, content, quote, ids, env).value;
            && View(t.messages) == View(s.messages)
                 + [Entry(|s.messages|,
                     MessageRow(User, content, Excerpt(quote), Some(|s.runs|), ids, NextPosition(s.messages), false))]
            && var plan := SubmitPlan(s, content, quote, ids, env).value;
               t.runs == s.runs + [RunRow(|s.messages|, Queued, env.supports, plan)]
  {
    hide SubmitPlan, View, NextPosition;
    ViewSnoc(s.messages, UserRow(content, Excerpt(quote), ids, s.messages).(runId := Some(|s.runs|)));
  }

  /** Editing the message at index `i` of the list leaves the first `i` entries and
      the new message. */
  lemma EditReplacesTail(s: Store, id: nat, content: string, ids: Option<seq<string>>, env: Env)
    requires Inv(s) && Edit(s, id, content, ids, env).Ok?
    ensures var t, i := Edit(s, id, content, ids, env).value, Rank(s.messages, id);
            && i < |View(s.messages)| && View(s.messages)[i] == Entry(id, s.messages[id])
            && View(t.messages) == View(s.messages)[..i]
                 + [Entry(|s.messages|,
                     MessageRow(User, content, s.messages[id].quote, Some(|s.runs|), Selected(s, id, ids),
                                                   NextPosition(s.messages), false))]
            && t.runs == s.runs + [RunRow(|s.messages|, Queued, env.supports, EditPlan(s, id, content, ids, env).value)]
  {
    hide View, NextPosition, ReusePlan, AnswerHolds, PinHolds;
    RankFinds(s.messages, id);
    ArchiveFromIsTake(s.messages, id);
    var cut := ArchiveFrom(s.messages, s.messages[id].position);
    NextPositionIgnoresArchiving(s.messages, cut);
    ViewSnoc(cut, UserRow(content, s.messages[id].quote, Selected(s, id, ids), cut).(runId := Some(|s.runs|)));
  }

  lemma {:induction false} MaxIgnoresArchiving(rows: seq<MessageRow>, other: seq<MessageRow>)
    requires rows != [] && |rows| == |other| && forall i :: 0 <= i < |rows| ==> other[i].position == rows[i].position
    ensures MaxPosition(other) == MaxPosition(rows)
  {
  }

  lemma NextPositionIgnoresArchiving(rows: seq<MessageRow>, other: seq<MessageRow>)
    requires |rows| == |other| && forall i :: 0 <= i < |rows| ==> other[i].position == rows[i].position
    ensures NextPosition(other) == NextPosition(rows)
  {
    if rows != [] {
      MaxIgnoresArchiving(rows, other);
    }
  }

  /** Regenerating truncates the list just after the anchor, whose entry changes
      its run and nothing else. */
  lemma RegenerateTruncates(s: Store, id: nat, env: Env)
    requires Inv(s) && Regenerate(s, id, env).Ok?
    ensures Anchor(s, id).Ok? && IsVisible(s.messages, Anchor(s, id).value)
    ensures var t, anchor := Regenerate(s, id, env).value, Anchor(s, id).value;
            var i := Rank(s.messages, anchor);
            && i < |View(s.messages)| && View(s.messages)[i] == Entry(anchor, s.messages[anchor])
            && View(t.messages) == View(s.messages)[..i] + [Entry(anchor, s.messages[anchor].(runId := Some(|s.runs|)))]
            && t.runs == s.runs + [RunRow(anchor, Queued, env.supports, RegeneratePlan(s, id, env).value)]
  {
    hide View, ReusePlan, AnswerHolds, PinHolds;
    AnchorIsUserMessage(s, id);
    var anchor := Anchor(s, id).value;
    RankFinds(s.messages, anchor);
    var cut := ArchiveAfter(s.messages, s.messages[anchor].position);
    UpdateLastRun(cut, anchor, Some(|s.runs|));
    assert cut[..anchor] == s.messages[..anchor];
  }

  /** Finishing a live run appends its answer to the list; finishing any other run
      leaves the list alone. */
  lemma FinishAppends(s: Store, run: nat, content: string)
    requires run < |s.runs|
    ensures var t, live := Finish(s, run, content), s.runs[run].status.Started? || s.runs[run].status.Streaming?;
            && View(t.messages) == View(s.messages)
                 + (if live then
                      [Entry(|s.messages|,
                             MessageRow(Assistant, content, None, Some(run), [], NextPosition(s.messages), false))]
                    else [])
            && (live <==> t.runs[run].status.Succeeded? && !s.runs[run].status.Succeeded?)
            && (forall r :: 0 <= r < |s.runs| && r != run ==> t.runs[r] == s.runs[r])
  {
    hide View, NextPosition;
    ViewSnoc(s.messages, AnswerRow(s, run, content));
  }

  /** What an operation does to a plain list of messages: nothing, put a message at
      the end, or drop everything from index `i` on and put a message there. */
  datatype ListOp = Keep | Append(last: Entry) | Replace(i: nat, entry: Entry)

  function Act(list: seq<Entry>, op: ListOp): seq<Entry> {
    match op
    case Keep => list
    case Append(last) => list + [last]
    case Replace(i, entry) => if i <= |list| then list[..i] + [entry] else list
  }

  /** The list operation a step amounts to: appending for a submit or a finished live
      run, replacing from the edited message or from the anchor, nothing otherwise. */
  ghost function OpOf(s: Store, step: Step): ListOp {
    match step
    case SubmitStep(content, quote, ids, env) =>
      if Submit(s, content, quote, ids, env).Err? then Keep
      else Append(Entry(|s.messages|,
          MessageRow(User, content, Excerpt(quote), Some(|s.runs|), ids, NextPosition(s.messages), false)))
    case EditStep(id, content, ids, env) =>
      if Edit(s, id, content, ids, env).Err? || !IsVisible(s.messages, id) then Keep
      else Replace(Rank(s.messages, id),
                   Entry(|s.messages|,
                       MessageRow(User, content, s.messages[id].quote, Some(|s.runs|), Selected(s, id, ids),
                                                  NextPosition(s.messages), false)))
    case RegenerateStep(id, env) =>
      if Regenerate(s, id, env).Err? || Anchor(s, id).Err? || !IsVisible(s.messages, Anchor(s, id).value) then Keep
      else
        var anchor := Anchor(s, id).value;
        Replace(Rank(s.messages, anchor), Entry(anchor, s.messages[anchor].(runId := Some(|s.runs|))))
    case FinishStep(run, content) =>
      if run < |s.runs| && (s.runs[run].status.Started? || s.runs[run].status.Streaming?)
      then
        Append(Entry(|s.messages|,
                     MessageRow(Assistant, content, None, Some(run), [], NextPosition(s.messages), false)))
      else Keep
    case StatusStep(_, _) => Keep
    case FilesStep(_) => Keep
  }

  /** One step on the rows is its list operation on what readers see. */
  lemma StepActsOnTheList(s: Store, step: Step)
    requires Inv(s)
    ensures View(After(s, step).messages) == Act(View(s.messages), OpOf(s, step))
  {
    hide Inv, View, Submit, Edit, Regenerate, NextPosition, Anchor;
    match step
    case SubmitStep(content, quote, ids, env) =>
      if Submit(s, content, quote, ids, env).Ok? {
        SubmitAppends(s, content, quote, ids, env);
      }
    case EditStep(id, content, ids, env) =>
      if Edit(s, id, content, ids, env).Ok? {
        EditTargetIsVisible(s, id, content, ids, env);
        EditReplacesTail(s, id, content, ids, env);
      }
    case RegenerateStep(id, env) =>
      if Regenerate(s, id, env).Ok? {
        RegenerateTruncates(s, id, env);
      }
    case FinishStep(run, content) =>
      if run < |s.runs| {
        FinishAppends(s, run, content);
      }
    case StatusStep(_, _) =>
    case FilesStep(_) =>
  }

  lemma EditTargetIsVisible(s: Store, id: nat, content: string, ids: Option<seq<string>>, env: Env)
    requires Edit(s, id, content, ids, env).Ok?
    ensures IsVisible(s.messages, id) && s.messages[id].role == User
  {
    hide ReusePlan, EditTurn, Refreshed;
  }

  /** The list operations of a whole history. */
  ghost function OpsOf(steps: seq<Step>): seq<ListOp> {
    if steps == [] then []
    else OpsOf(steps[..|steps| - 1]) + [OpOf(AfterAll(EmptyStore, steps[..|steps| - 1]), steps[|steps| - 1])]
  }

  function ActAll(list: seq<Entry>, ops: seq<ListOp>): seq<Entry> {
    if ops == [] then list else Act(ActAll(list, ops[..|ops| - 1]), ops[|ops| - 1])
  }

  /** Position and archive rows refine a plain list: after any history, readers see
      what that history's list operations make of the empty list. */
  lemma {:induction false} RowsRefineAPlainList(steps: seq<Step>)
    ensures View(AfterAll(EmptyStore, steps).messages) == ActAll([], OpsOf(steps))
  {
    hide View, After, OpOf;
    if steps == [] {
      NothingVisible();
    } else {
      var front := steps[..|steps| - 1];
      RowsRefineAPlainList(front);
      EveryHistoryKeepsInv(front);
      StepActsOnTheList(AfterAll(EmptyStore, front), steps[|steps| - 1]);
      assert OpsOf(steps)[..|OpsOf(steps)| - 1] == OpsOf(front);
    }
  }

  lemma NothingVisible()
    ensures View([]) == []
  {
  }

  // ------------------------------------------------------------------- what readers rely on

  lemma {:induction false} LastVisible(rows: seq<MessageRow>, u: nat, j: nat)
    requires j <= |rows| && Precedes(rows, u, j)
    ensures Rank(rows, j) == Rank(rows, u) + 1
  {
    hide View;
    assert rows[..j][..u] == rows[..u];
    RankFinds(rows[..j], u);
    AllArchivedAfter(rows[..j], u + 1);
    assert rows[..j][..u + 1] == rows[..u] + [rows[u]];
    ViewSnoc(rows[..u], rows[u]);
  }

  /** While a run is active it is the only one, its user message ends the list and
      that message carries it. */
  lemma ActiveRunPinsTheEnd(s: Store, r: nat)
    requires Inv(s) && r < |s.runs| && IsActive(s.runs[r].status)
    ensures var list := View(s.messages);
            && list != [] && list[|list| - 1].id == s.runs[r].userMessage
            && list[|list| - 1].row.role == User && list[|list| - 1].row.runId == Some(r)
    ensures forall q :: 0 <= q < |s.runs| && IsActive(s.runs[q].status) ==> q == r
  {
    hide View, AnswerHolds;
    assert PinHolds(s, r);
    var u := s.runs[r].userMessage;
    LastVisible(s.messages, u, |s.messages|);
    RankFinds(s.messages, u);
    assert s.messages[..|s.messages|] == s.messages;
    forall q | 0 <= q < |s.runs| && IsActive(s.runs[q].status) ensures q == r {
      ActiveRunIsUnique(s, q, r);
    }
  }

  /** Every visible answer directly follows its run's user message, and that
      message still carries the answer's run. */
  lemma AnswersFollowTheirTurn(s: Store, k: nat)
    requires Inv(s) && k < |View(s.messages)| && View(s.messages)[k].row.role == Assistant
    ensures var list := View(s.messages);
            && k > 0 && list[k].row.runId.Some? && list[k].row.runId.value < |s.runs|
            && list[k - 1].id == s.runs[list[k].row.runId.value].userMessage
            && list[k - 1].row.role == User && list[k - 1].row.runId == list[k].row.runId
  {
    hide View, PinHolds;
    ViewElements(s.messages);
    var j := View(s.messages)[k].id;
    assert AnswerHolds(s, j);
    var u := s.runs[s.messages[j].runId.value].userMessage;
    LastVisible(s.messages, u, j);
    RankFinds(s.messages, u);
    RankFinds(s.messages, j);
    RankIsIndex(s.messages, k);
  }

  lemma RankIsIndex(rows: seq<MessageRow>, k: nat)
    requires k < |View(rows)|
    ensures View(rows)[k].id < |rows| && Rank(rows, View(rows)[k].id) == k
  {
    hide View;
    ViewElements(rows);
    RankFinds(rows, View(rows)[k].id);
  }

  /** Regenerating from any visible message finds its anchor: the message itself
      when it is the user's, the one right before it otherwise. So regeneration is
      never refused for lack of a user message. */
  lemma RegenerateFindsItsAnchor(s: Store, k: nat)
    requires Inv(s) && k < |View(s.messages)|
    ensures var list := View(s.messages);
            if list[k].row.role == User then Anchor(s, list[k].id) == Ok(list[k].id)
            else k > 0 && Anchor(s, list[k].id) == Ok(list[k - 1].id)
  {
    hide View, PinHolds, AnswerHolds;
    ViewElements(s.messages);
    if View(s.messages)[k].row.role == Assistant {
      AnswersFollowTheirTurn(s, k);
    }
  }

  /** The row of a run that has ended never changes again. */
  lemma EndedRunsStayEnded(s: Store, step: Step, r: nat)
    requires Inv(s) && r < |s.runs| && !IsActive(s.runs[r].status)
    ensures r < |After(s, step).runs| && After(s, step).runs[r] == s.runs[r]
  {
    hide Inv, AttachmentPlan, ReuseConflict, ContextConflict, Anchor;
    match step
    case SubmitStep(content, quote, ids, env) =>
    case EditStep(message, content, ids, env) =>
    case RegenerateStep(message, env) =>
      if Anchor(s, message).Ok? {
        AnchorInRange(s, message);
      }
    case FinishStep(run, content) =>
    case StatusStep(run, action) =>
    case FilesStep(files) =>
  }

  lemma AnchorInRange(s: Store, id: nat)
    requires Anchor(s, id).Ok?
    ensures Anchor(s, id).value < |s.messages|
  {
  }
}
