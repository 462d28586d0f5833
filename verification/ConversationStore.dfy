/** The mutable conversation store: each service call as one transaction on the
    message, run and file tables. */
module ConversationStore {
  import opened Prelude
  import opened Messages
  import opened Attachments
  import opened Transcript
  import opened Conversations

  lemma BindOne(files: map<string, FileRow>, ids: seq<string>, k: nat, now: int)
    requires k < |ids| && ids[k] in files
    ensures var sofar := BoundFiles(files, ids[..k], now);
            ids[k] in sofar && BoundFiles(files, ids[..k + 1], now) == sofar[ids[k] := Bound(sofar[ids[k]], now)]
  {
    assert ids[..k + 1] == ids[..k] + [ids[k]];
  }

  class ConversationTables {
    var messages: seq<MessageRow>
    var runs: seq<RunRow>
    var files: map<string, FileRow>
    var detached: set<string>

    ghost function State(): Store
      reads this
    {
      Store(messages, runs, files, detached)
    }

    constructor ()
      ensures State() == EmptyStore
    {
      messages, runs, files, detached := [], [], map[], {};
    }

    /** The facts of the visible user messages in order. */
    method DeriveImageContext() returns (facts: seq<ImageFacts>)
      ensures facts == ImageContext(State())
    {
      hide FactsOf;
      facts := [];
      var state := Store(messages, runs, files, detached);
      for n := 0 to |messages|
        invariant facts == ContextOf(state, n)
      {
        if !messages[n].archived && messages[n].role == User {
          facts := facts + [FactsOf(state, n)];
        }
      }
    }

    /** Binds the plan's files to their message and clears their detached marks. */
    method BindFiles(ids: seq<string>, now: int)
      requires forall i :: 0 <= i < |ids| ==> ids[i] in files
      modifies this`files, this`detached
      ensures files == BoundFiles(old(files), ids, now) && detached == old(detached) - Elements(ids)
    {
      hide Bound;
      for k := 0 to |ids|
        invariant files == BoundFiles(old(files), ids[..k], now)
        invariant detached == old(detached) - Elements(ids[..k])
      {
        BindOne(old(files), ids, k, now);
        assert ids[..k + 1] == ids[..k] + [ids[k]];
        files := files[ids[k] := Bound(files[ids[k]], now)];
        detached := detached - {ids[k]};
      }
      assert ids[..|ids|] == ids;
    }

    /** Recomputes the detached mark of each touched file that is not being deleted. */
    method RefreshDetached(touched: set<string>)
      modifies this`detached
      ensures detached == Refreshed(old(State()), touched)
    {
      hide Referenced;
      var todo := touched;
      while todo != {}
        invariant todo <= touched && unchanged(this`messages, this`files)
        invariant detached == Refreshed(old(State()), touched - todo)
        decreases |todo|
      {
        var f :| f in todo;
        todo := todo - {f};
        if Refreshable(files, f) {
          detached := if Referenced(messages, f) then detached - {f} else detached + {f};
        }
      }
      assert touched - todo == touched;
    }

    method PlanTurn(request: Request, env: Env) returns (r: Result<seq<Block>, Failure>)
      ensures r == Lifted(AttachmentPlan(files, request, env.settings, env.meter))
    {
      var plan := PrepareAttachmentPlan(files, request, env.settings, env.meter);
      r := Lifted(plan);
    }

    /** Inserts a user message with its queued run and binds its files. */
    method QueueTurn(row: MessageRow, blocks: seq<Block>, env: Env)
      requires forall i :: 0 <= i < |row.attachments| ==> row.attachments[i] in files
      modifies this
      ensures State() == AppendTurn(old(State()), row, blocks, env)
    {
      hide BoundFiles;
      var message, run := |messages|, |runs|;
      messages := messages + [row];
      runs := runs + [RunRow(message, Queued, env.supports, blocks)];
      messages := messages[message := row.(runId := Some(run))];
      BindFiles(row.attachments, env.now);
    }

    method SubmitMessage(content: string, quote: Option<Quote>, ids: seq<string>, env: Env) returns (r: Result<nat,
                         Failure>)
      modifies this
      ensures var submitted := Submit(old(State()), content, quote, ids, env);
              if submitted.Ok? then State() == submitted.value && r == Ok(old(|messages|))
              else State() == old(State()) && r == Err(submitted.error)
    {
      hide AttachmentPlan, AppendTurn, ImageContext;
      if exists run :: 0 <= run < |runs| && IsActive(runs[run].status) {
        return Err(ActiveRunExists);
      }
      var context := DeriveImageContext();
      var conflict := ContextConflict(context, env.supports);
      if conflict.Some? {
        return Err(conflict.value);
      }
      if !QuoteResolves(Store(messages, runs, files, detached), quote) {
        return Err(QuoteSourceInvalid);
      }
      var text := ModelInput(Excerpt(quote), content, env);
      var request := PlanRequest(text, ids, {}, {}, env);
      var plan := PlanTurn(request, env);
      if plan.Err? {
        return Err(plan.error);
      }
      PlanIsOneBlockPerFile(files, request, env.settings, env.meter);
      r := Ok(|messages|);
      QueueTurn(UserRow(content, Excerpt(quote), ids, messages), plan.value, env);
    }

    /** The checks and the plan shared by editing and regenerating. */
    method PlanReuse(id: nat, text: string, selected: seq<string>, checkSnapshot: bool, env: Env)
      returns (r: Result<seq<Block>, Failure>)
      requires id < |messages|
      ensures r == ReusePlan(State(), id, text, selected, checkSnapshot, env)
      ensures r.Ok? ==> forall i :: 0 <= i < |selected| ==> selected[i] in files
    {
      hide AttachmentPlan, ImageContext, ForMessage, Before, ContextConflict;
      if exists run :: 0 <= run < |runs| && IsActive(runs[run].status) {
        return Err(ActiveRunExists);
      }
      var state := Store(messages, runs, files, detached);
      var context := DeriveImageContext();
      var facts := ForMessage(context, id);
      if checkSnapshot && !SnapshotHolds(facts, selected) {
        return Err(AttachmentFailure(AttachmentInvalid));
      }
      var conflict := ContextConflict(Before(context, messages[id].position), env.supports);
      if conflict.Some? {
        return Err(conflict.value);
      }
      if env.supports == Some(false) && facts.Some? && exists f :: f in facts.value.vision && f in selected {
        return Err(VisionModelRequired);
      }
      var inherited := AttachedFiles(state, id);
      var legacy := set f | f in inherited && facts.Some? && f in facts.value.legacy;
      var request := PlanRequest(text, selected, Elements(inherited), legacy, env);
      r := PlanTurn(request, env);
      assert legacy == LegacyNotices(state, id);
      if r.Ok? {
        PlanIsOneBlockPerFile(files, request, env.settings, env.meter);
      }
    }

    method EditMessage(id: nat, content: string, ids: Option<seq<string>>, env: Env) returns (r: Result<nat, Failure>)
      modifies this
      ensures var edited := Edit(old(State()), id, content, ids, env);
              if edited.Ok? then State() == edited.value && r == Ok(old(|messages|))
              else State() == old(State()) && r == Err(edited.error)
    {
      hide ReusePlan, AppendTurn, Refreshed, NextPosition, Present;
      if !IsVisible(messages, id) {
        return Err(MessageNotFound);
      }
      if messages[id].role != User {
        return Err(EditTargetNotUserMessage);
      }
      var target, state := messages[id], Store(messages, runs, files, detached);
      var inherited := AttachedFiles(state, id);
      var selected := if ids.Some? then ids.value else inherited;
      var plan := PlanReuse(id, ModelInput(target.quote, content, env), selected, ids.None?, env);
      if plan.Err? {
        return Err(plan.error);
      }
      r := Ok(|messages|);
      messages := ArchiveFrom(messages, target.position);
      QueueTurn(UserRow(content, target.quote, selected, messages), plan.value, env);
      RefreshDetached(Elements(inherited) + Elements(selected));
    }

    method RegenerateFrom(id: nat, env: Env) returns (r: Result<nat, Failure>)
      modifies this
      ensures var again := Regenerate(old(State()), id, env);
              if again.Ok? then State() == again.value && r == Anchor(old(State()), id)
              else State() == old(State()) && r == Err(again.error)
    {
      hide ReusePlan;
      if !IsVisible(messages, id) {
        return Err(MessageNotFound);
      }
      var anchor := id;
      if messages[id].role == Assistant {
        if messages[id].runId.None? || messages[id].runId.value >= |runs| {
          return Err(CannotResolveUserMessage);
        }
        anchor := runs[messages[id].runId.value].userMessage;
        if !IsVisible(messages, anchor) {
          return Err(MessageNotFound);
        }
        if messages[anchor].role != User {
          return Err(CannotResolveUserMessage);
        }
      }
      var row, state := messages[anchor], Store(messages, runs, files, detached);
      var plan := PlanReuse(anchor, ModelInput(row.quote, row.content, env), AttachedFiles(state, anchor), true, env);
      if plan.Err? {
        return Err(plan.error);
      }
      messages := ArchiveAfter(messages, row.position);
      var run := |runs|;
      runs := runs + [RunRow(anchor, Queued, env.supports, plan.value)];
      messages := messages[anchor := messages[anchor].(runId := Some(run))];
      r := Ok(anchor);
    }

    /** Finalizes a succeeded outcome; `appended` is the materialized message. */
    method FinalizeSucceeded(run: nat, content: string) returns (appended: Option<nat>)
      requires run < |runs|
      modifies this`messages, this`runs
      ensures State() == Finish(old(State()), run, content)
      ensures var was := old(runs[run].status);
              appended == if was.Started? || was.Streaming? then Some(old(|messages|)) else None
      ensures messages == old(messages) +
                if appended.Some? then
                  [MessageRow(Assistant, content, None, Some(run), [], NextPosition(old(messages)), false)]
                else []
      ensures var was := old(runs[run].status);
              && runs == old(runs)[run := old(runs[run]).(status := runs[run].status)]
              && runs[run].status == (if appended.Some? then Succeeded else if was.Cancelling? then Cancelled else was)
    {
      hide NextPosition;
      var status := runs[run].status;
      appended := None;
      if status.Started? || status.Streaming? {
        runs := runs[run := runs[run].(status := Succeeded)];
        appended := Some(|messages|);
        messages := messages + [MessageRow(Assistant, content, None, Some(run), [], NextPosition(messages), false)];
      } else {
        runs := runs[run := runs[run].(status := NextStatus(status, CancelIfCancelling))];
      }
    }
  }
}
