/** What every sequence of conversation operations keeps: the rows stand for a
    plain list, an active run pins its end, and every answer follows its turn. */
module ConversationSafety {
  import opened Prelude
  import opened Messages
  import opened Attachments
  import opened Transcript
  import opened Conversations

  // ------------------------------------------------------------------- the invariant

  /** Every user message's current run was queued for it. */
  ghost predicate UserRuns(s: Store) {
    forall i :: 0 <= i < |s.messages| && s.messages[i].role == User ==>
      && s.messages[i].runId.Some? && s.messages[i].runId.value < |s.runs|
      && s.runs[s.messages[i].runId.value].userMessage == i
  }

  ghost predicate RunAnchors(s: Store) {
    forall r :: 0 <= r < |s.runs| ==>
      s.runs[r].userMessage < |s.messages| && s.messages[s.runs[r].userMessage].role == User
  }

  /** Row `u` is visible and directly precedes row `j` among the visible rows. */
  ghost predicate Precedes(rows: seq<MessageRow>, u: nat, j: nat) {
    u < j <= |rows| && !rows[u].archived && forall k :: u < k < j ==> rows[k].archived
  }

  /** An assistant row comes from a succeeded run; while visible, it directly
      follows that run's user message, which still carries the same run. */
  ghost predicate AnswerHolds(s: Store, j: nat) {
    j < |s.messages| && s.messages[j].role == Assistant ==>
      && s.messages[j].runId.Some? && s.messages[j].runId.value < |s.runs|
      && s.runs[s.messages[j].runId.value].status == Succeeded
      && s.runs[s.messages[j].runId.value].userMessage < j
      && (!s.messages[j].archived ==>
            var u := s.runs[s.messages[j].runId.value].userMessage;
            Precedes(s.messages, u, j) && s.messages[u].runId == s.messages[j].runId)
  }

  /** An active run's user message is the last visible row and carries that run. */
  ghost predicate PinHolds(s: Store, r: nat) {
    r < |s.runs| && IsActive(s.runs[r].status) ==>
      && Precedes(s.messages, s.runs[r].userMessage, |s.messages|)
      && s.messages[s.runs[r].userMessage].runId == Some(r)
  }

  predicate Answers(row: MessageRow, r: nat) {
    row.role == Assistant && row.runId == Some(r)
  }

  /** A succeeded run has exactly one answer and any other run none. */
  ghost predicate OneAnswer(s: Store) {
    && (forall r :: 0 <= r < |s.runs| && s.runs[r].status == Succeeded ==>
          exists j :: 0 <= j < |s.messages| && Answers(s.messages[j], r))
    && (forall i, j ::
          0 <= i < j < |s.messages| && s.messages[i].role == Assistant && s.messages[j].role == Assistant ==>
          s.messages[i].runId != s.messages[j].runId)
  }

  ghost predicate Inv(s: Store) {
    && Ordered(s.messages)
    && (forall i :: 0 <= i < |s.messages| ==> s.messages[i].role != System)
    && UserRuns(s) && RunAnchors(s)
    && (forall j: nat :: AnswerHolds(s, j))
    && (forall r: nat :: PinHolds(s, r))
    && OneAnswer(s)
  }

  // ------------------------------------------------------------------- each effect

  /** A row's answer condition is untouched by appending rows and runs and by
      changing a run that has not succeeded. */
  lemma AnswerIsStable(s: Store, t: Store, j: nat)
    requires AnswerHolds(s, j) && j < |s.messages|
    requires |s.messages| <= |t.messages| && forall i :: 0 <= i < |s.messages| ==> t.messages[i] == s.messages[i]
    requires |s.runs| <= |t.runs| && forall r :: 0 <= r < |s.runs| && s.runs[r].status == Succeeded ==>
        t.runs[r] == s.runs[r]
    ensures AnswerHolds(t, j)
  {
  }

  lemma AppendKeepsRows(s: Store, row: MessageRow, blocks: seq<Block>, env: Env)
    requires Inv(s) && !HasActiveRun(s) && row.role == User && !row.archived && row.position == NextPosition(s.messages)
    ensures var t := AppendTurn(s, row, blocks, env);
            Ordered(t.messages) && UserRuns(t) && RunAnchors(t) && OneAnswer(t)
  {
    var t := AppendTurn(s, row, blocks, env);
    NextPositionIsLast(s.messages, t.messages[|s.messages|]);
    assert forall i :: 0 <= i < |s.messages| ==> t.messages[i] == s.messages[i];
    assert forall r :: 0 <= r < |s.runs| ==> t.runs[r] == s.runs[r];
  }

  lemma AppendKeepsInv(s: Store, row: MessageRow, blocks: seq<Block>, env: Env)
    requires Inv(s) && !HasActiveRun(s) && row.role == User && !row.archived && row.position == NextPosition(s.messages)
    ensures Inv(AppendTurn(s, row, blocks, env))
  {
    var t := AppendTurn(s, row, blocks, env);
    AppendKeepsRows(s, row, blocks, env);
    hide UserRuns, RunAnchors, OneAnswer, Ordered;
    assert forall i :: 0 <= i < |s.messages| ==> t.messages[i] == s.messages[i];
    assert forall r :: 0 <= r < |s.runs| ==> t.runs[r] == s.runs[r];
    forall j: nat ensures AnswerHolds(t, j) {
      hide NextPosition, BoundFiles, HasActiveRun, PinHolds;
      if j < |s.messages| {
        AnswerIsStable(s, t, j);
      }
    }
    forall r: nat ensures PinHolds(t, r) {
      hide NextPosition, BoundFiles, AnswerHolds;
    }
  }

  /** Archiving a suffix of the rows keeps everything while no run is active. */
  ghost predicate ArchivesFrom(s: Store, t: Store, n: nat) {
    && n <= |s.messages| == |t.messages| && t.runs == s.runs
    && (forall i :: 0 <= i < n ==> t.messages[i] == s.messages[i])
    && (forall i :: n <= i < |s.messages| ==> t.messages[i] == Archive(s.messages[i]))
  }

  lemma CutKeepsInv(s: Store, t: Store, n: nat)
    requires Inv(s) && !HasActiveRun(s) && ArchivesFrom(s, t, n)
    ensures Inv(t) && !HasActiveRun(t)
  {
    forall j: nat ensures AnswerHolds(t, j) {
      assert AnswerHolds(s, j);
    }
    CutKeepsAnswers(s, t, n);
  }

  lemma CutKeepsAnswers(s: Store, t: Store, n: nat)
    requires OneAnswer(s) && ArchivesFrom(s, t, n)
    ensures OneAnswer(t)
  {
    forall r | 0 <= r < |t.runs| && t.runs[r].status == Succeeded
      ensures exists j :: 0 <= j < |t.messages| && Answers(t.messages[j], r)
    {
      var j :| 0 <= j < |s.messages| && Answers(s.messages[j], r);
      assert Answers(t.messages[j], r);
    }
  }

  /** Pointing the last visible row, a user message, at a new run. */
  lemma RequeueKeepsInv(s: Store, anchor: nat, blocks: seq<Block>, env: Env)
    requires Inv(s) && !HasActiveRun(s) && anchor < |s.messages| && s.messages[anchor].role == User
    requires Precedes(s.messages, anchor, |s.messages|)
    ensures Inv(s.(messages := s.messages[anchor := s.messages[anchor].(runId := Some(|s.runs|))],
                   runs := s.runs + [RunRow(anchor, Queued, env.supports, blocks)]))
  {
    var t := s.(messages := s.messages[anchor := s.messages[anchor].(runId := Some(|s.runs|))],
                runs := s.runs + [RunRow(anchor, Queued, env.supports, blocks)]);
    assert forall r :: 0 <= r < |s.runs| ==> t.runs[r] == s.runs[r];
    forall j: nat ensures AnswerHolds(t, j) {
      assert AnswerHolds(s, j);
    }
    RequeueKeepsAnswers(s, t, anchor);
  }

  lemma RequeueKeepsAnswers(s: Store, t: Store, anchor: nat)
    requires OneAnswer(s) && anchor < |s.messages| && s.messages[anchor].role == User
    requires exists run: Option<nat> :: t.messages == s.messages[anchor := s.messages[anchor].(runId := run)]
    requires |t.runs| == |s.runs| + 1 && t.runs[..|s.runs|] == s.runs && t.runs[|s.runs|].status != Succeeded
    ensures OneAnswer(t)
  {
    forall r | 0 <= r < |t.runs| && t.runs[r].status == Succeeded
      ensures exists j :: 0 <= j < |t.messages| && Answers(t.messages[j], r)
    {
      assert t.runs[r] == s.runs[r];
      var j :| 0 <= j < |s.messages| && Answers(s.messages[j], r);
      assert Answers(t.messages[j], r);
    }
  }

  lemma RerunKeepsInv(s: Store, anchor: nat, blocks: seq<Block>, env: Env)
    requires Inv(s) && !HasActiveRun(s) && IsVisible(s.messages, anchor) && s.messages[anchor].role == User
    ensures Inv(RerunTurn(s, anchor, blocks, env))
  {
    var cut := s.(messages := ArchiveAfter(s.messages, s.messages[anchor].position));
    assert ArchivesFrom(s, cut, anchor + 1);
    hide Inv;
    CutKeepsInv(s, cut, anchor + 1);
    RequeueKeepsInv(cut, anchor, blocks, env);
  }

  lemma EditKeepsInv(s: Store, id: nat, content: string, ids: seq<string>, blocks: seq<Block>, env: Env)
    requires Inv(s) && !HasActiveRun(s) && IsVisible(s.messages, id)
    ensures Inv(EditTurn(s, id, content, ids, blocks, env))
  {
    var cut := s.(messages := ArchiveFrom(s.messages, s.messages[id].position));
    assert ArchivesFrom(s, cut, id);
    CutKeepsInv(s, cut, id);
    AppendKeepsInv(cut, UserRow(content, s.messages[id].quote, ids, cut.messages), blocks, env);
  }

  /** A status change that activates nothing and never makes a run succeed. */
  lemma StatusKeepsInv(s: Store, run: nat, status: RunStatus)
    requires Inv(s) && run < |s.runs|
    requires IsActive(status) ==> IsActive(s.runs[run].status)
    requires status == Succeeded <==> s.runs[run].status == Succeeded
    ensures Inv(SetStatus(s, run, status))
  {
    var t := SetStatus(s, run, status);
    forall j: nat ensures AnswerHolds(t, j) {
      assert AnswerHolds(s, j);
    }
    forall r: nat ensures PinHolds(t, r) {
      assert PinHolds(s, r);
    }
  }

  /** Two active runs would pin the same last row, which carries only one run. */
  lemma ActiveRunIsUnique(s: Store, q: nat, r: nat)
    requires Inv(s) && q < |s.runs| && r < |s.runs| && IsActive(s.runs[q].status) && IsActive(s.runs[r].status)
    ensures q == r
  {
    assert PinHolds(s, q) && PinHolds(s, r);
  }

  /** The rows after an answer is materialized: only run statuses and the new row differ. */
  lemma MaterializeKeepsRows(s: Store, run: nat, content: string)
    requires Inv(s) && run < |s.runs| && (s.runs[run].status.Started? || s.runs[run].status.Streaming?)
    ensures var t := Finish(s, run, content);
            && Ordered(t.messages) && UserRuns(t) && RunAnchors(t)
            && forall i :: 0 <= i < |t.messages| ==> t.messages[i].role != System
  {
    hide AnswerHolds, PinHolds, OneAnswer;
    var t := Finish(s, run, content);
    NextPositionIsLast(s.messages, t.messages[|s.messages|]);
    assert forall i :: 0 <= i < |s.messages| ==> t.messages[i] == s.messages[i];
  }

  /** The answer directly follows the message its run has been pinning. */
  lemma MaterializedFollowsPin(s: Store, run: nat, content: string)
    requires Inv(s) && run < |s.runs| && (s.runs[run].status.Started? || s.runs[run].status.Streaming?)
    ensures AnswerHolds(Finish(s, run, content), |s.messages|)
  {
    hide UserRuns, RunAnchors, OneAnswer, Ordered, NextPosition;
    assert PinHolds(s, run);
  }

  lemma MaterializeKeepsInv(s: Store, run: nat, content: string)
    requires Inv(s) && run < |s.runs| && (s.runs[run].status.Started? || s.runs[run].status.Streaming?)
    ensures Inv(Finish(s, run, content))
  {
    var t := Finish(s, run, content);
    MaterializeKeepsRows(s, run, content);
    MaterializedFollowsPin(s, run, content);
    MaterializeKeepsAnswers(s, run, content);
    hide UserRuns, RunAnchors, OneAnswer, Ordered, NextPosition;
    forall j: nat ensures AnswerHolds(t, j) {
      hide PinHolds;
      if j < |s.messages| {
        AnswerIsStable(s, t, j);
      }
    }
    forall r: nat ensures PinHolds(t, r) {
      hide AnswerHolds;
      if r < |s.runs| && IsActive(t.runs[r].status) {
        ActiveRunIsUnique(s, run, r);
      }
    }
  }

  lemma MaterializeKeepsAnswers(s: Store, run: nat, content: string)
    requires Inv(s) && run < |s.runs| && (s.runs[run].status.Started? || s.runs[run].status.Streaming?)
    ensures OneAnswer(Finish(s, run, content))
  {
    var t := Finish(s, run, content);
    var n := |s.messages|;
    assert Answers(t.messages[n], run);
    assert forall i :: 0 <= i < n ==> t.messages[i] == s.messages[i];
    forall r | 0 <= r < |t.runs| && t.runs[r].status == Succeeded
      ensures exists j :: 0 <= j < |t.messages| && Answers(t.messages[j], r)
    {
      if r != run {
        var j :| 0 <= j < n && Answers(s.messages[j], r);
        assert Answers(t.messages[j], r);
      }
    }
    forall i | 0 <= i < n && s.messages[i].role == Assistant ensures s.messages[i].runId != Some(run) {
      assert AnswerHolds(s, i);
    }
  }
}
