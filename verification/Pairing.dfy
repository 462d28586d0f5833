/** Tool exchanges: an assistant turn that calls tools and the user turn that
    answers it belong together. */
module Pairing {
  import opened Messages

  predicate Calls(m: Message) {
    m.role == Assistant && ToolCalls(m.blocks) != []
  }

  predicate HoldsResult(m: Message) {
    exists j :: 0 <= j < |m.blocks| && m.blocks[j].ToolResult?
  }

  /** `r` answers `m`: one result per call, same ids, same order, nothing else. */
  predicate Answers(m: Message, r: Message) {
    && r.role == User
    && |r.blocks| == |ToolCalls(m.blocks)|
    && forall j :: 0 <= j < |r.blocks| ==>
         r.blocks[j].ToolResult? && ToolCalls(m.blocks)[j].ToolCall? && r.blocks[j].callId == ToolCalls(m.blocks)[j].id
  }

  /** Every tool-calling turn is answered by the very next message, and no result
      stands without the call it answers. */
  ghost predicate WellPaired(ms: seq<Message>) {
    && (forall i :: 0 <= i < |ms| && Calls(ms[i]) ==> i + 1 < |ms| && Answers(ms[i], ms[i + 1]))
    && (forall i :: 0 <= i < |ms| && HoldsResult(ms[i]) ==> 0 < i && Calls(ms[i - 1]) && Answers(ms[i - 1], ms[i]))
  }

  /** A complete exchange may be appended to a well-paired conversation. */
  lemma AppendExchange(ms: seq<Message>, m: Message, r: Message)
    requires WellPaired(ms) && Calls(m) && !HoldsResult(m) && Answers(m, r)
    ensures WellPaired(ms + [m, r])
  {
    hide Answers, HoldsResult, Calls;
    var all := ms + [m, r];
    assert forall i :: 0 <= i < |ms| ==> all[i] == ms[i];
    assert all[|ms|] == m && all[|ms| + 1] == r;
    assert !Calls(r) by {
      assert r.role == User by { UserAnswers(m, r); }
      UserNeverCalls(r);
    }
  }

  lemma UserAnswers(m: Message, r: Message)
    requires Answers(m, r)
    ensures r.role == User
  {
  }

  lemma UserNeverCalls(r: Message)
    requires r.role == User
    ensures !Calls(r)
  {
  }

  /** A cut just before a message without results, and not inside an exchange,
      leaves both sides whole. */
  lemma CutKeepsPairs(ms: seq<Message>, n: nat)
    requires WellPaired(ms) && n <= |ms|
    requires n < |ms| ==> !HoldsResult(ms[n])
    ensures WellPaired(ms[n..])
  {
    hide Answers, HoldsResult, Calls;
    var rest := ms[n..];
    assert forall i :: 0 <= i < |rest| ==> rest[i] == ms[n + i];
    forall i | 0 <= i < |rest| && Calls(rest[i]) ensures i + 1 < |rest| && Answers(rest[i], rest[i + 1]) {
      assert Calls(ms[n + i]);
      assert rest[i + 1] == ms[n + i + 1];
    }
    forall i | 0 <= i < |rest| && HoldsResult(rest[i])
      ensures 0 < i && Calls(rest[i - 1]) && Answers(rest[i - 1], rest[i])
    {
      assert HoldsResult(ms[n + i]);
      assert i > 0;
      assert rest[i - 1] == ms[n + i - 1];
    }
  }

  /** Well paired, call by call: a tool-calling turn is followed by a user message of
      exactly as many results, each carrying the id of the call in its place. */
  lemma PairsAreCallByCall(ms: seq<Message>, i: nat, j: nat)
    requires WellPaired(ms) && i < |ms| && ms[i].role == Assistant && j < |ToolCalls(ms[i].blocks)|
    ensures i + 1 < |ms| && ms[i + 1].role == User && |ms[i + 1].blocks| == |ToolCalls(ms[i].blocks)|
    ensures ToolCalls(ms[i].blocks)[j].ToolCall?
    ensures ms[i + 1].blocks[j].ToolResult? && ms[i + 1].blocks[j].callId == ToolCalls(ms[i].blocks)[j].id
  {
    hide ToolCalls;
    assert Calls(ms[i]);
  }
}
