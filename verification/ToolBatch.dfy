/** One turn's tool calls: admission in call order, a concurrent batch announced
    before it runs, and one finished event and result per call in call order. */
module ToolBatch {
  import opened Prelude
  import opened Messages

  datatype Config = Config(known: set<string>, maxToolCalls: nat)

  /** A tool's result: its metadata as serialized text, and the citation ids of the
      sources that metadata lists. */
  datatype ToolOutcome = ToolOutcome(
    content: string,
    isError: bool,
    metadata: string,
    sources: set<int>,
    elapsedMs: Option<nat>)

  /** An error result carries its code and message. */
  function ErrorResult(code: string, message: string): ToolOutcome {
    ToolOutcome(message + " (" + code + ")", true, code + "\n" + message, {}, None)
  }

  function UnknownTool(name: string): ToolOutcome {
    ErrorResult("unknown_tool", "Unsupported tool: " + name + ".")
  }

  const OVER_LIMIT :=
    ErrorResult("tool_call_limit", "Tool call limit reached. Continuing without executing more tools.")

  ghost predicate AllCalls(calls: seq<Block>) {
    forall i :: 0 <= i < |calls| ==> calls[i].ToolCall?
  }

  /** The calls that name a tool the agent has. */
  function KnownCalls(calls: seq<Block>, known: set<string>): seq<Block>
    requires AllCalls(calls)
  {
    if calls == [] then []
    else
      KnownCalls(calls[..|calls| - 1], known)
      + if calls[|calls| - 1].name in known then [calls[|calls| - 1]] else []
  }

  /** Whether call `i` runs: its tool exists, and the known calls before it leave
      room under the limit. */
  predicate Admits(calls: seq<Block>, cfg: Config, used: nat, i: nat)
    requires AllCalls(calls) && i < |calls|
  {
    calls[i].name in cfg.known && used + |KnownCalls(calls[..i], cfg.known)| < cfg.maxToolCalls
  }

  function AdmittedIndices(calls: seq<Block>, cfg: Config, used: nat, n: nat): seq<nat>
    requires AllCalls(calls) && n <= |calls|
  {
    if n == 0 then []
    else AdmittedIndices(calls, cfg, used, n - 1) + if Admits(calls, cfg, used, n - 1) then [n - 1] else []
  }

  function ExecutedCalls(calls: seq<Block>, cfg: Config, used: nat, n: nat): seq<Block>
    requires AllCalls(calls) && n <= |calls|
  {
    if n == 0 then []
    else ExecutedCalls(calls, cfg, used, n - 1) + if Admits(calls, cfg, used, n - 1) then [calls[n - 1]] else []
  }

  function OutcomeOf(calls: seq<Block>, cfg: Config, used: nat, i: nat, run: nat -> ToolOutcome): ToolOutcome
    requires AllCalls(calls) && i < |calls|
  {
    if Admits(calls, cfg, used, i) then run(i)
    else if calls[i].name !in cfg.known then UnknownTool(calls[i].name)
    else OVER_LIMIT
  }

  function StartedEvents(calls: seq<Block>, indices: seq<nat>, batchSize: nat): seq<AgentEvent>
    requires AllCalls(calls) && forall k :: 0 <= k < |indices| ==> indices[k] < |calls|
  {
    if indices == [] then []
    else
      var call := calls[indices[|indices| - 1]];
      StartedEvents(calls, indices[..|indices| - 1], batchSize) + [ToolStarted(call.name, call.arguments, batchSize)]
  }

  /** The citation ids of the successful results. */
  function SourceIds(indices: seq<nat>, run: nat -> ToolOutcome): set<int> {
    if indices == [] then {}
    else
      var last := run(indices[|indices| - 1]);
      SourceIds(indices[..|indices| - 1], run) + if last.isError then {} else last.sources
  }

  /** What every completion of a concurrent batch reports: how many different sources
      the whole batch found. */
  function BatchSources(calls: seq<Block>, cfg: Config, used: nat, run: nat -> ToolOutcome): Option<nat>
    requires AllCalls(calls)
  {
    var indices := AdmittedIndices(calls, cfg, used, |calls|);
    if |indices| > 1 then Some(|SourceIds(indices, run)|) else None
  }

  function Finished(call: Block, outcome: ToolOutcome, batchSources: Option<nat>): AgentEvent
    requires call.ToolCall?
  {
    ToolFinished(call.name, outcome.isError, outcome.metadata, outcome.elapsedMs, batchSources)
  }

  function FinishedEvents(calls: seq<Block>, cfg: Config, used: nat, run: nat -> ToolOutcome, n: nat): seq<AgentEvent>
    requires AllCalls(calls) && n <= |calls|
  {
    if n == 0 then []
    else
      var outcome := OutcomeOf(calls, cfg, used, n - 1, run);
      FinishedEvents(calls, cfg, used, run, n - 1)
      + [Finished(calls[n - 1], outcome, BatchSources(calls, cfg, used, run))]
  }

  function ResultBlocks(calls: seq<Block>, cfg: Config, used: nat, run: nat -> ToolOutcome, n: nat): seq<Block>
    requires AllCalls(calls) && n <= |calls|
  {
    if n == 0 then []
    else
      var outcome := OutcomeOf(calls, cfg, used, n - 1, run);
      ResultBlocks(calls, cfg, used, run, n - 1) + [ToolResult(calls[n - 1].id, outcome.content, outcome.isError)]
  }

  lemma {:induction false} IndicesInRange(calls: seq<Block>, cfg: Config, used: nat, n: nat)
    requires AllCalls(calls) && n <= |calls|
    ensures forall k :: 0 <= k < |AdmittedIndices(calls, cfg, used, n)| ==> AdmittedIndices(calls, cfg, used, n)[k] < n
    ensures forall i :: 0 <= i < n ==> (i in AdmittedIndices(calls, cfg, used, n) <==> Admits(calls, cfg, used, i))
    ensures |AdmittedIndices(calls, cfg, used, n)| == |ExecutedCalls(calls, cfg, used, n)|
  {
    if n > 0 {
      hide Admits;
      IndicesInRange(calls, cfg, used, n - 1);
    }
  }

  lemma KnownSnoc(calls: seq<Block>, known: set<string>, n: nat)
    requires AllCalls(calls) && n < |calls|
    ensures KnownCalls(calls[..n + 1], known)
         == KnownCalls(calls[..n], known) + if calls[n].name in known then [calls[n]] else []
  {
    assert calls[..n + 1][..n] == calls[..n];
  }

  /** The executed calls of a turn are the first known ones, as many as the limit
      still allows. */
  lemma {:induction false} ExecutedIsPrefixOfKnown(calls: seq<Block>, cfg: Config, used: nat, n: nat)
    requires AllCalls(calls) && n <= |calls| && used <= cfg.maxToolCalls
    ensures var known := KnownCalls(calls[..n], cfg.known);
      ExecutedCalls(calls, cfg, used, n) == known[..Min(|known|, cfg.maxToolCalls - used)]
  {
    if n > 0 {
      hide KnownCalls;
      ExecutedIsPrefixOfKnown(calls, cfg, used, n - 1);
      KnownSnoc(calls, cfg.known, n - 1);
    } else {
      assert calls[..0] == [];
    }
  }

  /** Admission is decided in call order before anything runs. */
  method Admit(calls: seq<Block>, cfg: Config, used: nat, ghost run: nat -> ToolOutcome)
    returns (rejected: map<nat, ToolOutcome>, admitted: seq<nat>, used': nat, executed: seq<Block>)
    requires AllCalls(calls) && used <= cfg.maxToolCalls
    ensures admitted == AdmittedIndices(calls, cfg, used, |calls|)
    ensures executed == ExecutedCalls(calls, cfg, used, |calls|)
    ensures used' == used + |executed| <= cfg.maxToolCalls
    ensures forall j :: 0 <= j < |calls| && !Admits(calls, cfg, used, j) ==>
              j in rejected && rejected[j] == OutcomeOf(calls, cfg, used, j, run)
  {
    hide KnownCalls;
    rejected, admitted := map[], [];
    used', executed := used, [];
    for i := 0 to |calls|
      invariant admitted == AdmittedIndices(calls, cfg, used, i)
      invariant executed == ExecutedCalls(calls, cfg, used, i)
      invariant used' == used + |executed| <= cfg.maxToolCalls
      invariant forall j :: 0 <= j < i && !Admits(calls, cfg, used, j) ==>
                  j in rejected && rejected[j] == OutcomeOf(calls, cfg, used, j, run)
    {
      ExecutedIsPrefixOfKnown(calls, cfg, used, i);
      if calls[i].name !in cfg.known {
        rejected := rejected[i := UnknownTool(calls[i].name)];
      } else if used' >= cfg.maxToolCalls {
        rejected := rejected[i := OVER_LIMIT];
      } else {
        used' := used' + 1;
        admitted := admitted + [i];
        executed := executed + [calls[i]];
      }
    }
  }

  /** Finished events and result blocks follow call order, not completion order. */
  method Complete(calls: seq<Block>, cfg: Config, used: nat, run: nat -> ToolOutcome,
                  rejected: map<nat, ToolOutcome>, outcomes: map<nat, ToolOutcome>, batchSources: Option<nat>)
    returns (events: seq<AgentEvent>, results: seq<Block>)
    requires AllCalls(calls) && batchSources == BatchSources(calls, cfg, used, run)
    requires forall j :: 0 <= j < |calls| ==>
               if Admits(calls, cfg, used, j) then j in outcomes && outcomes[j] == run(j)
               else j !in outcomes && j in rejected && rejected[j] == OutcomeOf(calls, cfg, used, j, run)
    ensures events == FinishedEvents(calls, cfg, used, run, |calls|)
    ensures results == ResultBlocks(calls, cfg, used, run, |calls|)
  {
    hide KnownCalls, BatchSources;
    events, results := [], [];
    for i := 0 to |calls|
      invariant events == FinishedEvents(calls, cfg, used, run, i)
      invariant results == ResultBlocks(calls, cfg, used, run, i)
    {
      var outcome := if i in outcomes then outcomes[i] else rejected[i];
      events := events
          + [ToolFinished(calls[i].name, outcome.isError, outcome.metadata, outcome.elapsedMs, batchSources)];
      results := results + [ToolResult(calls[i].id, outcome.content, outcome.isError)];
    }
  }

  /** Counts the sources of the successful results by citation id. */
  method CountSources(admitted: seq<nat>, outcomes: map<nat, ToolOutcome>,
                      ghost run: nat -> ToolOutcome) returns (count: nat)
    requires forall k :: 0 <= k < |admitted| ==> admitted[k] in outcomes && outcomes[admitted[k]] == run(admitted[k])
    ensures count == |SourceIds(admitted, run)|
  {
    var ids: set<int> := {};
    for k := 0 to |admitted|
      invariant ids == SourceIds(admitted[..k], run)
    {
      assert admitted[..k + 1][..k] == admitted[..k];
      if !outcomes[admitted[k]].isError {
        ids := ids + outcomes[admitted[k]].sources;
      }
    }
    assert admitted[..|admitted|] == admitted;
    count := |ids|;
  }

  /** Runs one turn's calls as the agent loop does. */
  method RunBatch(calls: seq<Block>, cfg: Config, used: nat, run: nat -> ToolOutcome)
    returns (events: seq<AgentEvent>, results: seq<Block>, used': nat, executed: seq<Block>)
    requires AllCalls(calls) && used <= cfg.maxToolCalls
    ensures executed == ExecutedCalls(calls, cfg, used, |calls|)
    ensures events == BatchEvents(calls, cfg, used, run)
    ensures results == ResultBlocks(calls, cfg, used, run, |calls|)
    ensures used' == used + |executed| <= cfg.maxToolCalls
  {
    hide KnownCalls, AdmittedIndices, ExecutedCalls;
    var rejected, admitted;
    rejected, admitted, used', executed := Admit(calls, cfg, used, run);
    IndicesInRange(calls, cfg, used, |calls|);
    var started := Announce(calls, admitted);
    var outcomes: map<nat, ToolOutcome> := map i | i in admitted :: run(i);
    var batchSources := None;
    if |admitted| > 1 {
      var count := CountSources(admitted, outcomes, run);
      batchSources := Some(count);
    }
    var finished;
    finished, results := Complete(calls, cfg, used, run, rejected, outcomes, batchSources);
    events := started + finished;
  }

  /** All announcements of a turn, then one completion per call. */
  function BatchEvents(calls: seq<Block>, cfg: Config, used: nat, run: nat -> ToolOutcome): seq<AgentEvent>
    requires AllCalls(calls)
  {
    IndicesInRange(calls, cfg, used, |calls|);
    var indices := AdmittedIndices(calls, cfg, used, |calls|);
    StartedEvents(calls, indices, |indices|) + FinishedEvents(calls, cfg, used, run, |calls|)
  }

  /** Every admitted call is announced, with the batch size, before anything runs. */
  method Announce(calls: seq<Block>, admitted: seq<nat>) returns (events: seq<AgentEvent>)
    requires AllCalls(calls) && forall k :: 0 <= k < |admitted| ==> admitted[k] < |calls|
    ensures events == StartedEvents(calls, admitted, |admitted|)
  {
    events := [];
    for k := 0 to |admitted|
      invariant events == StartedEvents(calls, admitted[..k], |admitted|)
    {
      assert admitted[..k + 1][..k] == admitted[..k];
      var call := calls[admitted[k]];
      events := events + [ToolStarted(call.name, call.arguments, |admitted|)];
    }
    assert admitted[..|admitted|] == admitted;
  }

  lemma {:induction false} ResultsAnswerCalls(calls: seq<Block>, cfg: Config, used: nat, run: nat -> ToolOutcome,
                                              n: nat)
    requires AllCalls(calls) && n <= |calls|
    ensures |ResultBlocks(calls, cfg, used, run, n)| == n
    ensures forall j :: 0 <= j < n ==>
              var r := ResultBlocks(calls, cfg, used, run, n)[j]; r.ToolResult? && r.callId == calls[j].id
  {
    if n > 0 {
      hide OutcomeOf;
      ResultsAnswerCalls(calls, cfg, used, run, n - 1);
    }
  }

  /** Tool announcements and completions carry no visible text and no message. */
  ghost predicate ToolEvents(events: seq<AgentEvent>) {
    forall i :: 0 <= i < |events| ==> events[i].ToolStarted? || events[i].ToolFinished?
  }

  lemma {:induction false} StartedAreToolEvents(calls: seq<Block>, indices: seq<nat>, batchSize: nat)
    requires AllCalls(calls) && forall k :: 0 <= k < |indices| ==> indices[k] < |calls|
    ensures ToolEvents(StartedEvents(calls, indices, batchSize))
    ensures |StartedEvents(calls, indices, batchSize)| == |indices|
  {
    if indices != [] {
      StartedAreToolEvents(calls, indices[..|indices| - 1], batchSize);
    }
  }

  lemma {:induction false} FinishedAreToolEvents(calls: seq<Block>, cfg: Config, used: nat, run: nat -> ToolOutcome,
                                                 n: nat)
    requires AllCalls(calls) && n <= |calls|
    ensures ToolEvents(FinishedEvents(calls, cfg, used, run, n)) && |FinishedEvents(calls, cfg, used, run, n)| == n
    ensures forall i :: 0 <= i < n ==>
              var e := FinishedEvents(calls, cfg, used, run, n)[i]; e.ToolFinished? && e.name == calls[i].name
  {
    if n > 0 {
      hide OutcomeOf;
      FinishedAreToolEvents(calls, cfg, used, run, n - 1);
    }
  }

  lemma {:induction false} StartedAt(calls: seq<Block>, indices: seq<nat>, batchSize: nat)
    requires AllCalls(calls) && forall k :: 0 <= k < |indices| ==> indices[k] < |calls|
    ensures |StartedEvents(calls, indices, batchSize)| == |indices|
    ensures forall k :: 0 <= k < |indices| ==>
              StartedEvents(calls, indices, batchSize)[k]
                  == ToolStarted(calls[indices[k]].name, calls[indices[k]].arguments, batchSize)
  {
    if indices != [] {
      StartedAt(calls, indices[..|indices| - 1], batchSize);
    }
  }

  lemma {:induction false} ExecutedAt(calls: seq<Block>, cfg: Config, used: nat, n: nat)
    requires AllCalls(calls) && n <= |calls|
    ensures |ExecutedCalls(calls, cfg, used, n)| == |AdmittedIndices(calls, cfg, used, n)|
    ensures forall k :: 0 <= k < |AdmittedIndices(calls, cfg, used, n)| ==>
              var i := AdmittedIndices(calls, cfg, used, n)[k];
              i < n && Admits(calls, cfg, used, i) && ExecutedCalls(calls, cfg, used, n)[k] == calls[i]
    ensures forall k, l :: 0 <= k < l < |AdmittedIndices(calls, cfg, used, n)| ==>
              AdmittedIndices(calls, cfg, used, n)[k] < AdmittedIndices(calls, cfg, used, n)[l]
  {
    if n > 0 {
      hide Admits;
      ExecutedAt(calls, cfg, used, n - 1);
    }
  }

  lemma {:induction false} FinishedAt(calls: seq<Block>, cfg: Config, used: nat, run: nat -> ToolOutcome, n: nat,
                                      j: nat)
    requires AllCalls(calls) && j < n <= |calls|
    ensures |FinishedEvents(calls, cfg, used, run, n)| == n
    ensures var o := OutcomeOf(calls, cfg, used, j, run);
            FinishedEvents(calls, cfg, used, run, n)[j] == Finished(calls[j], o, BatchSources(calls, cfg, used, run))
  {
    hide OutcomeOf, BatchSources;
    FinishedAreToolEvents(calls, cfg, used, run, n);
    FinishedAreToolEvents(calls, cfg, used, run, n - 1);
    if j < n - 1 {
      FinishedAt(calls, cfg, used, run, n - 1, j);
    }
  }

  lemma {:induction false} ResultAt(calls: seq<Block>, cfg: Config, used: nat, run: nat -> ToolOutcome, n: nat, j: nat)
    requires AllCalls(calls) && j < n <= |calls|
    ensures |ResultBlocks(calls, cfg, used, run, n)| == n
    ensures var o := OutcomeOf(calls, cfg, used, j, run);
            ResultBlocks(calls, cfg, used, run, n)[j] == ToolResult(calls[j].id, o.content, o.isError)
  {
    hide OutcomeOf;
    ResultsAnswerCalls(calls, cfg, used, run, n);
    ResultsAnswerCalls(calls, cfg, used, run, n - 1);
    if j < n - 1 {
      ResultAt(calls, cfg, used, run, n - 1, j);
    }
  }

  /** The ids any executed, successful call lists. */
  ghost function SuccessfulIds(calls: seq<Block>, cfg: Config, used: nat, run: nat -> ToolOutcome): set<int>
    requires AllCalls(calls)
  {
    set i, id | 0 <= i < |calls| && Admits(calls, cfg, used, i) && !run(i).isError && id in run(i).sources :: id
  }

  lemma {:induction false} SourceIdsAre(indices: seq<nat>, run: nat -> ToolOutcome)
    ensures forall id :: id in SourceIds(indices, run) <==>
              exists k :: 0 <= k < |indices| && !run(indices[k]).isError && id in run(indices[k]).sources
  {
    if indices != [] {
      var n := |indices| - 1;
      SourceIdsAre(indices[..n], run);
      assert forall k :: 0 <= k < n ==> indices[..n][k] == indices[k];
    }
  }

  lemma BatchSourcesAre(calls: seq<Block>, cfg: Config, used: nat, run: nat -> ToolOutcome)
    requires AllCalls(calls)
    ensures var n := |ExecutedCalls(calls, cfg, used, |calls|)|;
            BatchSources(calls, cfg, used, run) == if n > 1 then Some(|SuccessfulIds(calls, cfg, used, run)|) else None
  {
    hide Admits, ExecutedCalls, AdmittedIndices, SourceIds;
    var indices := AdmittedIndices(calls, cfg, used, |calls|);
    IndicesInRange(calls, cfg, used, |calls|);
    SourceIdsAre(indices, run);
    forall id | id in SuccessfulIds(calls, cfg, used, run) ensures id in SourceIds(indices, run) {
      var i :| 0 <= i < |calls| && Admits(calls, cfg, used, i) && !run(i).isError && id in run(i).sources;
      assert i in indices;
    }
    forall id | id in SourceIds(indices, run) ensures id in SuccessfulIds(calls, cfg, used, run) {
      var k :| 0 <= k < |indices| && !run(indices[k]).isError && id in run(indices[k]).sources;
      assert indices[k] in indices;
    }
    assert SuccessfulIds(calls, cfg, used, run) == SourceIds(indices, run);
  }

  /** What a rejected call is told: its tool does not exist, or the limit is reached. */
  lemma RejectionsSay(calls: seq<Block>, cfg: Config, used: nat, i: nat, run: nat -> ToolOutcome)
    requires AllCalls(calls) && i < |calls|
    ensures var o := OutcomeOf(calls, cfg, used, i, run);
            && (calls[i].name !in cfg.known ==>
                  o.isError && o.content == ("Unsupported tool: " + calls[i].name + ".") + " (" + "unknown_tool" + ")")
            && (calls[i].name in cfg.known && used + |KnownCalls(calls[..i], cfg.known)| >= cfg.maxToolCalls ==>
                  o.isError && o.content == "Tool call limit reached. Continuing without executing more tools."
                                            + " (" + "tool_call_limit" + ")")
  {
    hide KnownCalls;
  }

  /** Call `j` runs: its tool is known and fewer known calls than the limit went before. */
  ghost predicate Runs(calls: seq<Block>, cfg: Config, used: nat, j: nat)
    requires AllCalls(calls)
  {
    j < |calls| && calls[j].name in cfg.known && used + |KnownCalls(calls[..j], cfg.known)| < cfg.maxToolCalls
  }

  lemma OutcomeIsOwn(calls: seq<Block>, cfg: Config, used: nat, j: nat, run: nat -> ToolOutcome)
    requires AllCalls(calls) && j < |calls|
    ensures var o := OutcomeOf(calls, cfg, used, j, run);
            if Runs(calls, cfg, used, j) then o == run(j) else o.isError && o.elapsedMs.None?
  {
    hide KnownCalls;
  }

  /** A turn's events are the announcements of exactly the executed calls, in order
      and each with the batch size, followed by one completion per call in call
      order. A call that ran reports its own outcome, and so does its result; any
      other reports an error without a duration. All completions carry the same count:
      the different citation ids among the successful results, when several calls ran. */
  lemma BatchAnnouncesThenReports(calls: seq<Block>, cfg: Config, used: nat, run: nat -> ToolOutcome)
    requires AllCalls(calls)
    ensures var events, executed := BatchEvents(calls, cfg, used, run), ExecutedCalls(calls, cfg, used, |calls|);
            var results := ResultBlocks(calls, cfg, used, run, |calls|);
            && |events| == |executed| + |calls| && |results| == |calls|
            && (forall k :: 0 <= k < |executed| ==>
                  executed[k].ToolCall?
                      && events[k] == ToolStarted(executed[k].name, executed[k].arguments, |executed|))
            && (forall j :: 0 <= j < |calls| ==>
                  var e, r := events[|executed| + j], results[j];
                  && e.ToolFinished? && e.name == calls[j].name && r.ToolResult? && r.callId == calls[j].id
                     && e.isError == r.isError
                  && (if Runs(calls, cfg, used, j) then
                        run(j) == ToolOutcome(r.content, e.isError, e.metadata, run(j).sources, e.elapsedMs)
                      else e.isError && e.elapsedMs.None?)
                  && (if |executed| <= 1 then e.batchSources.None?
                      else e.batchSources == Some(|SuccessfulIds(calls, cfg, used, run)|)))
  {
    hide StartedEvents, FinishedEvents, ResultBlocks, ExecutedCalls;
    hide AdmittedIndices, Admits, BatchSources, SuccessfulIds, OutcomeOf, KnownCalls;
    BatchSourcesAre(calls, cfg, used, run);
    var indices := AdmittedIndices(calls, cfg, used, |calls|);
    IndicesInRange(calls, cfg, used, |calls|);
    StartedAt(calls, indices, |indices|);
    ExecutedAt(calls, cfg, used, |calls|);
    FinishedAreToolEvents(calls, cfg, used, run, |calls|);
    ResultsAnswerCalls(calls, cfg, used, run, |calls|);
    forall j | 0 <= j < |calls|
      ensures var o := OutcomeOf(calls, cfg, used, j, run);
              && FinishedEvents(calls, cfg, used, run, |calls|)[j]
                 == Finished(calls[j], o, BatchSources(calls, cfg, used, run))
              && ResultBlocks(calls, cfg, used, run, |calls|)[j] == ToolResult(calls[j].id, o.content, o.isError)
              && (if Runs(calls, cfg, used, j) then o == run(j) else o.isError && o.elapsedMs.None?)
    {
      OutcomeIsOwn(calls, cfg, used, j, run);
      FinishedAt(calls, cfg, used, run, |calls|, j);
      ResultAt(calls, cfg, used, run, |calls|, j);
    }
  }
}
