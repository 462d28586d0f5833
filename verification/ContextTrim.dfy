/** Context assembly: the system prompt followed by the newest whole turns that
    fit the token budget. */
module ContextTrim {
  import opened Prelude
  import opened Messages
  import opened Pairing

  const PER_MESSAGE_OVERHEAD_TOKENS := 4

  const ATTACHMENT_NOTICE := "This attachment is present but cannot be read by the current model."

  /** A token counter and the reserve charged per image. */
  datatype Meter = Meter(count: string -> nat, imageReserve: int)

  function BlockText(block: Block): string {
    match block
    case ToolCall(_, _, arguments) => arguments
    case ToolResult(_, content, _) => content
    case Continuation(payload) => payload
    case Notice(_, filename, mediaType) => filename + "\n" + mediaType + "\n" + ATTACHMENT_NOTICE
    case Image(_, metadata) => metadata
    case Document(_, metadata, text) => metadata + "\n" + text
    case Text(text) => text
    case Reasoning(text, _) => text
  }

  /** The nonempty block texts joined by newlines. */
  function JoinedText(blocks: seq<Block>): string {
    if blocks == [] then ""
    else
      var front, last := JoinedText(blocks[..|blocks| - 1]), BlockText(blocks[|blocks| - 1]);
      if last == "" then front else if front == "" then last else front + "\n" + last
  }

  function ImageCount(blocks: seq<Block>): nat {
    if blocks == [] then 0
    else ImageCount(blocks[..|blocks| - 1]) + if blocks[|blocks| - 1].Image? then 1 else 0
  }

  function MessageTokens(m: Message, meter: Meter): nat {
    meter.count(JoinedText(m.blocks)) + PER_MESSAGE_OVERHEAD_TOKENS + ImageCount(m.blocks) * Max(meter.imageReserve, 0)
  }

  function Cost(ms: seq<Message>, meter: Meter): nat {
    if ms == [] then 0 else MessageTokens(ms[0], meter) + Cost(ms[1..], meter)
  }

  /** A genuine user turn: something other than tool results. */
  predicate IsTurnBoundary(m: Message) {
    m.role == User && exists j :: 0 <= j < |m.blocks| && !m.blocks[j].ToolResult?
  }

  /** Where a whole turn starts; a leading fragment belongs to the first turn. */
  predicate IsStart(history: seq<Message>, i: nat) {
    i < |history| && (i == 0 || IsTurnBoundary(history[i]))
  }

  /** The last start at or before `n - 1`. */
  function LastStart(history: seq<Message>, n: nat): (s: nat)
    requires 0 < n <= |history|
    ensures IsStart(history, s) && s < n
    ensures forall j :: s < j < n ==> !IsStart(history, j)
  {
    if IsStart(history, n - 1) then n - 1 else LastStart(history, n - 1)
  }

  /** The first start from `i` on whose suffix fits, or the last start. */
  function TrimPoint(history: seq<Message>, budget: int, meter: Meter, i: nat): (cut: nat)
    requires history != [] && i <= LastStart(history, |history|)
    ensures i <= cut <= LastStart(history, |history|) && (i == cut || IsStart(history, cut))
    decreases |history| - i
  {
    if i == LastStart(history, |history|) || (IsStart(history, i) && Cost(history[i..], meter) <= budget) then i
    else TrimPoint(history, budget, meter, i + 1)
  }

  function Trimmed(history: seq<Message>, budget: int, meter: Meter): seq<Message> {
    if history == [] then [] else history[TrimPoint(history, budget, meter, 0)..]
  }

  function SystemText(prompt: string): Message {
    Message(System, [Text(prompt)])
  }

  function BuildContext(prompt: string, history: seq<Message>, budget: int, meter: Meter): seq<Message> {
    [SystemText(prompt)] + Trimmed(history, budget - MessageTokens(SystemText(prompt), meter), meter)
  }

  // ---------------------------------------------------------------- what a turn costs

  /** The nonempty ones among some texts, in order. */
  function NonEmpty(texts: seq<string>): seq<string> {
    if texts == [] then [] else (if texts[0] == "" then [] else [texts[0]]) + NonEmpty(texts[1..])
  }

  function Lines(parts: seq<string>): string {
    if parts == [] then "" else if |parts| == 1 then parts[0] else parts[0] + "\n" + Lines(parts[1..])
  }

  function TextsOf(blocks: seq<Block>): seq<string> {
    seq(|blocks|, i requires 0 <= i < |blocks| => BlockText(blocks[i]))
  }

  lemma {:induction false} NonEmptySnoc(texts: seq<string>, text: string)
    ensures NonEmpty(texts + [text]) == if text == "" then NonEmpty(texts) else NonEmpty(texts) + [text]
  {
    if texts == [] {
      assert texts + [text] == [text] && [text][1..] == [];
    } else {
      NonEmptySnoc(texts[1..], text);
      assert (texts + [text])[1..] == texts[1..] + [text];
    }
  }

  lemma {:induction false} LinesSnoc(parts: seq<string>, part: string)
    ensures Lines(parts + [part]) == if parts == [] then part else Lines(parts) + "\n" + part
  {
    if |parts| == 0 {
      assert parts + [part] == [part];
    } else if |parts| == 1 {
      assert (parts + [part])[1..] == [part];
    } else {
      LinesSnoc(parts[1..], part);
      assert (parts + [part])[1..] == parts[1..] + [part];
      assert parts[0] + "\n" + (Lines(parts[1..]) + "\n" + part) == (parts[0] + "\n" + Lines(parts[1..])) + "\n" + part;
    }
  }

  lemma {:induction false} JoinedIsLines(blocks: seq<Block>)
    ensures JoinedText(blocks) == Lines(NonEmpty(TextsOf(blocks)))
    ensures JoinedText(blocks) == "" <==> NonEmpty(TextsOf(blocks)) == []
  {
    hide BlockText, NonEmpty, Lines;
    if blocks == [] {
      NothingPriced();
      assert TextsOf(blocks) == [];
    } else {
      var front, last := blocks[..|blocks| - 1], BlockText(blocks[|blocks| - 1]);
      JoinedIsLines(front);
      assert TextsOf(blocks) == TextsOf(front) + [last];
      NonEmptySnoc(TextsOf(front), last);
      LinesSnoc(NonEmpty(TextsOf(front)), last);
    }
  }

  lemma NothingPriced()
    ensures NonEmpty([]) == [] && Lines([]) == ""
  {
  }

  lemma {:induction false} ImageCountIs(blocks: seq<Block>)
    ensures ImageCount(blocks) == |set i | 0 <= i < |blocks| && blocks[i].Image?|
  {
    var all := set i | 0 <= i < |blocks| && blocks[i].Image?;
    if blocks == [] {
      assert all == {};
    } else {
      var n := |blocks| - 1;
      ImageCountIs(blocks[..n]);
      var fewer := set i | 0 <= i < |blocks[..n]| && blocks[..n][i].Image?;
      assert all == if blocks[n].Image? then fewer + {n} else fewer;
    }
  }

  /** What a block is priced by: everything of it the model is given. */
  lemma PricedTexts(block: Block)
    ensures match block
            case Text(text) => BlockText(block) == text
            case Reasoning(text, _) => BlockText(block) == text
            case Document(_, metadata, text) => BlockText(block) == metadata + "\n" + text
            case ToolCall(_, _, arguments) => BlockText(block) == arguments
            case ToolResult(_, content, _) => BlockText(block) == content
            case Continuation(payload) => BlockText(block) == payload
            case Image(_, metadata) => BlockText(block) == metadata
            case Notice(_, filename, mediaType) =>
              BlockText(block) == filename + "\n" + mediaType + "\n" + ATTACHMENT_NOTICE
  {
  }

  /** A message costs the tokens of its nonempty block texts on lines of their own, four
      more, and the reserve for each image. */
  lemma MessageCosts(m: Message, meter: Meter)
    ensures var images := set i | 0 <= i < |m.blocks| && m.blocks[i].Image?;
            MessageTokens(m, meter) == meter.count(Lines(NonEmpty(TextsOf(m.blocks)))) + 4
              + |images| * if meter.imageReserve < 0 then 0 else meter.imageReserve
  {
    hide JoinedText, ImageCount, Lines, NonEmpty, TextsOf;
    JoinedIsLines(m.blocks);
    ImageCountIs(m.blocks);
  }

  // --------------------------------------------------------------- what trimming means

  lemma {:induction false} SkippedDoNotFit(history: seq<Message>, budget: int, meter: Meter, i: nat, j: nat)
    requires history != [] && i <= LastStart(history, |history|)
    requires i <= j < TrimPoint(history, budget, meter, i) && IsStart(history, j)
    ensures Cost(history[j..], meter) > budget
    decreases |history| - i
  {
    hide Cost;
    if i < j {
      SkippedDoNotFit(history, budget, meter, i + 1, j);
    }
  }

  lemma {:induction false} TrimPointFits(history: seq<Message>, budget: int, meter: Meter, i: nat)
    requires history != [] && i <= LastStart(history, |history|)
    ensures var cut := TrimPoint(history, budget, meter, i);
      IsStart(history, cut) && (Cost(history[cut..], meter) <= budget || cut == LastStart(history, |history|))
    decreases |history| - i
  {
    hide Cost;
    if i < TrimPoint(history, budget, meter, i) {
      TrimPointFits(history, budget, meter, i + 1);
    }
  }

  /** The history's first message, or a user message with something besides tool results. */
  ghost predicate OpensTurn(history: seq<Message>, i: nat) {
    && i < |history|
    && (|| i == 0
        || (history[i].role == User && !forall j :: 0 <= j < |history[i].blocks| ==> history[i].blocks[j].ToolResult?))
  }

  lemma StartsOpenTurns(history: seq<Message>, i: nat)
    ensures IsStart(history, i) <==> OpensTurn(history, i)
  {
  }

  lemma {:induction false} CostIsASum(a: seq<Message>, m: Message, meter: Meter)
    ensures Cost([], meter) == 0 && Cost([m] + a, meter) == MessageTokens(m, meter) + Cost(a, meter)
  {
    assert ([m] + a)[1..] == a;
  }

  /** A context is the system prompt and the longest suffix of whole turns that fits what
      the prompt leaves of the budget, or the prompt and just the last turn. */
  lemma ContextIsPromptThenTurns(prompt: string, history: seq<Message>, budget: int, meter: Meter)
    requires history != []
    ensures var system := Message(System, [Text(prompt)]);
      var left := budget - MessageTokens(system, meter);
      exists cut: nat ::
        && OpensTurn(history, cut) && BuildContext(prompt, history, budget, meter) == [system] + history[cut..]
        && (Cost(history[cut..], meter) <= left || forall j :: cut < j < |history| ==> !OpensTurn(history, j))
        && (forall j :: 0 <= j < cut && OpensTurn(history, j) ==> Cost(history[j..], meter) > left)
  {
    hide MessageTokens, Cost, OpensTurn, Trimmed;
    TrimmedIsLongestFit(history, budget - MessageTokens(SystemText(prompt), meter), meter);
  }

  /** Trimming keeps the longest suffix of whole turns that fits the budget, or
      just the last turn when not even that one fits. */
  lemma TrimmedIsLongestFit(history: seq<Message>, budget: int, meter: Meter)
    requires history != []
    ensures exists cut: nat ::
      && OpensTurn(history, cut) && Trimmed(history, budget, meter) == history[cut..]
      && (Cost(history[cut..], meter) <= budget || forall j :: cut < j < |history| ==> !OpensTurn(history, j))
      && (forall j :: 0 <= j < cut && OpensTurn(history, j) ==> Cost(history[j..], meter) > budget)
  {
    hide Cost, OpensTurn, IsStart;
    forall i: nat ensures IsStart(history, i) <==> OpensTurn(history, i) {
      StartsOpenTurns(history, i);
    }
    var cut := TrimPoint(history, budget, meter, 0);
    TrimPointFits(history, budget, meter, 0);
    forall j | 0 <= j < cut && IsStart(history, j) ensures Cost(history[j..], meter) > budget {
      SkippedDoNotFit(history, budget, meter, 0, j);
    }
    assert OpensTurn(history, cut) && Trimmed(history, budget, meter) == history[cut..];
  }

  /** A genuine user turn of a well-paired history holds no tool result. */
  lemma BoundaryHoldsNoResult(history: seq<Message>, i: nat)
    requires WellPaired(history) && i < |history| && IsTurnBoundary(history[i])
    ensures !HoldsResult(history[i])
  {
    var j :| 0 <= j < |history[i].blocks| && !history[i].blocks[j].ToolResult?;
    assert i > 0 ==> !Answers(history[i - 1], history[i]);
  }

  /** Trimming never splits a tool exchange, and neither does the system prompt. */
  lemma ContextKeepsPairs(prompt: string, history: seq<Message>, budget: int, meter: Meter)
    requires WellPaired(history)
    ensures WellPaired(BuildContext(prompt, history, budget, meter))
  {
    hide Cost, WellPaired, MessageTokens;
    var b := budget - MessageTokens(SystemText(prompt), meter);
    var kept := Trimmed(history, b, meter);
    if history != [] {
      var cut := TrimPoint(history, b, meter, 0);
      if cut > 0 {
        BoundaryHoldsNoResult(history, cut);
        CutKeepsPairs(history, cut);
      } else {
        assert history[0..] == history;
      }
    }
    PrependSystem(prompt, kept);
  }

  lemma PrependSystem(prompt: string, ms: seq<Message>)
    requires WellPaired(ms)
    ensures WellPaired([SystemText(prompt)] + ms)
  {
    hide Answers, HoldsResult, Calls;
    SystemIsPlain(prompt);
    var all := [SystemText(prompt)] + ms;
    assert forall i :: 0 <= i < |ms| ==> all[i + 1] == ms[i];
    forall i | 0 <= i < |all| && Calls(all[i]) ensures i + 1 < |all| && Answers(all[i], all[i + 1]) {
      assert all[i] == ms[i - 1];
      assert all[i + 1] == ms[i];
    }
    forall i | 0 <= i < |all| && HoldsResult(all[i]) ensures 0 < i && Calls(all[i - 1]) && Answers(all[i - 1], all[i]) {
      assert all[i] == ms[i - 1];
      assert all[i - 1] == ms[i - 2];
    }
  }

  lemma SystemIsPlain(prompt: string)
    ensures !Calls(SystemText(prompt)) && !HoldsResult(SystemText(prompt))
  {
  }

  /** When the last message is a user turn admitted under half the budget and the
      system prompt costs at most the other half, the whole context fits. */
  lemma AdmittedTurnFits(prompt: string, history: seq<Message>, turn: Message, budget: nat, meter: Meter)
    requires IsTurnBoundary(turn) && MessageTokens(turn, meter) <= budget / 2
    requires MessageTokens(SystemText(prompt), meter) <= budget - budget / 2
    ensures Cost(BuildContext(prompt, history + [turn], budget, meter), meter) <= budget
  {
    hide MessageTokens, Cost;
    var all := history + [turn];
    var b := budget - MessageTokens(SystemText(prompt), meter);
    assert all[|history|] == turn && IsStart(all, |history|);
    var cut := TrimPoint(all, b, meter, 0);
    TrimPointFits(all, b, meter, 0);
    SingleCost(all, turn, meter);
    CostCons(SystemText(prompt), all[cut..], meter);
  }

  lemma CostCons(m: Message, rest: seq<Message>, meter: Meter)
    ensures Cost([m] + rest, meter) == MessageTokens(m, meter) + Cost(rest, meter)
  {
    hide MessageTokens;
    assert ([m] + rest)[1..] == rest;
  }

  lemma SingleCost(all: seq<Message>, turn: Message, meter: Meter)
    requires all != [] && all[|all| - 1] == turn
    ensures Cost(all[|all| - 1..], meter) == MessageTokens(turn, meter)
  {
    hide MessageTokens;
    assert all[|all| - 1..] == [turn];
    assert [turn][1..] == [];
  }

  // ------------------------------------------------------------------ the algorithm

  /** The starts below `n`, in order. */
  function Starts(history: seq<Message>, n: nat): seq<nat>
    requires n <= |history|
  {
    if n == 0 then [] else if IsStart(history, n - 1) then Starts(history, n - 1) + [n - 1] else Starts(history, n - 1)
  }

  /** The collected starts are in range and in order, and the last of them is the
      last start. */
  lemma {:induction false} StartsOrdered(history: seq<Message>, n: nat)
    requires n <= |history|
    ensures forall k :: 0 <= k < |Starts(history, n)| ==>
        Starts(history, n)[k] < n && IsStart(history, Starts(history, n)[k])
    ensures forall k, l :: 0 <= k < l < |Starts(history, n)| ==> Starts(history, n)[k] < Starts(history, n)[l]
    ensures n > 0 ==> Starts(history, n) != [] && Starts(history, n)[|Starts(history, n)| - 1] == LastStart(history, n)
  {
    if n > 0 {
      hide IsStart;
      StartsOrdered(history, n - 1);
      if n == 1 {
        FirstIsStart(history);
      }
    }
  }

  lemma FirstIsStart(history: seq<Message>)
    requires history != []
    ensures IsStart(history, 0)
  {
  }

  /** Nothing between two neighbouring starts is a start. */
  lemma {:induction false} StartsAdjacent(history: seq<Message>, n: nat, k: nat)
    requires n <= |history| && k + 1 < |Starts(history, n)|
    ensures forall x :: Starts(history, n)[k] < x < Starts(history, n)[k + 1] ==> !IsStart(history, x)
  {
    if n > 0 {
      hide IsStart;
      StartsOrdered(history, n - 1);
      if k + 1 < |Starts(history, n - 1)| {
        StartsAdjacent(history, n - 1, k);
      }
    }
  }

  /** Where turn `k` begins, and where the last one ends. */
  function Bound(history: seq<Message>, starts: seq<nat>, k: nat): nat {
    if k < |starts| then starts[k] else |history|
  }

  ghost predicate Partition(history: seq<Message>, starts: seq<nat>) {
    && (forall k :: 0 <= k < |starts| ==> starts[k] < |history|)
    && (forall k, l :: 0 <= k < l < |starts| ==> starts[k] < starts[l])
  }

  function Segments(history: seq<Message>, starts: seq<nat>, k: nat): seq<seq<Message>>
    requires k <= |starts| && Partition(history, starts)
    decreases |starts| - k
  {
    if k == |starts| then []
    else [history[starts[k]..Bound(history, starts, k + 1)]] + Segments(history, starts, k + 1)
  }

  function Costs(segments: seq<seq<Message>>, meter: Meter): seq<nat> {
    if segments == [] then [] else [Cost(segments[0], meter)] + Costs(segments[1..], meter)
  }

  function Flatten(segments: seq<seq<Message>>): seq<Message> {
    if segments == [] then [] else segments[0] + Flatten(segments[1..])
  }

  lemma {:induction false} CostConcat(a: seq<Message>, b: seq<Message>, meter: Meter)
    ensures Cost(a + b, meter) == Cost(a, meter) + Cost(b, meter)
  {
    hide MessageTokens;
    if a == [] {
      assert a + b == b;
    } else {
      CostConcat(a[1..], b, meter);
      assert (a + b)[1..] == a[1..] + b;
    }
  }

  lemma {:induction false} SegmentsFlatten(history: seq<Message>, starts: seq<nat>, k: nat)
    requires k <= |starts| && Partition(history, starts)
    ensures Flatten(Segments(history, starts, k)) == history[Bound(history, starts, k)..]
    ensures |Segments(history, starts, k)| == |starts| - k
    decreases |starts| - k
  {
    if k < |starts| {
      SegmentsFlatten(history, starts, k + 1);
      var head := history[starts[k]..Bound(history, starts, k + 1)];
      assert Segments(history, starts, k)[1..] == Segments(history, starts, k + 1);
      assert head + history[Bound(history, starts, k + 1)..] == history[starts[k]..];
    }
  }

  lemma {:induction false} SkipNonStarts(history: seq<Message>, budget: int, meter: Meter, i: nat, j: nat)
    requires history != [] && i <= j <= LastStart(history, |history|)
    requires forall x :: i <= x < j ==> !IsStart(history, x)
    ensures TrimPoint(history, budget, meter, i) == TrimPoint(history, budget, meter, j)
    decreases j - i
  {
    if i < j {
      SkipNonStarts(history, budget, meter, i + 1, j);
    }
  }

  /** Collects the turn starts. */
  method FindStarts(history: seq<Message>) returns (starts: seq<nat>)
    requires history != []
    ensures starts == Starts(history, |history|) && starts != [] && starts[0] == 0 && Partition(history, starts)
  {
    starts := [];
    for i := 0 to |history|
      invariant i > 0 ==> (if IsTurnBoundary(history[0]) then starts else [0] + starts) == Starts(history, i)
      invariant i == 0 ==> starts == []
      invariant i > 0 && IsTurnBoundary(history[0]) ==> starts != [] && starts[0] == 0
      invariant !IsTurnBoundary(history[0]) && starts != [] ==> starts[0] > 0
    {
      if IsTurnBoundary(history[i]) {
        assert i > 0 ==> [0] + (starts + [i]) == ([0] + starts) + [i];
        starts := starts + [i];
      }
    }
    if starts == [] || starts[0] != 0 {
      starts := [0] + starts;
    }
    StartsOrdered(history, |history|);
  }

  /** Cuts the history at the turn starts and prices each turn. */
  method Price(history: seq<Message>, starts: seq<nat>, meter: Meter)
    returns (segments: seq<seq<Message>>, costs: seq<nat>, total: nat)
    requires Partition(history, starts)
    ensures segments == Segments(history, starts, 0) && costs == Costs(segments, meter)
    ensures total == Cost(history[Bound(history, starts, 0)..], meter)
  {
    hide MessageTokens;
    segments, costs, total := [], [], 0;
    for k := |starts| downto 0
      invariant segments == Segments(history, starts, k)
      invariant costs == Costs(segments, meter)
      invariant total == Cost(history[Bound(history, starts, k)..], meter)
    {
      var segment := history[starts[k]..Bound(history, starts, k + 1)];
      assert history[starts[k]..] == segment + history[Bound(history, starts, k + 1)..];
      CostConcat(segment, history[Bound(history, starts, k + 1)..], meter);
      segments := [segment] + segments;
      costs := [Cost(segment, meter)] + costs;
      total := total + Cost(segment, meter);
    }
  }

  /** Dropping a segment that does not fit moves on to the next start. */
  lemma DropOldest(history: seq<Message>, starts: seq<nat>, k: nat, budget: int, meter: Meter)
    requires history != [] && starts == Starts(history, |history|) && k + 1 < |starts| && Partition(history, starts)
    requires starts[k] <= LastStart(history, |history|)
    requires Cost(history[starts[k]..], meter) > budget
    ensures starts[k + 1] <= LastStart(history, |history|)
    ensures TrimPoint(history, budget, meter, starts[k]) == TrimPoint(history, budget, meter, starts[k + 1])
    ensures Cost(history[starts[k]..], meter)
         == Cost(history[starts[k]..starts[k + 1]], meter) + Cost(history[starts[k + 1]..], meter)
  {
    hide Starts, Cost;
    StartsOrdered(history, |history|);
    assert history[starts[k]..] == history[starts[k]..starts[k + 1]] + history[starts[k + 1]..];
    CostConcat(history[starts[k]..starts[k + 1]], history[starts[k + 1]..], meter);
    StartsAdjacent(history, |history|, k);
    SkipNonStarts(history, budget, meter, starts[k] + 1, starts[k + 1]);
  }

  /** `_trim_to_budget`: price the turns, then drop the oldest while they do not fit. */
  method TrimToBudget(history: seq<Message>, budget: int, meter: Meter) returns (kept: seq<Message>)
    ensures kept == Trimmed(history, budget, meter)
  {
    if history == [] {
      return [];
    }
    hide Starts, LastStart, Cost, MessageTokens;
    var starts := FindStarts(history);
    var segments, costs, total := Price(history, starts, meter);
    ghost var k := 0;
    SegmentsFlatten(history, starts, 0);
    StartsOrdered(history, |history|);
    while |segments| > 1 && total > budget
      invariant k < |starts| && |segments| == |starts| - k && starts[k] <= LastStart(history, |history|)
      invariant segments == Segments(history, starts, k) && costs == Costs(segments, meter)
      invariant total == Cost(history[starts[k]..], meter)
      invariant TrimPoint(history, budget, meter, starts[k]) == TrimPoint(history, budget, meter, 0)
      decreases |segments|
    {
      DropOldest(history, starts, k, budget, meter);
      SegmentsFlatten(history, starts, k + 1);
      segments := segments[1..];
      total := total - costs[0];
      costs := costs[1..];
      k := k + 1;
    }
    SegmentsFlatten(history, starts, k);
    assert IsStart(history, starts[k]);
    kept := Flatten(segments);
  }
}
