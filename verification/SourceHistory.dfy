/** Citation numbering over a whole conversation: each run's stored sources seed
    the next run, and edits and regenerations drop a tail of messages. */
module SourceHistory {
  import opened Prelude
  import opened Sources

  /** The results one search call registers. */
  datatype Batch = Batch(results: seq<SearchResult>, extracts: seq<Extract>, squeeze: string -> string)

  function RegisterBatches(reg: Registry, batches: seq<Batch>, norm: string -> string): Registry {
    if batches == [] then reg
    else
      var last := batches[|batches| - 1];
      RegisterAll(RegisterBatches(reg, batches[..|batches| - 1], norm), last.results, last.extracts,
          Env(norm, last.squeeze))
  }

  /** The sources one run stores, given those stored before it. */
  function RunSources(prior: seq<Source>, batches: seq<Batch>, cited: seq<int>, norm: string -> string): seq<Source> {
    AssistantSources(RegisterBatches(Opened(prior), batches, norm), cited, norm)
  }

  lemma {:induction false} BatchesKeepInv(prior: seq<Source>, batches: seq<Batch>, norm: string -> string)
    ensures var reg := RegisterBatches(Opened(prior), batches, norm); RegistryInv(reg, norm) && reg.prior == prior
  {
    hide RegistryInv, RegisterAll;
    if batches == [] {
      OpenedInv(prior, norm);
    } else {
      var last := batches[|batches| - 1];
      BatchesKeepInv(prior, batches[..|batches| - 1], norm);
      RegisterAllKeepsInv(RegisterBatches(Opened(prior), batches[..|batches| - 1], norm), last.results, last.extracts,
          Env(norm, last.squeeze));
    }
  }

  lemma OpenedInv(prior: seq<Source>, norm: string -> string)
    ensures RegistryInv(Opened(prior), norm)
  {
  }

  // ------------------------------------------------------------------- one run

  /** Within a run two pages share a number exactly when they are the same page, the
      number is never ambiguous among the earlier sources, and a page with an
      unambiguous earlier number keeps it while any other gets a higher one. */
  lemma RunNumbersPages(prior: seq<Source>, batches: seq<Batch>, norm: string -> string, i: nat, j: nat)
    requires var reg := RegisterBatches(Opened(prior), batches, norm); i < |reg.ordered| && j < |reg.ordered|
    ensures var reg := RegisterBatches(Opened(prior), batches, norm);
            var a, b := reg.ordered[i].source, reg.ordered[j].source;
            && (a.id == b.id <==> norm(a.url) == norm(b.url))
            && !Ambiguous(prior, a.id, norm)
            && (if PriorIdOf(prior, norm(a.url), norm).Some? then a.id == PriorIdOf(prior, norm(a.url), norm).value
                else a.id > MaxId(prior))
  {
    BatchesKeepInv(prior, batches, norm);
    var reg := RegisterBatches(Opened(prior), batches, norm);
    hide RegisterBatches, PriorIdOf;
    assert RightId(reg, reg.ordered[i].source, norm);
    if PriorIdOf(prior, norm(reg.ordered[i].source.url), norm).Some? {
      PriorIdsDiffer(prior, norm(reg.ordered[i].source.url), "", norm);
    }
    assert i < j ==> reg.ordered[i].source.id != reg.ordered[j].source.id;
    assert j < i ==> reg.ordered[i].source.id != reg.ordered[j].source.id;
  }

  /** Storing what a run produces leaves the set of ambiguous numbers as it was,
      whatever the earlier sources, legacy ones included. */
  lemma RunAddsNoAmbiguity(prior: seq<Source>, batches: seq<Batch>, cited: seq<int>, id: int, norm: string -> string)
    ensures Ambiguous(prior + RunSources(prior, batches, cited, norm), id, norm) <==> Ambiguous(prior, id, norm)
  {
    BatchesKeepInv(prior, batches, norm);
    hide RegisterBatches, Ambiguous;
    StoredIdsAreFresh(RegisterBatches(Opened(prior), batches, norm), cited, norm);
    AmbiguityIsUnchanged(prior, RunSources(prior, batches, cited, norm), id, norm);
  }

  // ------------------------------------------------------------------- one to one

  /** Numbers and pages correspond one to one. */
  ghost predicate OneToOne(items: seq<Source>, norm: string -> string) {
    forall i, j :: 0 <= i < |items| && 0 <= j < |items| && Resolvable(items[i]) && Resolvable(items[j]) ==>
      (items[i].id == items[j].id <==> norm(items[i].url) == norm(items[j].url))
  }

  predicate Repeats(item: Source, other: Source, norm: string -> string) {
    Resolvable(other) && other.id == item.id && norm(other.url) == norm(item.url)
  }

  /** The page is not among the earlier readable items and its number is above theirs. */
  ghost predicate Novel(prior: seq<Source>, item: Source, norm: string -> string) {
    item.id > MaxId(prior) && forall i :: 0 <= i < |prior| ==> !CarriesUrl(prior[i], norm(item.url), norm)
  }

  ghost predicate Extends(prior: seq<Source>, stored: seq<Source>, norm: string -> string) {
    && (forall k :: 0 <= k < |stored| ==>
          Novel(prior, stored[k], norm) || exists i :: 0 <= i < |prior| && Repeats(stored[k], prior[i], norm))
    && (forall k, l :: 0 <= k < l < |stored| ==> stored[k].id != stored[l].id)
    && (forall k, l :: 0 <= k < l < |stored| && Novel(prior, stored[k], norm) && Novel(prior, stored[l], norm) ==>
          norm(stored[k].url) != norm(stored[l].url))
  }

  lemma NothingAmbiguous(items: seq<Source>, id: int, norm: string -> string)
    requires OneToOne(items, norm)
    ensures !Ambiguous(items, id, norm)
  {
  }

  lemma RegisteredIsNovelOrRepeats(reg: Registry, i: nat, norm: string -> string)
    requires RegistryInv(reg, norm) && OneToOne(reg.prior, norm) && i < |reg.ordered|
    ensures Novel(reg.prior, reg.ordered[i].source, norm)
            || exists p :: 0 <= p < |reg.prior| && Repeats(reg.ordered[i].source, reg.prior[p], norm)
  {
    var item := reg.ordered[i].source;
    assert RightId(reg, item, norm);
    var first := FirstByUrl(reg.prior, norm(item.url), norm, 0);
    hide FirstByUrl, Ambiguous, MaxId;
    if first.Some? {
      assert Repeats(item, reg.prior[first.value], norm);
    } else {
      forall p | 0 <= p < |reg.prior| ensures !CarriesUrl(reg.prior[p], norm(item.url), norm) {
        NothingAmbiguous(reg.prior, reg.prior[p].id, norm);
      }
    }
  }

  lemma {:induction false} StoredExtends(reg: Registry, cited: seq<int>, norm: string -> string)
    requires RegistryInv(reg, norm) && OneToOne(reg.prior, norm)
    ensures Extends(reg.prior, AssistantSources(reg, cited, norm), norm)
  {
    if cited == [] {
      RegistryExtends(reg, norm);
    } else {
      hide RegistryInv, OneToOne, Novel;
      var id := cited[|cited| - 1];
      StoredExtends(reg, cited[..|cited| - 1], norm);
      CitedRepeats(reg.prior, id, norm);
      hide PriorById;
      var sofar, p := AssistantSources(reg, cited[..|cited| - 1], norm), PriorById(reg.prior, id, norm);
      if p.Some? && !HasId(sofar, id) {
        ExtendsSnoc(reg.prior, sofar, p.value, norm);
      }
    }
  }

  lemma RegistryExtends(reg: Registry, norm: string -> string)
    requires RegistryInv(reg, norm) && OneToOne(reg.prior, norm)
    ensures Extends(reg.prior, Metadata(reg.ordered), norm)
  {
    hide OneToOne, Novel, Repeats;
    var stored := Metadata(reg.ordered);
    forall k | 0 <= k < |stored|
      ensures || Novel(reg.prior, stored[k], norm)
              || exists i :: 0 <= i < |reg.prior| && Repeats(stored[k], reg.prior[i], norm)
    {
      RegisteredIsNovelOrRepeats(reg, k, norm);
    }
  }

  /** A repeated item with a number not yet listed extends the list; it is not novel. */
  lemma ExtendsSnoc(prior: seq<Source>, stored: seq<Source>, item: Source, norm: string -> string)
    requires Extends(prior, stored, norm) && !HasId(stored, item.id)
    requires exists i :: 0 <= i < |prior| && Repeats(item, prior[i], norm)
    ensures Extends(prior, stored + [item], norm)
  {
    hide MaxId;
    var i :| 0 <= i < |prior| && Repeats(item, prior[i], norm);
    assert CarriesUrl(prior[i], norm(item.url), norm);
    assert !Novel(prior, item, norm);
    hide Novel, Repeats;
    assert forall k :: 0 <= k < |stored| ==> stored[k].id != item.id;
  }

  lemma CitedRepeats(prior: seq<Source>, id: int, norm: string -> string)
    ensures var p := PriorById(prior, id, norm);
            p.Some? ==> p.value.id == id && exists i :: 0 <= i < |prior| && Repeats(p.value, prior[i], norm)
  {
    hide Ambiguous;
    var first := FirstById(prior, id, 0);
    if PriorById(prior, id, norm).Some? {
      assert Repeats(PriorById(prior, id, norm).value, prior[first.value], norm);
    }
  }

  /** For any two items of the longer list there are two of the shorter one with the
      same numbers and pages, unless one is novel. */
  lemma ExtensionIsOneToOne(prior: seq<Source>, stored: seq<Source>, norm: string -> string)
    requires OneToOne(prior, norm) && Extends(prior, stored, norm)
    ensures OneToOne(prior + stored, norm)
  {
    hide OneToOne, Extends;
    var all := prior + stored;
    forall i, j | 0 <= i < |all| && 0 <= j < |all| && Resolvable(all[i]) && Resolvable(all[j])
      ensures all[i].id == all[j].id <==> norm(all[i].url) == norm(all[j].url)
    {
      if i < |prior| && j < |prior| {
        PairInPrior(prior, i, j, norm);
      } else if i < |prior| {
        PairAcross(prior, stored, i, j - |prior|, norm);
      } else if j < |prior| {
        PairAcross(prior, stored, j, i - |prior|, norm);
      } else if i < j {
        PairInStored(prior, stored, i - |prior|, j - |prior|, norm);
      } else if j < i {
        PairInStored(prior, stored, j - |prior|, i - |prior|, norm);
      }
    }
    OneToOneIntro(all, norm);
  }

  lemma OneToOneIntro(items: seq<Source>, norm: string -> string)
    requires forall i, j :: 0 <= i < |items| && 0 <= j < |items| && Resolvable(items[i]) && Resolvable(items[j]) ==>
               (items[i].id == items[j].id <==> norm(items[i].url) == norm(items[j].url))
    ensures OneToOne(items, norm)
  {
  }

  lemma PairInPrior(prior: seq<Source>, i: nat, j: nat, norm: string -> string)
    requires OneToOne(prior, norm) && i < |prior| && j < |prior| && Resolvable(prior[i]) && Resolvable(prior[j])
    ensures prior[i].id == prior[j].id <==> norm(prior[i].url) == norm(prior[j].url)
  {
  }

  lemma PairAcross(prior: seq<Source>, stored: seq<Source>, i: nat, k: nat, norm: string -> string)
    requires OneToOne(prior, norm) && Extends(prior, stored, norm) && i < |prior| && k < |stored|
        && Resolvable(prior[i])
    ensures prior[i].id == stored[k].id <==> norm(prior[i].url) == norm(stored[k].url)
  {
    if !Novel(prior, stored[k], norm) {
      var p :| 0 <= p < |prior| && Repeats(stored[k], prior[p], norm);
      PairInPrior(prior, i, p, norm);
    } else {
      assert CarriesUrl(prior[i], norm(prior[i].url), norm);
    }
  }

  lemma PairInStored(prior: seq<Source>, stored: seq<Source>, k: nat, l: nat, norm: string -> string)
    requires OneToOne(prior, norm) && Extends(prior, stored, norm) && k < l < |stored|
    ensures stored[k].id != stored[l].id && norm(stored[k].url) != norm(stored[l].url)
  {
    assert stored[k].id != stored[l].id;
    if !Novel(prior, stored[k], norm) {
      var p :| 0 <= p < |prior| && Repeats(stored[k], prior[p], norm);
      PairAcross(prior, stored, p, l, norm);
    } else if !Novel(prior, stored[l], norm) {
      var p :| 0 <= p < |prior| && Repeats(stored[l], prior[p], norm);
      PairAcross(prior, stored, p, k, norm);
    }
  }

  // ------------------------------------------------------------------- whole conversations

  /** A run answers and stores its sources, or an edit or regeneration keeps only the
      first `keep` stored messages. */
  datatype Op = Answer(batches: seq<Batch>, cited: seq<int>) | Cut(keep: nat)

  /** The sources of the visible messages, in order. */
  function Flat(messages: seq<seq<Source>>): seq<Source> {
    if messages == [] then [] else Flat(messages[..|messages| - 1]) + messages[|messages| - 1]
  }

  function Applied(messages: seq<seq<Source>>, op: Op, norm: string -> string): seq<seq<Source>> {
    match op
    case Answer(batches, cited) => messages + [RunSources(Flat(messages), batches, cited, norm)]
    case Cut(keep) => if keep < |messages| then messages[..keep] else messages
  }

  function AppliedAll(messages: seq<seq<Source>>, ops: seq<Op>, norm: string -> string): seq<seq<Source>> {
    if ops == [] then messages else Applied(AppliedAll(messages, ops[..|ops| - 1], norm), ops[|ops| - 1], norm)
  }

  lemma FlatSnoc(messages: seq<seq<Source>>, last: seq<Source>)
    ensures Flat(messages + [last]) == Flat(messages) + last
  {
    assert (messages + [last])[..|messages|] == messages;
  }

  lemma {:induction false} FlatPrefix(messages: seq<seq<Source>>, keep: nat)
    requires keep <= |messages|
    ensures Flat(messages[..keep]) <= Flat(messages)
    decreases |messages|
  {
    if keep == |messages| {
      assert messages[..keep] == messages;
    } else {
      assert messages[..|messages| - 1][..keep] == messages[..keep];
      FlatPrefix(messages[..|messages| - 1], keep);
    }
  }

  lemma PrefixLosesAmbiguity(part: seq<Source>, whole: seq<Source>, id: int, norm: string -> string)
    requires part <= whole && Ambiguous(part, id, norm)
    ensures Ambiguous(whole, id, norm)
  {
    var i, j :| 0 <= i < |part| && 0 <= j < |part| && CarriesId(part[i], id) && CarriesId(part[j], id)
        && norm(part[i].url) != norm(part[j].url);
    assert whole[i] == part[i] && whole[j] == part[j];
  }

  /** However a conversation started, no number ever becomes ambiguous later. */
  lemma {:induction false} NoNumberBecomesAmbiguous(messages: seq<seq<Source>>, ops: seq<Op>, id: int,
                                                    norm: string -> string)
    requires Ambiguous(Flat(AppliedAll(messages, ops, norm)), id, norm)
    ensures Ambiguous(Flat(messages), id, norm)
  {
    hide Ambiguous, RunSources;
    if ops != [] {
      var earlier := AppliedAll(messages, ops[..|ops| - 1], norm);
      match ops[|ops| - 1] {
        case Answer(batches, cited) =>
          FlatSnoc(earlier, RunSources(Flat(earlier), batches, cited, norm));
          RunAddsNoAmbiguity(Flat(earlier), batches, cited, id, norm);
        case Cut(keep) =>
          if keep < |earlier| {
            FlatPrefix(earlier, keep);
            PrefixLosesAmbiguity(Flat(earlier[..keep]), Flat(earlier), id, norm);
          }
      }
      NoNumberBecomesAmbiguous(messages, ops[..|ops| - 1], id, norm);
    }
  }

  lemma RunKeepsOneToOne(prior: seq<Source>, batches: seq<Batch>, cited: seq<int>, norm: string -> string)
    requires OneToOne(prior, norm)
    ensures OneToOne(prior + RunSources(prior, batches, cited, norm), norm)
  {
    BatchesKeepInv(prior, batches, norm);
    hide RegisterBatches, OneToOne, Extends;
    StoredExtends(RegisterBatches(Opened(prior), batches, norm), cited, norm);
    ExtensionIsOneToOne(prior, RunSources(prior, batches, cited, norm), norm);
  }

  /** In a conversation that starts empty, across any number of runs, edits and
      regenerations, a number means one page and a page has one number. */
  lemma {:induction false} NumbersAndPagesStayOneToOne(ops: seq<Op>, norm: string -> string)
    ensures OneToOne(Flat(AppliedAll([], ops, norm)), norm)
  {
    hide RunSources, OneToOne;
    if ops == [] {
      OneToOneIntro([], norm);
    } else {
      var earlier := AppliedAll([], ops[..|ops| - 1], norm);
      NumbersAndPagesStayOneToOne(ops[..|ops| - 1], norm);
      match ops[|ops| - 1] {
        case Answer(batches, cited) =>
          FlatSnoc(earlier, RunSources(Flat(earlier), batches, cited, norm));
          RunKeepsOneToOne(Flat(earlier), batches, cited, norm);
        case Cut(keep) =>
          if keep < |earlier| {
            FlatPrefix(earlier, keep);
            PrefixIsOneToOne(Flat(earlier[..keep]), Flat(earlier), norm);
          }
      }
    }
  }

  lemma PrefixIsOneToOne(part: seq<Source>, whole: seq<Source>, norm: string -> string)
    requires part <= whole && OneToOne(whole, norm)
    ensures OneToOne(part, norm)
  {
    assert forall i :: 0 <= i < |part| ==> part[i] == whole[i];
  }
}
