/** The mutable source registry: dictionaries filled from the earlier sources and
    by each search call, tied to the numbering they implement. */
module SourceRegistries {
  import opened Prelude
  import opened Sources

  // ------------------------------------------------------------------- reading the earlier sources

  /** The first reading of the earlier sources after `k` items: the first item of
      each id in insertion order, the ambiguous ids and the highest id. */
  ghost predicate Scanned(items: seq<Source>, k: nat, byId: map<int, Source>, order: seq<nat>, ambiguous: set<int>,
                          maxId: int,
                          norm: string -> string)
  {
    && k <= |items| && maxId == MaxId(items[..k]) && InOrder(items, k, order)
    && forall id :: IdScanned(items[..k], id, byId, ambiguous, norm)
  }

  ghost predicate IdScanned(items: seq<Source>, id: int, byId: map<int, Source>, ambiguous: set<int>,
                            norm: string -> string) {
    var first := FirstById(items, id, 0);
    && (id in byId <==> first.Some?)
    && (id in byId ==> byId[id] == Recovered(items[first.value]))
    && (id in ambiguous <==> Ambiguous(items, id, norm))
  }

  /** `order` lists, in increasing order, the indices that first carry their id. */
  ghost predicate InOrder(items: seq<Source>, k: nat, order: seq<nat>) {
    && (forall l :: 0 <= l < |order| ==> order[l] < k <= |items| && IsFirst(items, order[l]))
    && (forall l, m :: 0 <= l < m < |order| ==> order[l] < order[m])
    && (forall i :: 0 <= i < k <= |items| && IsFirst(items, i) ==> i in order)
  }

  /** The item is readable and no earlier item carries its id. */
  ghost predicate IsFirst(items: seq<Source>, i: nat) {
    i < |items| && Resolvable(items[i]) && forall j :: 0 <= j < i ==> !CarriesId(items[j], items[i].id)
  }

  lemma FirstByIdSnoc(items: seq<Source>, item: Source, id: int)
    ensures FirstById(items + [item], id, 0) ==
            if FirstById(items, id, 0).Some? then FirstById(items, id, 0)
            else if CarriesId(item, id) then Some(|items|) else None
  {
    var a, b := FirstById(items, id, 0), FirstById(items + [item], id, 0);
    assert forall i :: 0 <= i < |items| ==> (items + [item])[i] == items[i];
    assert (items + [item])[|items|] == item;
    hide FirstById;
    if a.Some? {
      assert CarriesId((items + [item])[a.value], id);
    } else if CarriesId(item, id) {
      assert CarriesId((items + [item])[|items|], id);
    }
  }

  lemma AmbiguousGrows(items: seq<Source>, item: Source, i: nat, j: nat, id: int, norm: string -> string)
    requires i < |items| && CarriesId(items[i], id)
    requires if j < |items| then CarriesId(items[j], id) && norm(items[i].url) != norm(items[j].url)
             else j == |items| && CarriesId(item, id) && norm(items[i].url) != norm(item.url)
    ensures Ambiguous(items + [item], id, norm)
  {
    var all := items + [item];
    assert CarriesId(all[i], id) && CarriesId(all[j], id) && norm(all[i].url) != norm(all[j].url);
  }

  /** An item makes its id ambiguous exactly when it disagrees with the first one. */
  lemma AmbiguousSnoc(items: seq<Source>, item: Source, id: int, norm: string -> string)
    ensures var first := FirstById(items, id, 0);
            Ambiguous(items + [item], id, norm) <==>
            Ambiguous(items, id, norm)
                || (CarriesId(item, id) && first.Some? && norm(items[first.value].url) != norm(item.url))
  {
    var all, first := items + [item], FirstById(items, id, 0);
    hide FirstById;
    if Ambiguous(items, id, norm) {
      var i, j :| 0 <= i < |items| && 0 <= j < |items| && CarriesId(items[i], id) && CarriesId(items[j], id)
          && norm(items[i].url) != norm(items[j].url);
      AmbiguousGrows(items, item, i, j, id, norm);
    } else if CarriesId(item, id) && first.Some? && norm(items[first.value].url) != norm(item.url) {
      AmbiguousGrows(items, item, first.value, |items|, id, norm);
    } else {
      forall i, j | 0 <= i < |all| && 0 <= j < |all| && CarriesId(all[i], id) && CarriesId(all[j], id)
        ensures norm(all[i].url) == norm(all[j].url)
      {
        assert i < |items| ==> norm(items[i].url) == norm(items[first.value].url);
        assert j < |items| ==> norm(items[j].url) == norm(items[first.value].url);
      }
    }
  }

  lemma ScanSkips(items: seq<Source>, k: nat, byId: map<int, Source>, order: seq<nat>, ambiguous: set<int>,
                  maxId: int, norm: string -> string)
    requires k < |items| && Scanned(items, k, byId, order, ambiguous, maxId, norm) && !Resolvable(items[k])
    ensures Scanned(items, k + 1, byId, order, ambiguous, maxId, norm)
  {
    var front, item := items[..k], items[k];
    assert items[..k + 1] == front + [item];
    MaxIdSnoc(front, item);
    OrderGrows(items, k, order);
    hide InOrder, MaxId, Ambiguous, FirstById;
    forall id ensures IdScanned(front + [item], id, byId, ambiguous, norm) {
      assert IdScanned(front, id, byId, ambiguous, norm);
      FirstByIdSnoc(front, item, id);
      AmbiguousSnoc(front, item, id, norm);
    }
  }

  lemma MaxIdSnoc(items: seq<Source>, item: Source)
    ensures MaxId(items + [item]) == if Resolvable(item) then Max(MaxId(items), item.id) else MaxId(items)
  {
    assert (items + [item])[..|items|] == items;
  }

  lemma OrderGrows(items: seq<Source>, k: nat, order: seq<nat>)
    requires k < |items| && InOrder(items, k, order)
    ensures IsFirst(items, k) ==> InOrder(items, k + 1, order + [k])
    ensures !IsFirst(items, k) ==> InOrder(items, k + 1, order)
  {
    hide IsFirst;
    if IsFirst(items, k) {
      forall i | 0 <= i < k + 1 && IsFirst(items, i) ensures i in order + [k] {
        assert i < k ==> i in order;
      }
    }
  }

  function Noted(byId: map<int, Source>, item: Source): map<int, Source> {
    if item.id in byId then byId else byId[item.id := Recovered(item)]
  }

  function Doubted(byId: map<int, Source>, ambiguous: set<int>, item: Source, norm: string -> string): set<int>
    requires item.id in byId
  {
    if norm(byId[item.id].url) != norm(item.url) then ambiguous + {item.id} else ambiguous
  }

  lemma IdTakes(items: seq<Source>, item: Source, id: int, byId: map<int, Source>, ambiguous: set<int>,
                norm: string -> string)
    requires Resolvable(item) && IdScanned(items, id, byId, ambiguous, norm)
    ensures IdScanned(items + [item], id, Noted(byId, item), Doubted(Noted(byId, item), ambiguous, item, norm), norm)
  {
    FirstByIdSnoc(items, item, id);
    AmbiguousSnoc(items, item, id, norm);
    hide FirstById, Ambiguous;
  }

  lemma ScanTakes(items: seq<Source>, k: nat, byId: map<int, Source>, order: seq<nat>, ambiguous: set<int>,
                  maxId: int, norm: string -> string)
    requires k < |items| && Scanned(items, k, byId, order, ambiguous, maxId, norm) && Resolvable(items[k])
    ensures var noted := Noted(byId, items[k]);
            Scanned(items, k + 1, noted, if items[k].id in byId then order else order + [k],
                    Doubted(noted, ambiguous, items[k], norm), Max(maxId, items[k].id), norm)
  {
    var front, item := items[..k], items[k];
    assert items[..k + 1] == front + [item];
    MaxIdSnoc(front, item);
    OrderGrows(items, k, order);
    FirstMeansNew(items, k, byId, ambiguous, norm);
    hide InOrder, MaxId, IdScanned, IsFirst, Doubted;
    forall id
      ensures IdScanned(front + [item], id, Noted(byId, item), Doubted(Noted(byId, item), ambiguous, item, norm), norm)
    {
      IdTakes(front, item, id, byId, ambiguous, norm);
    }
  }

  lemma FirstMeansNew(items: seq<Source>, k: nat, byId: map<int, Source>, ambiguous: set<int>, norm: string -> string)
    requires k < |items| && Resolvable(items[k]) && IdScanned(items[..k], items[k].id, byId, ambiguous, norm)
    ensures IsFirst(items, k) <==> items[k].id !in byId
  {
    var first := FirstById(items[..k], items[k].id, 0);
    hide FirstById, Ambiguous;
    assert forall j :: 0 <= j < k ==> items[..k][j] == items[j];
  }

  /** The first loop over the earlier sources. */
  method ScanPrior(items: seq<Source>, norm: string -> string)
    returns (byId: map<int, Source>, order: seq<nat>, ambiguous: set<int>, maxId: int)
    ensures Scanned(items, |items|, byId, order, ambiguous, maxId, norm)
  {
    byId, order, ambiguous, maxId := map[], [], {}, 0;
    for k := 0 to |items|
      invariant Scanned(items, k, byId, order, ambiguous, maxId, norm)
    {
      hide Scanned;
      var item := items[k];
      if Resolvable(item) {
        ScanTakes(items, k, byId, order, ambiguous, maxId, norm);
        maxId := Max(maxId, item.id);
        if item.id !in byId {
          byId := byId[item.id := Recovered(item)];
          order := order + [k];
        }
        if norm(byId[item.id].url) != norm(item.url) {
          ambiguous := ambiguous + {item.id};
        }
      } else {
        ScanSkips(items, k, byId, order, ambiguous, maxId, norm);
      }
    }
  }

  // ------------------------------------------------------------------- indexing them by page

  predicate Offers(items: seq<Source>, i: nat, key: string, norm: string -> string) {
    i < |items| && CarriesUrl(items[i], key, norm) && !Ambiguous(items, items[i].id, norm)
  }

  /** Entry `l` is the first of the order to offer the page. */
  ghost predicate OffersFirst(items: seq<Source>, order: seq<nat>, l: nat, key: string, norm: string -> string) {
    l < |order| && Offers(items, order[l], key, norm) && forall n :: 0 <= n < l ==> !Offers(items, order[n], key, norm)
  }

  /** After `m` entries of the order each page has its earliest unambiguous item. */
  ghost predicate Indexed(items: seq<Source>, order: seq<nat>, m: nat, byUrl: map<string, Source>,
                          norm: string -> string) {
    && m <= |order|
    && (forall key :: key in byUrl ==>
          exists l :: 0 <= l < m && OffersFirst(items, order, l, key, norm) && byUrl[key] == Recovered(items[order[l]]))
    && (forall l, key :: 0 <= l < m && Offers(items, order[l], key, norm) ==> key in byUrl)
  }

  lemma IndexSteps(items: seq<Source>, order: seq<nat>, m: nat, byUrl: map<string, Source>, norm: string -> string)
    requires m < |order| && order[m] < |items| && Resolvable(items[order[m]]) && Indexed(items, order, m, byUrl, norm)
    ensures var item := items[order[m]];
            var key := norm(item.url);
            var taken := if Ambiguous(items, item.id, norm) || key in byUrl then byUrl
                else byUrl[key := Recovered(item)];
            Indexed(items, order, m + 1, taken, norm)
  {
    hide Ambiguous;
    var item := items[order[m]];
    var key := norm(item.url);
    if !Ambiguous(items, item.id, norm) && key !in byUrl {
      assert OffersFirst(items, order, m, key, norm);
    }
  }

  /** The page index agrees with the earliest unambiguous item of the whole list. */
  lemma IndexIsFirstByUrl(items: seq<Source>, order: seq<nat>, byUrl: map<string, Source>, key: string,
                          norm: string -> string)
    requires InOrder(items, |items|, order) && Indexed(items, order, |order|, byUrl, norm)
    ensures key in byUrl <==> PriorIdOf(items, key, norm).Some?
    ensures key in byUrl ==> byUrl[key].id == PriorIdOf(items, key, norm).value
  {
    hide FirstByUrl, Ambiguous, CarriesUrl, IsFirst, InOrder;
    var first := FirstByUrl(items, key, norm, 0);
    if first.Some? {
      FirstIsListed(items, order, key, norm);
    }
    if key in byUrl {
      var l :| 0 <= l < |order| && OffersFirst(items, order, l, key, norm) && byUrl[key] == Recovered(items[order[l]]);
      FirstsAgree(items, order, l, first.value, key, norm);
    }
  }

  lemma FirstIsListed(items: seq<Source>, order: seq<nat>, key: string, norm: string -> string)
    requires InOrder(items, |items|, order) && FirstByUrl(items, key, norm, 0).Some?
    ensures Offers(items, FirstByUrl(items, key, norm, 0).value, key, norm)
        && FirstByUrl(items, key, norm, 0).value in order
  {
    hide Ambiguous;
    OfferIsFirst(items, FirstByUrl(items, key, norm, 0).value, key, norm);
  }

  lemma FirstsAgree(items: seq<Source>, order: seq<nat>, l: nat, i: nat, key: string, norm: string -> string)
    requires InOrder(items, |items|, order) && OffersFirst(items, order, l, key, norm)
    requires Offers(items, i, key, norm) && i in order && i <= order[l]
    ensures order[l] == i
  {
    hide Offers, IsFirst;
    var f :| 0 <= f < |order| && order[f] == i;
    assert f <= l;
  }

  /** The second loop: the unambiguous ids by page, the earliest first. */
  method IndexPages(items: seq<Source>, order: seq<nat>, ambiguous: set<int>,
                    norm: string -> string) returns (pages: map<string, Source>)
    requires InOrder(items, |items|, order)
    requires forall id :: id in ambiguous <==> Ambiguous(items, id, norm)
    ensures forall key :: key in pages <==> PriorIdOf(items, key, norm).Some?
    ensures forall key :: key in pages ==> pages[key].id == PriorIdOf(items, key, norm).value
  {
    hide Ambiguous, PriorIdOf;
    pages := map[];
    for m := 0 to |order|
      invariant Indexed(items, order, m, pages, norm)
    {
      IndexSteps(items, order, m, pages, norm);
      hide Indexed;
      var item := items[order[m]];
      if item.id !in ambiguous && norm(item.url) !in pages {
        pages := pages[norm(item.url) := Recovered(item)];
      }
    }
    hide Indexed, InOrder;
    forall key
      ensures key in pages <==> PriorIdOf(items, key, norm).Some?
      ensures key in pages ==> pages[key].id == PriorIdOf(items, key, norm).value
    {
      IndexIsFirstByUrl(items, order, pages, key, norm);
    }
  }

  /** The earliest item offering a page also first carries its id. */
  lemma OfferIsFirst(items: seq<Source>, i: nat, key: string, norm: string -> string)
    requires FirstByUrl(items, key, norm, 0) == Some(i)
    ensures IsFirst(items, i)
  {
  }

  /** Both passes over the earlier sources. */
  method ReadPrior(items: seq<Source>, norm: string -> string)
    returns (priorById: map<int, Source>, priorByUrl: map<string, Source>, maxId: int)
    ensures maxId == MaxId(items)
    ensures forall id :: id in priorById <==> PriorById(items, id, norm).Some?
    ensures forall id :: id in priorById ==> priorById[id] == PriorById(items, id, norm).value
    ensures forall key :: key in priorByUrl <==> PriorIdOf(items, key, norm).Some?
    ensures forall key :: key in priorByUrl ==> priorByUrl[key].id == PriorIdOf(items, key, norm).value
  {
    hide FirstByUrl, MaxId, InOrder, Ambiguous, FirstById, PriorIdOf;
    var byId, order, ambiguous;
    byId, order, ambiguous, maxId := ScanPrior(items, norm);
    assert items[..|items|] == items;
    forall id
      ensures id in ambiguous <==> Ambiguous(items, id, norm)
      ensures id in byId && id !in ambiguous <==> PriorById(items, id, norm).Some?
      ensures id in byId && id !in ambiguous ==> byId[id] == PriorById(items, id, norm).value
    {
      assert IdScanned(items, id, byId, ambiguous, norm);
    }
    hide PriorById, IdScanned;
    priorByUrl := IndexPages(items, order, ambiguous, norm);
    priorById := map id | id in byId && id !in ambiguous :: byId[id];
  }

  // ------------------------------------------------------------------- the registry

  /** The page dictionary of this run finds each record by its page. */
  ghost predicate IndexOk(byUrl: map<string, nat>, ordered: seq<Record>, norm: string -> string) {
    forall key :: (if key in byUrl then Some(byUrl[key]) else None) == FindUrl(ordered, key, norm)
  }

  lemma IndexLookup(byUrl: map<string, nat>, ordered: seq<Record>, key: string, norm: string -> string)
    requires IndexOk(byUrl, ordered, norm)
    ensures (if key in byUrl then Some(byUrl[key]) else None) == FindUrl(ordered, key, norm)
    ensures key in byUrl ==> byUrl[key] < |ordered| && norm(ordered[byUrl[key]].source.url) == key
  {
  }

  lemma IndexSnoc(byUrl: map<string, nat>, ordered: seq<Record>, record: Record, norm: string -> string)
    requires IndexOk(byUrl, ordered, norm)
    ensures IndexOk(byUrl[norm(record.source.url) := |ordered|], ordered + [record], norm)
  {
    FoundSnoc(ordered, record, norm);
    hide FindUrl;
  }

  lemma IndexSame(byUrl: map<string, nat>, ordered: seq<Record>, i: nat, record: Record, norm: string -> string)
    requires IndexOk(byUrl, ordered, norm) && i < |ordered| && record.source.url == ordered[i].source.url
    ensures IndexOk(byUrl, ordered[i := record], norm)
  {
    SameUrlsFound(ordered, i, record, norm);
    hide FindUrl;
  }

  class SourceRegistry {
    const norm: string -> string
    ghost const prior: seq<Source>
    var priorById: map<int, Source>
    var priorByUrl: map<string, Source>
    var byUrl: map<string, nat>
    var ordered: seq<Record>
    var nextId: int

    ghost function Contents(): Registry
      reads this
    {
      Registry(prior, ordered, nextId)
    }

    ghost predicate Valid()
      reads this
    {
      && (forall id :: id in priorById <==> PriorById(prior, id, norm).Some?)
      && (forall id :: id in priorById ==> priorById[id] == PriorById(prior, id, norm).value)
      && (forall key :: key in priorByUrl <==> PriorIdOf(prior, key, norm).Some?)
      && (forall key :: key in priorByUrl ==> priorByUrl[key].id == PriorIdOf(prior, key, norm).value)
      && IndexOk(byUrl, ordered, norm)
    }

    constructor (items: seq<Source>, normalize: string -> string)
      ensures Valid() && Contents() == Opened(items) && norm == normalize && prior == items
    {
      hide PriorById, PriorIdOf, MaxId;
      var known, pages, maxId := ReadPrior(items, normalize);
      norm, prior := normalize, items;
      priorById, priorByUrl, byUrl, ordered, nextId := known, pages, map[], [], maxId + 1;
    }

    /** Registers one search call's results. A page already numbered in this run keeps
        its record, upgraded at most once with extracted text. */
    method Register(results: seq<SearchResult>, extracts: seq<Extract>,
                    squeeze: string -> string) returns (records: seq<nat>)
      requires Valid()
      modifies this`byUrl, this`ordered, this`nextId
      ensures Valid() && Contents() == RegisterAll(old(Contents()), results, extracts, Env(norm, squeeze))
      ensures |records| == |results|
      ensures forall k :: 0 <= k < |records| ==>
          records[k] < |ordered| && norm(ordered[records[k]].source.url) == norm(results[k].url)
    {
      hide RegisterAll, RegisterOne, PriorById, PriorIdOf, IndexOk;
      var env := Env(norm, squeeze);
      NothingRegistered(Contents(), extracts, env);
      records := [];
      for k := 0 to |results|
        invariant Valid() && Contents() == RegisterAll(old(Contents()), results[..k], extracts, env)
        invariant |records| == k
        invariant forall l :: 0 <= l < k ==>
            records[l] < |ordered| && norm(ordered[records[l]].source.url) == norm(results[l].url)
      {
        RegisterSnoc(old(Contents()), results[..k], results[k], extracts, env);
        assert results[..k + 1] == results[..k] + [results[k]];
        var record := RegisterResult(results[k], extracts, env);
        records := records + [record];
      }
      assert results[..|results|] == results;
    }

    method RegisterResult(found: SearchResult, extracts: seq<Extract>, env: Env) returns (record: nat)
      requires Valid() && env.norm == norm
      modifies this`byUrl, this`ordered, this`nextId
      ensures Valid() && Contents() == RegisterOne(old(Contents()), found, extracts, env)
      ensures record < |ordered| && norm(ordered[record].source.url) == norm(found.url)
      ensures |ordered| >= old(|ordered|)
      ensures forall i :: 0 <= i < old(|ordered|) ==> ordered[i].source.url == old(ordered[i].source.url)
    {
      hide PriorById, PriorIdOf, ExtractOf, FindUrl, IsBlank, IndexOk;
      var key := norm(found.url);
      IndexLookup(byUrl, ordered, key, norm);
      var extract := ExtractOf(extracts, key, norm);
      if key in byUrl {
        record := byUrl[key];
        IndexSame(byUrl, ordered, record, Upgraded(ordered[record], extract, env), norm);
        ordered := ordered[record := Upgraded(ordered[record], extract, env)];
        return;
      }
      var id := nextId;
      if key in priorByUrl {
        id := priorByUrl[key].id;
      } else {
        nextId := nextId + 1;
      }
      record := |ordered|;
      IndexSnoc(byUrl, ordered, NewRecord(id, found, extract, env), norm);
      byUrl := byUrl[key := record];
      ordered := ordered + [NewRecord(id, found, extract, env)];
    }

    /** This run's sources and the cited earlier ones. */
    method ListSources(cited: seq<int>) returns (collected: seq<Source>)
      requires Valid()
      ensures collected == AssistantSources(Contents(), cited, norm)
    {
      hide PriorById, PriorIdOf, FindUrl, AssistantSources;
      collected := Metadata(ordered);
      var seen := set i | 0 <= i < |ordered| :: ordered[i].source.id;
      NothingCited(Contents(), norm);
      assert forall i :: 0 <= i < |ordered| ==> collected[i].id == ordered[i].source.id;
      for k := 0 to |cited|
        invariant collected == AssistantSources(Contents(), cited[..k], norm)
        invariant forall id :: id in seen <==> HasId(collected, id)
      {
        CitedSnoc(Contents(), cited[..k], cited[k], norm);
        assert cited[..k + 1] == cited[..k] + [cited[k]];
        if cited[k] in priorById && cited[k] !in seen {
          HasIdSnoc(collected, priorById[cited[k]]);
          CitedIdIsItsOwn(prior, cited[k], norm);
          collected := collected + [priorById[cited[k]]];
          seen := seen + {cited[k]};
        }
      }
      assert cited[..|cited|] == cited;
    }
  }

  // ------------------------------------------------------------------- unfolding

  lemma NothingRegistered(reg: Registry, extracts: seq<Extract>, env: Env)
    ensures RegisterAll(reg, [], extracts, env) == reg
  {
  }

  lemma RegisterSnoc(reg: Registry, results: seq<SearchResult>, found: SearchResult, extracts: seq<Extract>, env: Env)
    ensures RegisterAll(reg, results + [found], extracts, env)
        == RegisterOne(RegisterAll(reg, results, extracts, env), found, extracts, env)
  {
    assert (results + [found])[..|results|] == results;
  }

  lemma FoundSnoc(ordered: seq<Record>, record: Record, norm: string -> string)
    ensures forall key :: FindUrl(ordered + [record], key, norm) ==
                          if norm(record.source.url) == key then Some(|ordered|) else FindUrl(ordered, key, norm)
  {
    assert (ordered + [record])[..|ordered|] == ordered;
  }

  /** Replacing a record by one for the same URL does not move any page. */
  lemma {:induction false} SameUrlsFound(ordered: seq<Record>, i: nat, record: Record, norm: string -> string)
    requires i < |ordered| && record.source.url == ordered[i].source.url
    ensures forall key :: FindUrl(ordered[i := record], key, norm) == FindUrl(ordered, key, norm)
    decreases |ordered|
  {
    var n := |ordered| - 1;
    if i < n {
      SameUrlsFound(ordered[..n], i, record, norm);
      assert ordered[i := record][..n] == ordered[..n][i := record];
    } else {
      assert ordered[i := record][..n] == ordered[..n];
    }
  }

  lemma NothingCited(reg: Registry, norm: string -> string)
    ensures AssistantSources(reg, [], norm) == Metadata(reg.ordered)
  {
  }

  lemma CitedSnoc(reg: Registry, cited: seq<int>, id: int, norm: string -> string)
    ensures var sofar, prior := AssistantSources(reg, cited, norm), PriorById(reg.prior, id, norm);
            AssistantSources(reg, cited + [id], norm) == if prior.Some? && !HasId(sofar, id) then sofar + [prior.value]
                else sofar
  {
    assert (cited + [id])[..|cited|] == cited;
  }

  lemma HasIdSnoc(items: seq<Source>, item: Source)
    ensures forall id :: HasId(items + [item], id) <==> HasId(items, id) || item.id == id
  {
    forall id ensures HasId(items + [item], id) <==> HasId(items, id) || item.id == id {
      if HasId(items, id) {
        var i :| 0 <= i < |items| && items[i].id == id;
        assert (items + [item])[i].id == id;
      } else if item.id == id {
        assert (items + [item])[|items|].id == id;
      }
    }
  }

  lemma CitedIdIsItsOwn(items: seq<Source>, id: int, norm: string -> string)
    ensures PriorById(items, id, norm).Some? ==> PriorById(items, id, norm).value.id == id
  {
    hide Ambiguous;
  }
}
