/** Citation numbering: one run's registry of search sources, seeded with the
    sources stored on earlier messages, and the sources it stores in turn. */
module Sources {
  import opened Prelude

  datatype Source = Source(
    id: int,
    title: string,
    url: string,
    snippet: string,
    publishedAt: Option<string>,
    provider: string)

  datatype Record = Record(source: Source, extracted: bool)

  datatype SearchResult = SearchResult(title: string, url: string, snippet: string, publishedAt: Option<string>,
      provider: string)

  datatype Extract = Extract(url: string, title: string, content: string)

  /** URL normalization and the whitespace squeeze of a call's snippet limit. */
  datatype Env = Env(norm: string -> string, squeeze: string -> string)

  /** A stored item a later run can read back. */
  predicate Resolvable(item: Source) {
    item.id > 0 && item.url != ""
  }

  predicate CarriesId(item: Source, id: int) {
    Resolvable(item) && item.id == id
  }

  predicate CarriesUrl(item: Source, key: string, norm: string -> string) {
    Resolvable(item) && norm(item.url) == key
  }

  /** Two readable items give this id to different pages. */
  predicate Ambiguous(items: seq<Source>, id: int, norm: string -> string) {
    exists i, j :: 0 <= i < |items| && 0 <= j < |items| && CarriesId(items[i], id) && CarriesId(items[j], id)
                   && norm(items[i].url) != norm(items[j].url)
  }

  function MaxId(items: seq<Source>): (m: int)
    ensures m >= 0 && forall i :: 0 <= i < |items| && Resolvable(items[i]) ==> items[i].id <= m
  {
    if items == [] then 0
    else
      var front, last := MaxId(items[..|items| - 1]), items[|items| - 1];
      if Resolvable(last) then Max(front, last.id) else front
  }

  function Recovered(item: Source): Source {
    if item.title == "" then item.(title := item.url) else item
  }

  /** The first readable item with the id, from index `k` on. */
  function FirstById(items: seq<Source>, id: int, k: nat): (r: Option<nat>)
    requires k <= |items|
    ensures r.Some? ==> k <= r.value < |items| && CarriesId(items[r.value], id)
    ensures forall i :: k <= i < |items| && (r.None? || i < r.value) ==> !CarriesId(items[i], id)
    decreases |items| - k
  {
    if k == |items| then None else if CarriesId(items[k], id) then Some(k) else FirstById(items, id, k + 1)
  }

  function PriorById(items: seq<Source>, id: int, norm: string -> string): Option<Source> {
    var first := FirstById(items, id, 0);
    if first.Some? && !Ambiguous(items, id, norm) then Some(Recovered(items[first.value])) else None
  }

  /** The earliest item for a page among those whose id is unambiguous. */
  function FirstByUrl(items: seq<Source>, key: string, norm: string -> string, k: nat): (r: Option<nat>)
    requires k <= |items|
    ensures r.Some? ==>
        k <= r.value < |items| && CarriesUrl(items[r.value], key, norm) && !Ambiguous(items, items[r.value].id, norm)
    ensures forall i :: k <= i < |items| && (r.None? || i < r.value) && CarriesUrl(items[i], key, norm) ==>
        Ambiguous(items, items[i].id, norm)
    decreases |items| - k
  {
    if k == |items| then None
    else if CarriesUrl(items[k], key, norm) && !Ambiguous(items, items[k].id, norm) then Some(k)
    else FirstByUrl(items, key, norm, k + 1)
  }

  function PriorIdOf(items: seq<Source>, key: string, norm: string -> string): Option<int> {
    var first := FirstByUrl(items, key, norm, 0);
    if first.Some? then Some(items[first.value].id) else None
  }

  // ------------------------------------------------------------------- registering

  datatype Registry = Registry(prior: seq<Source>, ordered: seq<Record>, nextId: int)

  function Opened(prior: seq<Source>): Registry {
    Registry(prior, [], MaxId(prior) + 1)
  }

  /** The record of a page, if this run registered it. */
  function FindUrl(ordered: seq<Record>, key: string, norm: string -> string): (r: Option<nat>)
    ensures r.Some? ==> r.value < |ordered| && norm(ordered[r.value].source.url) == key
    ensures r.None? ==> forall i :: 0 <= i < |ordered| ==> norm(ordered[i].source.url) != key
  {
    if ordered == [] then None
    else if norm(ordered[|ordered| - 1].source.url) == key then Some(|ordered| - 1)
    else FindUrl(ordered[..|ordered| - 1], key, norm)
  }

  /** The extract of a page; a later one replaces an earlier one. */
  function ExtractOf(extracts: seq<Extract>, key: string, norm: string -> string): Option<Extract> {
    if extracts == [] then None
    else if norm(extracts[|extracts| - 1].url) == key then Some(extracts[|extracts| - 1])
    else ExtractOf(extracts[..|extracts| - 1], key, norm)
  }

  function Either(title: string, otherwise: string): string {
    if title == "" then otherwise else title
  }

  function Upgraded(record: Record, extract: Option<Extract>, env: Env): Record {
    if extract.Some? && !IsBlank(extract.value.content) && !record.extracted then
      Record(record.source.(snippet := env.squeeze(extract.value.content),
          title := Either(extract.value.title, record.source.title)), true)
    else record
  }

  function NewRecord(id: int, found: SearchResult, extract: Option<Extract>, env: Env): Record {
    var snippet := if extract.Some? then extract.value.content else found.snippet;
    var title := if extract.Some? then Either(extract.value.title, found.title) else found.title;
    Record(Source(id, Either(title, found.url), found.url, env.squeeze(snippet), found.publishedAt, found.provider),
        extract.Some?)
  }

  function RegisterOne(reg: Registry, found: SearchResult, extracts: seq<Extract>, env: Env): Registry {
    var key := env.norm(found.url);
    var extract := ExtractOf(extracts, key, env.norm);
    var existing := FindUrl(reg.ordered, key, env.norm);
    if existing.Some? then
      reg.(ordered := reg.ordered[existing.value := Upgraded(reg.ordered[existing.value], extract, env)])
    else
      var prior := PriorIdOf(reg.prior, key, env.norm);
      if prior.Some? then reg.(ordered := reg.ordered + [NewRecord(prior.value, found, extract, env)])
      else reg.(ordered := reg.ordered + [NewRecord(reg.nextId, found, extract, env)], nextId := reg.nextId + 1)
  }

  function RegisterAll(reg: Registry, results: seq<SearchResult>, extracts: seq<Extract>, env: Env): Registry {
    if results == [] then reg
    else RegisterOne(RegisterAll(reg, results[..|results| - 1], extracts, env), results[|results| - 1], extracts, env)
  }

  function Metadata(ordered: seq<Record>): seq<Source> {
    seq(|ordered|, i requires 0 <= i < |ordered| => ordered[i].source)
  }

  predicate HasId(items: seq<Source>, id: int) {
    exists i :: 0 <= i < |items| && items[i].id == id
  }

  /** This run's sources, then each cited earlier source not yet listed. */
  function AssistantSources(reg: Registry, cited: seq<int>, norm: string -> string): seq<Source> {
    if cited == [] then Metadata(reg.ordered)
    else
      var sofar, id := AssistantSources(reg, cited[..|cited| - 1], norm), cited[|cited| - 1];
      var prior := PriorById(reg.prior, id, norm);
      if prior.Some? && !HasId(sofar, id) then sofar + [prior.value] else sofar
  }

  // ------------------------------------------------------------------- the invariant

  /** A page keeps its unambiguous earlier id; any other page gets one above them all. */
  ghost predicate RightId(reg: Registry, item: Source, norm: string -> string) {
    var prior := PriorIdOf(reg.prior, norm(item.url), norm);
    if prior.Some? then item.id == prior.value else MaxId(reg.prior) < item.id < reg.nextId
  }

  ghost predicate RegistryInv(reg: Registry, norm: string -> string) {
    && reg.nextId > MaxId(reg.prior)
    && (forall i :: 0 <= i < |reg.ordered| ==> RightId(reg, reg.ordered[i].source, norm))
    && (forall i, j :: 0 <= i < j < |reg.ordered| ==>
          && norm(reg.ordered[i].source.url) != norm(reg.ordered[j].source.url)
          && reg.ordered[i].source.id != reg.ordered[j].source.id)
  }

  /** Earlier ids of different pages differ, and are at most the highest. */
  lemma PriorIdsDiffer(items: seq<Source>, a: string, b: string, norm: string -> string)
    requires PriorIdOf(items, a, norm).Some?
    ensures 0 < PriorIdOf(items, a, norm).value <= MaxId(items)
        && !Ambiguous(items, PriorIdOf(items, a, norm).value, norm)
    ensures a != b && PriorIdOf(items, b, norm).Some? ==> PriorIdOf(items, a, norm) != PriorIdOf(items, b, norm)
  {
  }

  lemma RegisterKeepsInv(reg: Registry, found: SearchResult, extracts: seq<Extract>, env: Env)
    requires RegistryInv(reg, env.norm)
    ensures RegistryInv(RegisterOne(reg, found, extracts, env), env.norm)
  {
    hide PriorIdOf, MaxId, ExtractOf, IsBlank;
    var key := env.norm(found.url);
    var next := RegisterOne(reg, found, extracts, env);
    var existing, prior := FindUrl(reg.ordered, key, env.norm), PriorIdOf(reg.prior, key, env.norm);
    hide FindUrl;
    if existing.Some? {
      assert forall i :: 0 <= i < |reg.ordered| ==>
        next.ordered[i].source.url == reg.ordered[i].source.url
            && next.ordered[i].source.id == reg.ordered[i].source.id;
    } else {
      forall i | 0 <= i < |reg.ordered| ensures reg.ordered[i].source.id != next.ordered[|reg.ordered|].source.id {
        assert RightId(reg, reg.ordered[i].source, env.norm);
        var other := env.norm(reg.ordered[i].source.url);
        if prior.Some? {
          PriorIdsDiffer(reg.prior, key, other, env.norm);
        } else if PriorIdOf(reg.prior, other, env.norm).Some? {
          PriorIdsDiffer(reg.prior, other, key, env.norm);
        }
      }
    }
  }

  /** Registering never renumbers or moves a record, and a record that already holds
      extracted text never changes again. */
  lemma {:induction false} RecordsAreStable(reg: Registry, results: seq<SearchResult>, extracts: seq<Extract>,
                                            env: Env, i: nat)
    requires i < |reg.ordered|
    ensures var after := RegisterAll(reg, results, extracts, env).ordered;
            && i < |after| && after[i].source.id == reg.ordered[i].source.id
               && after[i].source.url == reg.ordered[i].source.url
            && (reg.ordered[i].extracted ==> after[i] == reg.ordered[i])
  {
    hide PriorIdOf, ExtractOf, FindUrl, IsBlank;
    if results != [] {
      RecordsAreStable(reg, results[..|results| - 1], extracts, env, i);
    }
  }

  lemma {:induction false} RegisterAllKeepsInv(reg: Registry, results: seq<SearchResult>, extracts: seq<Extract>,
                                               env: Env)
    requires RegistryInv(reg, env.norm)
    ensures RegistryInv(RegisterAll(reg, results, extracts, env), env.norm)
    ensures RegisterAll(reg, results, extracts, env).prior == reg.prior
  {
    if results != [] {
      RegisterAllKeepsInv(reg, results[..|results| - 1], extracts, env);
      RegisterKeepsInv(RegisterAll(reg, results[..|results| - 1], extracts, env), results[|results| - 1], extracts,
          env);
    }
  }

  // ------------------------------------------------------------------- what a run stores

  /** A stored item repeats an unambiguous earlier one or is numbered above them all. */
  ghost predicate Continues(prior: seq<Source>, item: Source, norm: string -> string) {
    || item.id > MaxId(prior)
    || (&& !Ambiguous(prior, item.id, norm)
        && exists i :: 0 <= i < |prior| && CarriesId(prior[i], item.id) && norm(prior[i].url) == norm(item.url))
  }

  ghost predicate FreshIds(prior: seq<Source>, stored: seq<Source>, norm: string -> string) {
    && (forall k :: 0 <= k < |stored| ==> Continues(prior, stored[k], norm))
    && (forall k, l :: 0 <= k < l < |stored| ==> stored[k].id != stored[l].id)
  }

  lemma RegisteredContinues(reg: Registry, i: nat, norm: string -> string)
    requires RegistryInv(reg, norm) && i < |reg.ordered|
    ensures Continues(reg.prior, reg.ordered[i].source, norm)
  {
    var item := reg.ordered[i].source;
    assert RightId(reg, item, norm);
    var first := FirstByUrl(reg.prior, norm(item.url), norm, 0);
    hide FirstByUrl, Ambiguous, MaxId;
    if first.Some? {
      assert CarriesId(reg.prior[first.value], item.id);
    }
  }

  /** What a run stores is numbered consistently with everything before it, with no
      id twice. */
  lemma {:induction false} StoredIdsAreFresh(reg: Registry, cited: seq<int>, norm: string -> string)
    requires RegistryInv(reg, norm)
    ensures FreshIds(reg.prior, AssistantSources(reg, cited, norm), norm)
  {
    hide Ambiguous, FirstById, RightId, Continues;
    if cited == [] {
      forall i | 0 <= i < |reg.ordered| ensures Continues(reg.prior, reg.ordered[i].source, norm) {
        RegisteredContinues(reg, i, norm);
      }
    } else {
      StoredIdsAreFresh(reg, cited[..|cited| - 1], norm);
      CitedContinues(reg.prior, cited[|cited| - 1], norm);
    }
  }

  lemma CitedContinues(prior: seq<Source>, id: int, norm: string -> string)
    ensures var p := PriorById(prior, id, norm); p.Some? ==> p.value.id == id && Continues(prior, p.value, norm)
  {
    hide Ambiguous, MaxId;
  }

  /** Storing a run's sources makes no id ambiguous and cures none. */
  lemma AmbiguityIsUnchanged(prior: seq<Source>, stored: seq<Source>, id: int, norm: string -> string)
    requires FreshIds(prior, stored, norm)
    ensures Ambiguous(prior + stored, id, norm) <==> Ambiguous(prior, id, norm)
  {
    var all := prior + stored;
    if Ambiguous(prior, id, norm) {
      var i, j :| 0 <= i < |prior| && 0 <= j < |prior| && CarriesId(prior[i], id) && CarriesId(prior[j], id)
          && norm(prior[i].url) != norm(prior[j].url);
      assert all[i] == prior[i] && all[j] == prior[j];
    }
    if Ambiguous(all, id, norm) {
      var i, j :| 0 <= i < |all| && 0 <= j < |all| && CarriesId(all[i], id) && CarriesId(all[j], id)
          && norm(all[i].url) != norm(all[j].url);
      var p, q := Earlier(prior, stored, i, id, norm), Earlier(prior, stored, j, id, norm);
      if p.Some? && q.Some? {
        assert Ambiguous(prior, id, norm);
      }
    }
  }

  /** The earlier item with the same id and page, unless the id is above them all. */
  ghost function Earlier(prior: seq<Source>, stored: seq<Source>, i: nat, id: int,
                         norm: string -> string): (r: Option<nat>)
    requires FreshIds(prior, stored, norm) && i < |prior + stored| && CarriesId((prior + stored)[i], id)
    ensures r.Some? ==>
        r.value < |prior| && CarriesId(prior[r.value], id) && norm(prior[r.value].url) == norm((prior + stored)[i].url)
    ensures r.None? ==> id > MaxId(prior) && i >= |prior|
  {
    if i < |prior| then Some(i)
    else if id > MaxId(prior) then None
    else
      assert Continues(prior, stored[i - |prior|], norm);
      var p :| 0 <= p < |prior| && CarriesId(prior[p], id) && norm(prior[p].url) == norm(stored[i - |prior|].url);
      Some(p)
  }

  // ------------------------------------------------------------------- on the fields

  lemma {:induction false} MaxIdIsReached(items: seq<Source>)
    ensures MaxId(items) == 0 || exists i :: 0 <= i < |items| && Resolvable(items[i]) && items[i].id == MaxId(items)
  {
    if items != [] {
      var n := |items| - 1;
      MaxIdIsReached(items[..n]);
      if MaxId(items) != 0 && !(Resolvable(items[n]) && items[n].id == MaxId(items)) {
        var i :| 0 <= i < n && Resolvable(items[..n][i]) && items[..n][i].id == MaxId(items[..n]);
        assert items[i] == items[..n][i];
      }
    }
  }

  /** Extract `i` is the last one given for the page. */
  ghost predicate IsLastFor(extracts: seq<Extract>, i: nat, key: string, norm: string -> string) {
    i < |extracts| && norm(extracts[i].url) == key && forall j :: i < j < |extracts| ==> norm(extracts[j].url) != key
  }

  /** A page's extract is the last one given for it. */
  lemma {:induction false} ExtractIsTheLast(extracts: seq<Extract>, key: string, norm: string -> string)
    ensures ExtractOf(extracts, key, norm).None? ==> forall i :: 0 <= i < |extracts| ==> norm(extracts[i].url) != key
    ensures ExtractOf(extracts, key, norm).Some? ==>
              exists i :: 0 <= i < |extracts| && IsLastFor(extracts, i, key, norm)
                          && extracts[i] == ExtractOf(extracts, key, norm).value
  {
    if extracts != [] {
      var n := |extracts| - 1;
      if norm(extracts[n].url) == key {
        assert IsLastFor(extracts, n, key, norm);
      } else {
        var front := extracts[..n];
        ExtractIsTheLast(front, key, norm);
        assert forall i :: 0 <= i < n ==> front[i] == extracts[i];
        if ExtractOf(front, key, norm).Some? {
          var i :| 0 <= i < |front| && IsLastFor(front, i, key, norm) && front[i] == ExtractOf(front, key, norm).value;
          assert IsLastFor(extracts, i, key, norm);
        }
      }
    }
  }

  /** Registering a page this run has not seen appends one record: the page's unambiguous
      earlier id or the next new one, the result's own address, date and provider, the
      extract's text and title where there is one, and the address for want of a title. */
  lemma NewPagesAreRecorded(reg: Registry, found: SearchResult, extracts: seq<Extract>, env: Env)
    requires forall i :: 0 <= i < |reg.ordered| ==> env.norm(reg.ordered[i].source.url) != env.norm(found.url)
    ensures var after, n := RegisterOne(reg, found, extracts, env), |reg.ordered|;
            var key := env.norm(found.url);
            var extract, prior := ExtractOf(extracts, key, env.norm), PriorIdOf(reg.prior, key, env.norm);
            && |after.ordered| == n + 1 && after.ordered[..n] == reg.ordered && after.prior == reg.prior
            && var r := after.ordered[n];
               && r.source.id == (if prior.Some? then prior.value else reg.nextId)
               && after.nextId == (if prior.Some? then reg.nextId else reg.nextId + 1)
               && r.source.url == found.url && r.source.publishedAt == found.publishedAt
               && r.source.provider == found.provider
               && r.source.snippet == env.squeeze(if extract.Some? then extract.value.content else found.snippet)
               && r.source.title == (if extract.Some? && extract.value.title != "" then extract.value.title
                                     else if found.title != "" then found.title else found.url)
               && (r.extracted <==> extract.Some?)
  {
    hide ExtractOf, PriorIdOf;
  }

  /** Registering a page again changes at most its text and title, and only from a search
      snippet to nonblank extracted text. */
  lemma SeenPagesAreUpgraded(reg: Registry, found: SearchResult, extracts: seq<Extract>, env: Env, i: nat)
    requires FindUrl(reg.ordered, env.norm(found.url), env.norm) == Some(i)
    ensures i < |reg.ordered| && env.norm(reg.ordered[i].source.url) == env.norm(found.url)
    ensures var after := RegisterOne(reg, found, extracts, env);
            var extract, was := ExtractOf(extracts, env.norm(found.url), env.norm), reg.ordered[i];
            && |after.ordered| == |reg.ordered| && after.prior == reg.prior && after.nextId == reg.nextId
            && (forall j :: 0 <= j < |reg.ordered| && j != i ==> after.ordered[j] == reg.ordered[j])
            && after.ordered[i] ==
                 if extract.Some? && !was.extracted && HasInk(extract.value.content) then
                   Record(was.source.(snippet := env.squeeze(extract.value.content),
                                      title := if extract.value.title == "" then was.source.title
                                               else extract.value.title),
                          true)
                 else was
  {
    var extract := ExtractOf(extracts, env.norm(found.url), env.norm);
    if extract.Some? {
      BlankMeans(extract.value.content);
    }
    hide ExtractOf, IsBlank, HasInk;
  }

  /** Something other than whitespace. */
  ghost predicate HasInk(text: string) {
    exists k :: 0 <= k < |text| && !IsBlankChar(text[k])
  }

  lemma BlankMeans(text: string)
    ensures IsBlank(text) <==> !HasInk(text)
  {
    hide IsBlankChar;
  }

  predicate IsRegistered(reg: Registry, id: int) {
    exists i :: 0 <= i < |reg.ordered| && reg.ordered[i].source.id == id
  }

  /** An earlier source that a citation of its id resolves to. */
  ghost predicate Resolves(prior: seq<Source>, id: int, item: Source, norm: string -> string) {
    && !Ambiguous(prior, id, norm)
    && exists i :: 0 <= i < |prior| && CarriesId(prior[i], id) && (forall j :: 0 <= j < i ==> !CarriesId(prior[j], id))
                   && item == prior[i].(title := if prior[i].title == "" then prior[i].url else prior[i].title)
  }

  /** Where an id is first cited. */
  function FirstCited(cited: seq<int>, id: int): nat {
    if cited == [] || cited[0] == id then 0 else 1 + FirstCited(cited[1..], id)
  }

  lemma {:induction false} FirstCitedSnoc(cited: seq<int>, last: int, id: int)
    ensures id in cited ==> FirstCited(cited + [last], id) == FirstCited(cited, id) < |cited|
    ensures id !in cited ==> FirstCited(cited + [last], id) >= |cited|
  {
    if cited != [] {
      assert (cited + [last])[1..] == cited[1..] + [last];
      FirstCitedSnoc(cited[1..], last, id);
    }
  }

  lemma ResolvesExactly(prior: seq<Source>, id: int, item: Source, norm: string -> string)
    ensures PriorById(prior, id, norm) == Some(item) <==> Resolves(prior, id, item, norm)
  {
    var first := FirstById(prior, id, 0);
    hide FirstById, Ambiguous;
    if Resolves(prior, id, item, norm) {
      var i :| 0 <= i < |prior| && CarriesId(prior[i], id) && (forall j :: 0 <= j < i ==> !CarriesId(prior[j], id))
               && item == prior[i].(title := if prior[i].title == "" then prior[i].url else prior[i].title);
      assert first == Some(i);
    }
  }

  /** The stored list so far: this run's sources in order, then cited earlier sources. */
  ghost predicate Listed(reg: Registry, cited: seq<int>, listed: seq<Source>, norm: string -> string) {
    var n := |reg.ordered|;
    && n <= |listed| && (forall i :: 0 <= i < n ==> listed[i] == reg.ordered[i].source)
    && (forall k :: n <= k < |listed| ==>
          && listed[k].id in cited && !IsRegistered(reg, listed[k].id)
          && Resolves(reg.prior, listed[k].id, listed[k], norm))
    && (forall k, l :: n <= k < l < |listed| ==> FirstCited(cited, listed[k].id) < FirstCited(cited, listed[l].id))
    && (forall id, item :: id in cited && Resolves(reg.prior, id, item, norm) ==> HasId(listed, id))
  }

  lemma ListedSkips(reg: Registry, cited: seq<int>, listed: seq<Source>, id: int, norm: string -> string)
    requires Listed(reg, cited, listed, norm)
    requires HasId(listed, id) || forall item :: !Resolves(reg.prior, id, item, norm)
    ensures Listed(reg, cited + [id], listed, norm)
  {
    hide Resolves, FirstCited, IsRegistered;
    forall k | |reg.ordered| <= k < |listed|
      ensures FirstCited(cited + [id], listed[k].id) == FirstCited(cited, listed[k].id)
    {
      FirstCitedSnoc(cited, id, listed[k].id);
    }
  }

  lemma ListedTakes(reg: Registry, cited: seq<int>, listed: seq<Source>, item: Source, norm: string -> string)
    requires Listed(reg, cited, listed, norm)
    requires Resolves(reg.prior, item.id, item, norm) && !HasId(listed, item.id)
    ensures Listed(reg, cited + [item.id], listed + [item], norm)
  {
    hide Resolves, FirstCited;
    assert forall i :: 0 <= i < |reg.ordered| ==> listed[i].id == reg.ordered[i].source.id;
    assert !IsRegistered(reg, item.id);
    assert item.id !in cited;
    hide IsRegistered;
    forall k | |reg.ordered| <= k < |listed|
      ensures FirstCited(cited + [item.id], listed[k].id) == FirstCited(cited, listed[k].id) < |cited|
    {
      FirstCitedSnoc(cited, item.id, listed[k].id);
    }
    FirstCitedSnoc(cited, item.id, item.id);
    forall id | HasId(listed, id) ensures HasId(listed + [item], id) {
      var i :| 0 <= i < |listed| && listed[i].id == id;
      assert (listed + [item])[i].id == id;
    }
    assert (listed + [item])[|listed|].id == item.id;
  }

  /** A run stores its own sources in registration order, and then exactly the earlier
      sources its text cites and can resolve and that are not among its own, each once, in
      order of first citation. */
  lemma {:induction false} StoredSourcesAreListed(reg: Registry, cited: seq<int>, norm: string -> string)
    ensures Listed(reg, cited, AssistantSources(reg, cited, norm), norm)
  {
    hide Resolves, Listed, PriorById;
    if cited == [] {
      OwnAreListed(reg, norm);
    } else {
      var front, id := cited[..|cited| - 1], cited[|cited| - 1];
      assert cited == front + [id];
      StoredSourcesAreListed(reg, front, norm);
      var sofar, prior := AssistantSources(reg, front, norm), PriorById(reg.prior, id, norm);
      forall item ensures prior == Some(item) <==> Resolves(reg.prior, id, item, norm) {
        ResolvesExactly(reg.prior, id, item, norm);
      }
      if prior.Some? && !HasId(sofar, id) {
        CitedContinues(reg.prior, id, norm);
        ListedTakes(reg, front, sofar, prior.value, norm);
      } else {
        ListedSkips(reg, front, sofar, id, norm);
      }
    }
  }

  lemma OwnAreListed(reg: Registry, norm: string -> string)
    ensures Listed(reg, [], Metadata(reg.ordered), norm)
  {
  }
}
