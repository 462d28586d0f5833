/** Keyset paging of history search: pages in (updated_at, id) descending order,
    each cursor naming the last row shown. */
module Paging {
  import opened Prelude
  import opened LikePattern
  import opened SearchText

  /** A conversation; `texts` are its normalized searchable texts: the title's and
      those of its visible messages and their quotes. `hit` are the columns of its newest
      matching message. */
  datatype Row = Row(updatedAt: int, id: int, publicId: string, title: string, texts: seq<string>, hit: Option<Hit>)

  datatype Hit = Hit(
    message: string,
    field: string,
    hash: string,
    matchStart: int,
    matchLength: int,
    snippet: string,
    snippetStart: int,
    truncatedBefore: bool,
    truncatedAfter: bool)

  datatype Target = Target(message: string, field: string, hash: string, start: int, end: int)

  datatype Snippet = Snippet(text: string, start: int, end: int, truncatedBefore: bool, truncatedAfter: bool)

  /** A cursor is bound to its query and page size. */
  datatype Cursor = Cursor(query: string, limit: int, time: int, publicId: string)

  datatype Item = Item(row: Row, titleMatch: Option<(int, int)>, target: Option<Target>, snippet: Option<Snippet>)

  datatype Page = Page(items: seq<Item>, next: Option<Cursor>)

  datatype SearchError = QueryInvalid | CursorInvalid

  predicate Less(a: Row, b: Row) {
    a.updatedAt < b.updatedAt || (a.updatedAt == b.updatedAt && a.id < b.id)
  }

  /** Ids and public ids are keys of the table. */
  ghost predicate Keyed(table: set<Row>) {
    forall a, b :: a in table && b in table && (a.id == b.id || a.publicId == b.publicId) ==> a == b
  }

  predicate Matches(row: Row, query: string) {
    exists k :: 0 <= k < |row.texts| && Like(SearchPattern(query), row.texts[k])
  }

  // ------------------------------------------------------------------- ordering

  ghost predicate Tops(rows: set<Row>, top: Row) {
    top in rows && forall r :: r in rows && r != top ==> Less(r, top)
  }

  lemma {:induction false} SomeRowTops(rows: set<Row>)
    requires Keyed(rows) && rows != {}
    ensures exists top :: Tops(rows, top)
    decreases |rows|
  {
    var r :| r in rows;
    if rows == {r} {
      assert Tops(rows, r);
    } else {
      var rest := rows - {r};
      assert rest != {};
      SomeRowTops(rest);
      var top :| Tops(rest, top);
      assert r.id != top.id;
      if Less(r, top) {
        assert Tops(rows, top);
      } else {
        assert Less(top, r);
        forall x | x in rows && x != r ensures Less(x, r) {
          assert x in rest && (x == top || Less(x, top));
        }
        assert Tops(rows, r);
      }
    }
  }

  ghost function Top(rows: set<Row>): (top: Row)
    requires Keyed(rows) && rows != {}
    ensures Tops(rows, top)
  {
    SomeRowTops(rows);
    var top :| Tops(rows, top);
    top
  }

  /** The rows in descending order. */
  ghost function Sorted(rows: set<Row>): (s: seq<Row>)
    requires Keyed(rows)
    ensures |s| == |rows| && forall r :: r in s <==> r in rows
    decreases |rows|
  {
    if rows == {} then []
    else
      var top := Top(rows);
      [top] + Sorted(rows - {top})
  }

  lemma SortedStep(rows: set<Row>) returns (top: Row, rest: set<Row>)
    requires Keyed(rows) && rows != {}
    ensures rest == rows - {top} && Keyed(rest) && |rest| == |rows| - 1 && Tops(rows, top)
    ensures Sorted(rows) == [top] + Sorted(rest)
  {
    top := Top(rows);
    rest := rows - {top};
  }

  /** Strictly descending, so no row comes twice. */
  lemma {:induction false} SortedDescends(rows: set<Row>, i: nat, j: nat)
    requires Keyed(rows) && i < j < |Sorted(rows)|
    ensures Less(Sorted(rows)[j], Sorted(rows)[i])
    decreases |rows|
  {
    hide Sorted, Keyed;
    var top, rest := SortedStep(rows);
    if i == 0 {
      assert Sorted(rest)[j - 1] in Sorted(rest);
    } else {
      SortedDescends(rest, i - 1, j - 1);
    }
  }

  ghost predicate IsBelow(r: Row, time: int, id: int) {
    r.updatedAt < time || (r.updatedAt == time && r.id < id)
  }

  ghost function Below(rows: set<Row>, time: int, id: int): set<Row> {
    set r | r in rows && IsBelow(r, time, id)
  }

  /** Dropping the first `k` rows is what remains below the last of them. */
  lemma {:induction false} SortedBelow(rows: set<Row>, k: nat)
    requires Keyed(rows) && 0 < k <= |rows|
    ensures var last := Sorted(rows)[k - 1];
            Keyed(Below(rows, last.updatedAt, last.id))
                && Sorted(Below(rows, last.updatedAt, last.id)) == Sorted(rows)[k..]
    decreases k
  {
    hide Sorted, Keyed;
    var top, rest := SortedStep(rows);
    if k == 1 {
      assert Below(rows, top.updatedAt, top.id) == rest;
    } else {
      var last := Sorted(rows)[k - 1];
      assert last == Sorted(rest)[k - 2];
      assert last in rest;
      SortedBelow(rest, k - 1);
      assert Below(rows, last.updatedAt, last.id) == Below(rest, last.updatedAt, last.id);
    }
  }

  // ------------------------------------------------------------------- one page

  /** The rows of the query: those below the boundary, newest first, up to `take`. */
  ghost function Taken(rows: set<Row>, take: nat): seq<Row>
    requires Keyed(rows)
  {
    if take < |rows| then Sorted(rows)[..take] else Sorted(rows)
  }

  ghost function Matching(table: set<Row>, query: string): set<Row> {
    set r | r in table && Matches(r, query)
  }

  predicate Accepts(cursor: Cursor, query: string, limit: int) {
    cursor.query == query && cursor.limit == limit
  }

  ghost predicate Names(table: set<Row>, publicId: string) {
    exists r :: r in table && r.publicId == publicId
  }

  ghost function Named(table: set<Row>, publicId: string): (r: Row)
    requires Names(table, publicId)
    ensures r in table && r.publicId == publicId
  {
    var r :| r in table && r.publicId == publicId;
    r
  }

  /** The matches a request may still show, or none when its cursor is refused. */
  ghost function Remaining(table: set<Row>, query: string, limit: int, cursor: Option<Cursor>): (r: Option<set<Row>>)
    ensures r.Some? ==> r.value <= Matching(table, query) <= table
    ensures r.Some? && Keyed(table) ==> Keyed(r.value)
  {
    if cursor.None? then Some(Matching(table, query))
    else if !Accepts(cursor.value, query, limit) || !Names(table, cursor.value.publicId) then None
    else Some(Below(Matching(table, query), cursor.value.time, Named(table, cursor.value.publicId).id))
  }

  function TargetOf(hit: Hit): Target {
    Target(hit.message, hit.field, hit.hash, hit.matchStart, hit.matchStart + hit.matchLength)
  }

  function SnippetOf(hit: Hit, query: string): Snippet {
    Snippet(hit.snippet, hit.snippetStart, hit.snippetStart + Utf16Length(query),
            hit.truncatedBefore, hit.truncatedAfter)
  }

  function ItemOf(row: Row, query: string): Item {
    Item(row, MatchRange(row.title, query),
         if row.hit.Some? then Some(TargetOf(row.hit.value)) else None,
         if row.hit.Some? then Some(SnippetOf(row.hit.value, query)) else None)
  }

  /** The page made of the fetched rows: one more than the limit means there is more. */
  function PageOf(rows: seq<Row>, query: string, limit: nat): Page {
    var shown := if |rows| > limit then rows[..limit] else rows;
    Page(seq(|shown|, k requires 0 <= k < |shown| => ItemOf(shown[k], query)),
         if |rows| > limit > 0 then Some(Cursor(query, limit, rows[limit - 1].updatedAt, rows[limit - 1].publicId))
             else None)
  }

  ghost function Search(table: set<Row>, query: string, limit: int, cursor: Option<Cursor>): Result<Page, SearchError>
    requires Keyed(table)
  {
    if !(1 <= limit <= 50) then Err(QueryInvalid)
    else if query == "" then
      if cursor.Some? then Err(CursorInvalid)
      else
        var recent := Taken(table, 10);
        Ok(Page(seq(|recent|, k requires 0 <= k < |recent| => Item(recent[k], None, None, None)), None))
    else
      var rows := Remaining(table, query, limit, cursor);
      if rows.None? then Err(CursorInvalid) else Ok(PageOf(Taken(rows.value, limit + 1), query, limit))
  }

  /** The item loop. */
  method BuildPage(rows: seq<Row>, query: string, limit: nat) returns (page: Page)
    requires limit > 0
    ensures page == PageOf(rows, query, limit)
  {
    hide MatchRange, Utf16Length;
    var items: seq<Item> := [];
    var shown := if |rows| > limit then rows[..limit] else rows;
    for k := 0 to |shown|
      invariant |items| == k && forall i :: 0 <= i < k ==> items[i] == ItemOf(shown[i], query)
    {
      var range := TitleMatchRange(shown[k].title, query);
      var item := Item(shown[k], range, None, None);
      if shown[k].hit.Some? {
        var hit := shown[k].hit.value;
        item := item.(target := Some(Target(hit.message, hit.field, hit.hash, hit.matchStart,
                                            hit.matchStart + hit.matchLength)),
                      snippet := Some(Snippet(hit.snippet, hit.snippetStart, hit.snippetStart + Utf16Length(query),
                                              hit.truncatedBefore, hit.truncatedAfter)));
      }
      items := items + [item];
    }
    var next := None;
    if |rows| > limit {
      var last := items[|items| - 1].row;
      next := Some(Cursor(query, limit, last.updatedAt, last.publicId));
    }
    page := Page(items, next);
  }

  // ------------------------------------------------------------------- following cursors

  /** The next cursor leaves exactly the rows after the page, in the same order. */
  lemma NextCursorResumes(table: set<Row>, query: string, limit: int, cursor: Option<Cursor>)
    requires Keyed(table) && 1 <= limit <= 50 && query != "" && Remaining(table, query, limit, cursor).Some?
    ensures Search(table, query, limit, cursor).Ok?
    ensures var rows, page := Remaining(table, query, limit, cursor).value, Search(table, query, limit, cursor).value;
            && (page.next.Some? <==> |rows| > limit)
            && (page.next.Some? ==>
                  && Remaining(table, query, limit, page.next).Some?
                  && Sorted(Remaining(table, query, limit, page.next).value) == Sorted(rows)[limit..])
  {
    hide MatchRange, Sorted, Below, Keyed;
    var rows, page := Remaining(table, query, limit, cursor).value, Search(table, query, limit, cursor).value;
    if |rows| > limit {
      var last := Sorted(rows)[limit - 1];
      assert last == Taken(rows, limit + 1)[limit - 1];
      SortedBelow(rows, limit);
      CursorNamesItsRow(table, query, limit, cursor, last);
    }
  }

  /** A cursor made from a row still to be shown resolves to what is below that row. */
  lemma CursorNamesItsRow(table: set<Row>, query: string, limit: int, cursor: Option<Cursor>, last: Row)
    requires Keyed(table) && Remaining(table, query, limit, cursor).Some?
        && last in Remaining(table, query, limit, cursor).value
    ensures var rows, next := Remaining(table, query, limit, cursor).value,
        Cursor(query, limit, last.updatedAt, last.publicId);
            Remaining(table, query, limit, Some(next)) == Some(Below(rows, last.updatedAt, last.id))
  {
    hide Matches;
    assert Names(table, last.publicId);
    assert Named(table, last.publicId) == last;
    var rows := Remaining(table, query, limit, cursor).value;
    forall r | r in Matching(table, query) && IsBelow(r, last.updatedAt, last.id) ensures r in rows {
    }
    assert Below(Matching(table, query), last.updatedAt, last.id) == Below(rows, last.updatedAt, last.id);
  }

  /** All pages a client gets by following the cursors from a given one. */
  ghost function Visit(table: set<Row>, query: string, limit: int, cursor: Option<Cursor>): (pages: seq<Page>)
    requires Keyed(table) && 1 <= limit <= 50 && query != "" && Remaining(table, query, limit, cursor).Some?
    decreases |Remaining(table, query, limit, cursor).value|
  {
    NextCursorResumes(table, query, limit, cursor);
    var page := Search(table, query, limit, cursor).value;
    if page.next.None? then [page] else [page] + Visit(table, query, limit, page.next)
  }

  function Shown(items: seq<Item>): seq<Row> {
    seq(|items|, k requires 0 <= k < |items| => items[k].row)
  }

  function AllShown(pages: seq<Page>): seq<Row> {
    if pages == [] then [] else Shown(pages[0].items) + AllShown(pages[1..])
  }

  lemma ShownLength(items: seq<Item>)
    ensures |Shown(items)| == |items|
  {
  }

  lemma PageOfShows(rows: seq<Row>, query: string, limit: nat)
    ensures Shown(PageOf(rows, query, limit).items) == if |rows| > limit then rows[..limit] else rows
  {
    hide MatchRange;
    var shown, items := if |rows| > limit then rows[..limit] else rows, PageOf(rows, query, limit).items;
    assert |items| == |shown|;
    assert forall k :: 0 <= k < |shown| ==> items[k] == ItemOf(shown[k], query) && Shown(items)[k] == shown[k];
  }

  lemma PageShows(table: set<Row>, query: string, limit: int, cursor: Option<Cursor>)
    requires Keyed(table) && 1 <= limit <= 50 && query != "" && Remaining(table, query, limit, cursor).Some?
    ensures Search(table, query, limit, cursor).Ok?
    ensures var rows, page := Remaining(table, query, limit, cursor).value, Search(table, query, limit, cursor).value;
            Shown(page.items) == if |rows| > limit then Sorted(rows)[..limit] else Sorted(rows)
  {
    hide MatchRange, Remaining, Sorted, Keyed;
    var rows := Remaining(table, query, limit, cursor).value;
    PageOfShows(Taken(rows, limit + 1), query, limit);
    assert |rows| > limit ==> Taken(rows, limit + 1)[..limit] == Sorted(rows)[..limit];
  }

  /** From any accepted cursor the client sees exactly what remains, in order; every
      page but the last is full. */
  lemma {:induction false} VisitShowsTheRest(table: set<Row>, query: string, limit: int, cursor: Option<Cursor>)
    requires Keyed(table) && 1 <= limit <= 50 && query != "" && Remaining(table, query, limit, cursor).Some?
    ensures AllShown(Visit(table, query, limit, cursor)) == Sorted(Remaining(table, query, limit, cursor).value)
    ensures var pages := Visit(table, query, limit, cursor);
            pages != [] && forall k :: 0 <= k < |pages| - 1 ==> |pages[k].items| == limit
    decreases |Remaining(table, query, limit, cursor).value|
  {
    hide Search, Remaining, Sorted, Keyed, Shown, Below;
    NextCursorResumes(table, query, limit, cursor);
    PageShows(table, query, limit, cursor);
    var rows, page := Remaining(table, query, limit, cursor).value, Search(table, query, limit, cursor).value;
    var pages := Visit(table, query, limit, cursor);
    if page.next.Some? {
      VisitShowsTheRest(table, query, limit, page.next);
      assert pages[1..] == Visit(table, query, limit, page.next);
      assert Sorted(rows) == Sorted(rows)[..limit] + Sorted(rows)[limit..];
      forall k | 0 <= k < |pages| - 1 ensures |pages[k].items| == limit {
        assert k > 0 ==> pages[k] == pages[1..][k - 1];
        ShownLength(page.items);
      }
    } else {
      assert pages[1..] == [];
    }
  }

  /** Following the cursors over an unchanging table visits every conversation the
      query occurs in exactly once, in (updated_at, id) descending order, and stops. */
  lemma FollowingVisitsEveryMatchOnce(table: set<Row>, query: string, limit: int)
    requires Keyed(table) && 1 <= limit <= 50 && query != ""
    ensures var shown := AllShown(Visit(table, query, limit, None));
            && (forall r :: r in shown <==> r in table && exists k :: 0 <= k < |r.texts| && Occurs(r.texts[k], query))
            && (forall i, j :: 0 <= i < j < |shown| ==>
                  && shown[i] != shown[j] && shown[j].updatedAt <= shown[i].updatedAt
                  && (shown[j].updatedAt == shown[i].updatedAt ==> shown[j].id < shown[i].id))
  {
    hide Search, Occurs, Visit, SearchPattern, AllShown;
    VisitShowsTheRest(table, query, limit, None);
    var rows := Matching(table, query);
    forall i, j | 0 <= i < j < |Sorted(rows)|
      ensures Less(Sorted(rows)[j], Sorted(rows)[i]) && Sorted(rows)[i] != Sorted(rows)[j]
    {
      SortedDescends(rows, i, j);
    }
    hide Sorted;
    forall r ensures Matches(r, query) <==> exists k :: 0 <= k < |r.texts| && Occurs(r.texts[k], query) {
      forall k | 0 <= k < |r.texts| ensures Like(SearchPattern(query), r.texts[k]) <==> Occurs(r.texts[k], query) {
        SearchPatternMatchesSubstring(query, r.texts[k]);
      }
    }
  }

  // ------------------------------------------------------------------- one request

  /** A search is refused for its page size, or for a cursor of another query or page
      size, one whose conversation is gone, or one without a query; never otherwise. */
  lemma SearchRefusals(table: set<Row>, query: string, limit: int, cursor: Option<Cursor>)
    requires Keyed(table)
    ensures Search(table, query, limit, cursor) == Err(QueryInvalid) <==> limit < 1 || limit > 50
    ensures Search(table, query, limit, cursor) == Err(CursorInvalid) <==>
              && 1 <= limit <= 50 && cursor.Some?
              && (query != "" && cursor.value.query == query && cursor.value.limit == limit ==>
                    forall r :: r in table ==> r.publicId != cursor.value.publicId)
  {
    hide MatchRange, Sorted, Below;
  }

  /** Without a query the ten most recent conversations are listed, with no cursor. */
  lemma RecentConversations(table: set<Row>, limit: int)
    requires Keyed(table) && 1 <= limit <= 50
    ensures var page := Search(table, "", limit, None);
            && page.Ok? && page.value.next.None?
            && Shown(page.value.items) == if |table| > 10 then Sorted(table)[..10] else Sorted(table)
  {
    hide Sorted, MatchRange;
    var recent := Taken(table, 10);
    var items := Search(table, "", limit, None).value.items;
    assert |items| == |recent| && forall k :: 0 <= k < |recent| ==> items[k].row == recent[k];
    assert Shown(items) == recent;
  }

  /** What an item tells of its row: where the title matches, and the newest matching
      message with its snippet, ends included. */
  lemma ItemsTellTheirRows(rows: seq<Row>, query: string, limit: nat, k: nat)
    requires k < |rows| && k < limit
    ensures k < |PageOf(rows, query, limit).items|
    ensures var item, row := PageOf(rows, query, limit).items[k], rows[k];
            && item.row == row && item.titleMatch == MatchRange(row.title, query)
            && (item.target.Some? <==> row.hit.Some?) && (item.snippet.Some? <==> row.hit.Some?)
            && (row.hit.Some? ==>
                  var hit, target, snippet := row.hit.value, item.target.value, item.snippet.value;
                  && target.message == hit.message && target.field == hit.field && target.hash == hit.hash
                  && target.start == hit.matchStart && target.end == target.start + hit.matchLength
                  && snippet.text == hit.snippet && snippet.start == hit.snippetStart
                  && snippet.end == snippet.start + Utf16Length(query)
                  && snippet.truncatedBefore == hit.truncatedBefore && snippet.truncatedAfter == hit.truncatedAfter)
  {
    hide MatchRange, Utf16Length;
    var shown := if |rows| > limit then rows[..limit] else rows;
    assert shown[k] == rows[k] && PageOf(rows, query, limit).items[k] == ItemOf(shown[k], query);
  }

  /** There is a cursor exactly when more rows were fetched than shown, and it names the
      last row shown, the query and the page size. */
  lemma CursorNamesTheLast(rows: seq<Row>, query: string, limit: nat)
    requires limit > 0
    ensures var page := PageOf(rows, query, limit);
            && |page.items| == Min(|rows|, limit) && (page.next.Some? <==> |rows| > limit)
            && (page.next.Some? ==>
                  page.next.value == Cursor(query, limit, rows[limit - 1].updatedAt, rows[limit - 1].publicId))
  {
    hide MatchRange;
  }
}
