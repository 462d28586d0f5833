/** Message rows of one conversation and the plain list they stand for: rows are
    only ever appended with the next position or marked archived, and readers see
    the unarchived ones in position order. */
module Transcript {
  import opened Prelude
  import opened Messages

  datatype MessageRow = MessageRow(
    role: Role,
    content: string,
    quote: Option<string>,
    runId: Option<nat>,
    attachments: seq<string>,
    position: int,
    archived: bool)

  /** A visible message: its row id (the row's index in the table) and its row. */
  datatype Entry = Entry(id: nat, row: MessageRow)

  // ------------------------------------------------------------------- the table

  ghost predicate Ordered(rows: seq<MessageRow>) {
    forall i, j :: 0 <= i < j < |rows| ==> rows[i].position < rows[j].position
  }

  /** The highest position of any row, archived or not. */
  function MaxPosition(rows: seq<MessageRow>): (m: int)
    requires rows != []
    ensures forall i :: 0 <= i < |rows| ==> rows[i].position <= m
    ensures exists i :: 0 <= i < |rows| && rows[i].position == m
  {
    if |rows| == 1 then rows[0].position
    else Max(MaxPosition(rows[..|rows| - 1]), rows[|rows| - 1].position)
  }

  function NextPosition(rows: seq<MessageRow>): int {
    if rows == [] then 1 else MaxPosition(rows) + 1
  }

  function Archive(row: MessageRow): MessageRow {
    row.(archived := true)
  }

  /** Archives every row at or after a position. */
  function ArchiveFrom(rows: seq<MessageRow>, position: int): seq<MessageRow> {
    seq(|rows|, i requires 0 <= i < |rows| => if rows[i].position >= position then Archive(rows[i]) else rows[i])
  }

  /** Archives every row strictly after a position. */
  function ArchiveAfter(rows: seq<MessageRow>, position: int): seq<MessageRow> {
    seq(|rows|, i requires 0 <= i < |rows| => if rows[i].position > position then Archive(rows[i]) else rows[i])
  }

  predicate IsVisible(rows: seq<MessageRow>, id: nat) {
    id < |rows| && !rows[id].archived
  }

  // ------------------------------------------------------------------- the list

  /** The unarchived rows in table order. */
  function View(rows: seq<MessageRow>): seq<Entry> {
    if rows == [] then []
    else
      var front, last := View(rows[..|rows| - 1]), rows[|rows| - 1];
      if last.archived then front else front + [Entry(|rows| - 1, last)]
  }

  /** How many visible rows precede row `id`: its index in the list. */
  function Rank(rows: seq<MessageRow>, id: nat): nat
    requires id <= |rows|
  {
    |View(rows[..id])|
  }

  /** `list` is what a reader selecting the unarchived rows by position gets. */
  ghost predicate Lists(rows: seq<MessageRow>, list: seq<Entry>) {
    && (forall k :: 0 <= k < |list| ==> IsVisible(rows, list[k].id) && rows[list[k].id] == list[k].row)
    && (forall id :: 0 <= id < |rows| && !rows[id].archived ==> Entry(id, rows[id]) in list)
    && (forall k, l :: 0 <= k < l < |list| ==> list[k].row.position < list[l].row.position)
  }

  lemma ViewSnoc(rows: seq<MessageRow>, row: MessageRow)
    ensures View(rows + [row]) == if row.archived then View(rows) else View(rows) + [Entry(|rows|, row)]
  {
    assert (rows + [row])[..|rows|] == rows;
  }

  lemma {:induction false} ViewElements(rows: seq<MessageRow>)
    ensures forall k :: 0 <= k < |View(rows)| ==>
        IsVisible(rows, View(rows)[k].id) && rows[View(rows)[k].id] == View(rows)[k].row
    ensures forall id :: 0 <= id < |rows| && !rows[id].archived ==> Entry(id, rows[id]) in View(rows)
    ensures forall k, l :: 0 <= k < l < |View(rows)| ==> View(rows)[k].id < View(rows)[l].id
  {
    if rows != [] {
      var front, last := rows[..|rows| - 1], rows[|rows| - 1];
      ViewElements(front);
      assert rows == front + [last];
      ViewSnoc(front, last);
      forall id | 0 <= id < |rows| && !rows[id].archived ensures Entry(id, rows[id]) in View(rows) {
        if id < |front| {
          assert rows[id] == front[id];
        }
      }
    }
  }

  /** With positions increasing, the view is what the position-ordered query
      returns, and the query has no other answer. */
  lemma ViewIsTheQuery(rows: seq<MessageRow>, list: seq<Entry>)
    requires Ordered(rows)
    ensures Lists(rows, list) <==> list == View(rows)
  {
    ViewElements(rows);
    if Lists(rows, list) {
      SortedListsAgree(list, View(rows));
    }
  }

  /** Two position-sorted lists with the same elements are equal. */
  lemma {:induction false} SortedListsAgree(a: seq<Entry>, b: seq<Entry>)
    requires forall k, l :: 0 <= k < l < |a| ==> a[k].row.position < a[l].row.position
    requires forall k, l :: 0 <= k < l < |b| ==> b[k].row.position < b[l].row.position
    requires forall e :: e in a <==> e in b
    ensures a == b
  {
    assert (a != [] ==> a[0] in b) && (b != [] ==> b[0] in a);
    if a != [] {
      var i :| 0 <= i < |b| && b[i] == a[0];
      var j :| 0 <= j < |a| && a[j] == b[0];
      assert a[0] == b[0];
      forall e ensures e in a[1..] <==> e in b[1..] {
        assert e in a <==> e == a[0] || e in a[1..];
        assert e in b <==> e == b[0] || e in b[1..];
      }
      SortedListsAgree(a[1..], b[1..]);
    }
  }

  /** A visible row stands in the list at its rank. */
  lemma {:induction false} RankFinds(rows: seq<MessageRow>, id: nat)
    requires IsVisible(rows, id)
    ensures Rank(rows, id) < |View(rows)| && View(rows)[Rank(rows, id)] == Entry(id, rows[id])
    ensures View(rows)[..Rank(rows, id)] == View(rows[..id])
    decreases |rows|
  {
    var front := rows[..|rows| - 1];
    assert front + [rows[|rows| - 1]] == rows;
    ViewSnoc(front, rows[|rows| - 1]);
    if id == |rows| - 1 {
    } else {
      assert front[..id] == rows[..id];
      RankFinds(front, id);
    }
  }

  lemma {:induction false} AllArchivedAfter(rows: seq<MessageRow>, n: nat)
    requires n <= |rows| && forall i :: n <= i < |rows| ==> rows[i].archived
    ensures View(rows) == View(rows[..n])
    decreases |rows|
  {
    if n == |rows| {
      assert rows[..n] == rows;
    } else {
      var front := rows[..|rows| - 1];
      assert front + [rows[|rows| - 1]] == rows;
      ViewSnoc(front, rows[|rows| - 1]);
      assert front[..n] == rows[..n];
      AllArchivedAfter(front, n);
    }
  }

  // ------------------------------------------------------------------- list operations

  lemma NextPositionIsLast(rows: seq<MessageRow>, row: MessageRow)
    requires Ordered(rows) && row.position == NextPosition(rows)
    ensures Ordered(rows + [row])
  {
  }

  /** Archiving from a visible row on leaves the list before it. */
  lemma ArchiveFromIsTake(rows: seq<MessageRow>, id: nat)
    requires Ordered(rows) && IsVisible(rows, id)
    ensures Rank(rows, id) < |View(rows)|
    ensures View(ArchiveFrom(rows, rows[id].position)) == View(rows)[..Rank(rows, id)]
  {
    hide View;
    var cut := ArchiveFrom(rows, rows[id].position);
    assert cut[..id] == rows[..id];
    AllArchivedAfter(cut, id);
    RankFinds(rows, id);
  }

  /** Archiving after a visible row leaves the list up to and including it. */
  lemma ArchiveAfterIsTake(rows: seq<MessageRow>, id: nat)
    requires Ordered(rows) && IsVisible(rows, id)
    ensures Rank(rows, id) < |View(rows)|
    ensures View(ArchiveAfter(rows, rows[id].position)) == View(rows)[..Rank(rows, id) + 1]
  {
    hide View;
    var cut := ArchiveAfter(rows, rows[id].position);
    assert cut[..id + 1] == rows[..id] + [rows[id]];
    AllArchivedAfter(cut, id + 1);
    ViewSnoc(rows[..id], rows[id]);
    RankFinds(rows, id);
  }

  /** Pointing the last visible row at another run changes that entry alone. */
  lemma UpdateLastRun(rows: seq<MessageRow>, id: nat, run: Option<nat>)
    requires IsVisible(rows, id) && forall i :: id < i < |rows| ==> rows[i].archived
    ensures View(rows[id := rows[id].(runId := run)]) == View(rows[..id]) + [Entry(id, rows[id].(runId := run))]
  {
    hide View;
    var changed := rows[id := rows[id].(runId := run)];
    assert changed[..id + 1] == rows[..id] + [rows[id].(runId := run)];
    AllArchivedAfter(changed, id + 1);
    ViewSnoc(rows[..id], rows[id].(runId := run));
  }
}
