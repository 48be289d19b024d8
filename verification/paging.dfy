/** Keyset pages of a wallet's ledger, newest first, and the walks clients make over them. */
module Paging {
  import opened Wrappers
  import opened Domain

  datatype Cursor = Cursor(createdAt: int, id: Id)

  datatype Page = Page(entries: seq<LedgerEntry>, hasMore: bool)

  function CursorOf(e: LedgerEntry): Cursor {
    Cursor(e.createdAt, e.id)
  }

  /** ORDER BY created_at DESC, id DESC */
  predicate Precedes(a: LedgerEntry, b: LedgerEntry) {
    IsBelow(b, CursorOf(a))
  }

  predicate IsBelow(e: LedgerEntry, c: Cursor) {
    e.createdAt < c.createdAt || (e.createdAt == c.createdAt && IdBefore(e.id, c.id))
  }

  predicate Below(e: LedgerEntry, after: Option<Cursor>) {
    after.Some? ==> IsBelow(e, after.value)
  }

  predicate Matches(ledger: seq<LedgerEntry>, wallet: Id, after: Option<Cursor>, e: LedgerEntry) {
    e in ledger && e.walletId == wallet && Below(e, after)
  }

  predicate Descending(es: seq<LedgerEntry>) {
    forall i, j :: 0 <= i < j < |es| ==> Precedes(es[i], es[j])
  }

  predicate DistinctIds(ledger: seq<LedgerEntry>) {
    forall i, j :: 0 <= i < j < |ledger| ==> ledger[i].id != ledger[j].id
  }

  /** The first `count` matching rows in order; fewer only when there are no more. */
  ghost predicate IsTop(ledger: seq<LedgerEntry>, wallet: Id, after: Option<Cursor>, count: nat, rows: seq<LedgerEntry>) {
    && |rows| <= count && Descending(rows)
    && (forall i :: 0 <= i < |rows| ==> Matches(ledger, wallet, after, rows[i]))
    && (forall e :: Matches(ledger, wallet, after, e) ==>
          e in rows || (|rows| == count && forall i :: 0 <= i < |rows| ==> Precedes(rows[i], e)))
  }

  /** What page returns: the top of the query, and whether one more row was there. */
  ghost predicate IsPage(ledger: seq<LedgerEntry>, wallet: Id, after: Option<Cursor>, limit: nat, p: Page) {
    && IsTop(ledger, wallet, after, limit, p.entries)
    && (p.hasMore <==> exists e :: Matches(ledger, wallet, after, e) && e !in p.entries)
  }

  // ---------- the query ----------

  lemma PrecedesIsOrder(a: LedgerEntry, b: LedgerEntry, c: LedgerEntry)
    ensures Precedes(a, b) && Precedes(b, c) ==> Precedes(a, c)
    ensures a.id != b.id ==> Precedes(a, b) || Precedes(b, a)
    ensures !(Precedes(a, b) && Precedes(b, a))
  {
  }

  /** The newest matching row, if any. */
  method Newest(ledger: seq<LedgerEntry>, wallet: Id, after: Option<Cursor>) returns (best: Option<LedgerEntry>)
    requires DistinctIds(ledger)
    ensures best.None? ==> forall e :: e in ledger ==> !Matches(ledger, wallet, after, e)
    ensures best.Some? ==> Matches(ledger, wallet, after, best.value)
    ensures best.Some? ==> forall e :: Matches(ledger, wallet, after, e) ==> e == best.value || Precedes(best.value, e)
  {
    best := None;
    var i := 0;
    while i < |ledger|
      invariant 0 <= i <= |ledger|
      invariant best.None? ==> forall k :: 0 <= k < i ==> !Matches(ledger, wallet, after, ledger[k])
      invariant best.Some? ==>
                  && Matches(ledger, wallet, after, best.value)
                  && (exists k :: 0 <= k < i && ledger[k] == best.value)
                  && forall k :: 0 <= k < i && Matches(ledger, wallet, after, ledger[k]) ==>
                       ledger[k] == best.value || Precedes(best.value, ledger[k])
    {
      var e := ledger[i];
      if e.walletId == wallet && Below(e, after) && (best.None? || Precedes(e, best.value)) {
        best := Some(e);
      }
      i := i + 1;
    }
  }

  /** Rows below the last one of a top are the rows left to fetch. */
  lemma NextBelow(ledger: seq<LedgerEntry>, wallet: Id, after: Option<Cursor>, rows: seq<LedgerEntry>, e: LedgerEntry)
    requires rows != [] && IsTop(ledger, wallet, after, |rows|, rows)
    ensures Matches(ledger, wallet, Some(CursorOf(rows[|rows| - 1])), e) <==>
            Matches(ledger, wallet, after, e) && e !in rows
  {
    var last := rows[|rows| - 1];
    if Matches(ledger, wallet, Some(CursorOf(last)), e) {
      assert Matches(ledger, wallet, after, last);
      assert forall i :: 0 <= i < |rows| - 1 ==> Precedes(rows[i], last);
    }
  }

  /** page: limit + 1 rows are fetched, the last of them only to tell whether there are more. */
  method FetchPage(ledger: seq<LedgerEntry>, wallet: Id, limit: nat, after: Option<Cursor>) returns (page: Page)
    requires DistinctIds(ledger)
    ensures IsPage(ledger, wallet, after, limit, page)
  {
    var rows: seq<LedgerEntry> := [];
    var done := false;
    while |rows| < limit + 1 && !done
      invariant |rows| <= limit + 1
      invariant IsTop(ledger, wallet, after, |rows|, rows)
      invariant done ==> forall e :: Matches(ledger, wallet, after, e) ==> e in rows
      decreases limit + 1 - |rows|, !done
    {
      var cursor := if rows == [] then after else Some(CursorOf(rows[|rows| - 1]));
      var next := Newest(ledger, wallet, cursor);
      forall e ensures Matches(ledger, wallet, cursor, e) <==> Matches(ledger, wallet, after, e) && e !in rows {
        if rows != [] {
          NextBelow(ledger, wallet, after, rows, e);
        }
      }
      if next.None? {
        done := true;
      } else {
        TopGrows(ledger, wallet, after, rows, next.value);
        rows := rows + [next.value];
      }
    }
    page := Page(if |rows| > limit then rows[..limit] else rows, |rows| > limit);
    if |rows| > limit {
      TopShrinks(ledger, wallet, after, rows);
    }
  }

  lemma TopGrows(ledger: seq<LedgerEntry>, wallet: Id, after: Option<Cursor>, rows: seq<LedgerEntry>, next: LedgerEntry)
    requires IsTop(ledger, wallet, after, |rows|, rows)
    requires Matches(ledger, wallet, after, next) && next !in rows
    requires forall e :: Matches(ledger, wallet, after, e) && e !in rows ==> e == next || Precedes(next, e)
    ensures IsTop(ledger, wallet, after, |rows| + 1, rows + [next])
  {
    var rows' := rows + [next];
    forall e | Matches(ledger, wallet, after, e) && e !in rows'
      ensures forall i :: 0 <= i < |rows'| ==> Precedes(rows'[i], e)
    {
      assert e !in rows;
      assert e != next by {
        assert rows'[|rows|] == next;
      }
    }
    forall e | Matches(ledger, wallet, after, e) ensures e in rows' || forall i :: 0 <= i < |rows'| ==> Precedes(rows'[i], e) {
    }
  }

  lemma TopShrinks(ledger: seq<LedgerEntry>, wallet: Id, after: Option<Cursor>, rows: seq<LedgerEntry>)
    requires rows != [] && IsTop(ledger, wallet, after, |rows|, rows)
    ensures IsPage(ledger, wallet, after, |rows| - 1, Page(rows[..|rows| - 1], true))
  {
    var last := rows[|rows| - 1];
    var front := rows[..|rows| - 1];
    assert rows == front + [last];
    assert Matches(ledger, wallet, after, last);
    assert forall i :: 0 <= i < |front| ==> Precedes(front[i], last);
    assert last !in front;
  }

  // ---------- walks ----------

  /** nextCursor in wagering.controller.ts */
  function NextCursor(p: Page): Option<Cursor> {
    if p.hasMore && p.entries != [] then Some(CursorOf(p.entries[|p.entries| - 1])) else None
  }

  /** One page read, with the ledger it saw. */
  datatype Read = Read(ledger: seq<LedgerEntry>, page: Page)

  /** A walk follows the cursors to the end; between two reads entries are only added. */
  ghost predicate IsWalk(wallet: Id, limit: nat, after: Option<Cursor>, walk: seq<Read>)
    decreases |walk|
  {
    && walk != []
    && IsPage(walk[0].ledger, wallet, after, limit, walk[0].page)
    && var next := NextCursor(walk[0].page);
       if next.None? then |walk| == 1
       else |walk| > 1 && walk[0].ledger <= walk[1].ledger && IsWalk(wallet, limit, next, walk[1..])
  }

  function Returned(walk: seq<Read>): seq<LedgerEntry> {
    if walk == [] then [] else walk[0].page.entries + Returned(walk[1..])
  }

  /** What a page leaves behind is below its cursor. */
  lemma LeftBehind(wallet: Id, limit: nat, after: Option<Cursor>, r: Read, e: LedgerEntry)
    requires limit >= 1 && IsPage(r.ledger, wallet, after, limit, r.page)
    requires Matches(r.ledger, wallet, after, e) && e !in r.page.entries
    ensures NextCursor(r.page).Some? && Below(e, NextCursor(r.page))
  {
  }

  /**
   * A walk that ends has returned every entry that was there when it began, exactly once, and no
   * entry twice, whatever was inserted between its reads and however many timestamps tie.
   */
  lemma {:induction false} WalksAreComplete(wallet: Id, limit: nat, after: Option<Cursor>, walk: seq<Read>)
    requires limit >= 1 && IsWalk(wallet, limit, after, walk)
    ensures forall e :: Matches(walk[0].ledger, wallet, after, e) ==> e in Returned(walk)
    ensures Descending(Returned(walk))
    ensures forall i, j :: 0 <= i < j < |Returned(walk)| ==> Returned(walk)[i] != Returned(walk)[j]
    ensures forall i :: 0 <= i < |Returned(walk)| ==> Below(Returned(walk)[i], after)
    decreases |walk|
  {
    var page := walk[0].page;
    var next := NextCursor(page);
    var rest := Returned(walk[1..]);
    assert Returned(walk) == page.entries + rest;
    if next.Some? {
      WalksAreComplete(wallet, limit, next, walk[1..]);
      RestIsBelow(wallet, limit, after, walk[0], rest);
    } else {
      assert walk[1..] == [];
    }
    forall e | Matches(walk[0].ledger, wallet, after, e) ensures e in Returned(walk) {
      if e !in page.entries {
        LeftBehind(wallet, limit, after, walk[0], e);
        assert Matches(walk[1].ledger, wallet, next, e);
        assert e in rest;
      }
    }
  }

  /** Newest first, and by falling id among entries of one instant. */
  predicate NewestFirst(es: seq<LedgerEntry>) {
    forall i, j :: 0 <= i < j < |es| ==>
      es[i].createdAt > es[j].createdAt || (es[i].createdAt == es[j].createdAt && IdBefore(es[j].id, es[i].id))
  }

  lemma WalksGoBack(wallet: Id, limit: nat, after: Option<Cursor>, walk: seq<Read>)
    requires limit >= 1 && IsWalk(wallet, limit, after, walk)
    ensures NewestFirst(Returned(walk))
    ensures after.Some? ==>
              forall i :: 0 <= i < |Returned(walk)| ==>
                var e := Returned(walk)[i];
                e.createdAt < after.value.createdAt
                || (e.createdAt == after.value.createdAt && IdBefore(e.id, after.value.id))
  {
    hide IsWalk, Returned;
    WalksAreComplete(wallet, limit, after, walk);
  }

  lemma RestIsBelow(wallet: Id, limit: nat, after: Option<Cursor>, r: Read, rest: seq<LedgerEntry>)
    requires IsPage(r.ledger, wallet, after, limit, r.page) && NextCursor(r.page).Some?
    requires Descending(rest) && forall i :: 0 <= i < |rest| ==> Below(rest[i], NextCursor(r.page))
    ensures Descending(r.page.entries + rest)
    ensures forall i :: 0 <= i < |r.page.entries + rest| ==> Below((r.page.entries + rest)[i], after)
  {
    var es := r.page.entries;
    var last := es[|es| - 1];
    assert Matches(r.ledger, wallet, after, last);
    forall i, j | 0 <= i < j < |es + rest| ensures Precedes((es + rest)[i], (es + rest)[j]) {
      if i < |es| <= j {
        PrecedesIsOrder(es[i], last, rest[j - |es|]);
      }
    }
  }
}
