/** An admissible commit keeps every invariant; one lemma for each. */
module Preservation {
  import opened Wrappers
  import opened Domain
  import opened Store
  import opened Decisions
  import opened Invariants
  import opened Sums

  lemma KeepsWallets(db: Db, e: Effect, n: nat)
    requires WalletsOk(db) && Admissible(db, e, n)
    ensures WalletsOk(Apply(db, e))
  {
  }

  lemma KeepsRows(db: Db, e: Effect, n: nat)
    requires RowsOk(db) && Admissible(db, e, n)
    ensures RowsOk(Apply(db, e))
  {
  }

  lemma KeepsIdentities(db: Db, e: Effect, n: nat)
    requires RowsOk(db) && IdentitiesOk(db.wagers) && Admissible(db, e, n)
    ensures IdentitiesOk(Apply(db, e).wagers)
  {
  }

  /** A link leads to a processed row, and a commit never rewrites one. */
  lemma LinkAfter(db: Db, e: Effect, n: nat, t: Wager)
    requires RowStep(db, e.row, n) && t.referenceId.Some? && LinkOk(db.wagers, t)
    ensures LinkOk(Apply(db, e).wagers, t)
  {
    assert t.referenceId.value != e.row.id;
  }

  lemma KeepsLinks(db: Db, e: Effect, n: nat)
    requires LinksOk(db.wagers) && RowStep(db, e.row, n) && LinkStep(db.wagers, e.row)
    ensures LinksOk(Apply(db, e).wagers)
  {
    var w' := Apply(db, e).wagers;
    forall id | id in w' && w'[id].referenceId.Some? ensures LinkOk(w', w'[id]) {
      LinkAfter(db, e, n, w'[id]);
    }
  }

  lemma KeepsOpeningsClocksInbox(db: Db, e: Effect, n: nat)
    requires OpeningsOk(db) && ClocksOk(db) && InboxOk(db) && Admissible(db, e, n)
    ensures OpeningsOk(Apply(db, e)) && ClocksOk(Apply(db, e)) && InboxOk(Apply(db, e))
  {
  }

  // ---------- the reversal slot ----------

  /** A waiting or new row is nobody's reference: links lead to processed rows. */
  lemma NotReferenced(db: Db, e: Effect, n: nat, id: Id)
    requires LinksOk(db.wagers) && Admissible(db, e, n)
    requires id in db.wagers
    ensures db.wagers[id].referenceId != Some(e.row.id)
  {
  }

  lemma UndoneAfter(db: Db, e: Effect, n: nat, a: Id)
    requires LinksOk(db.wagers) && Admissible(db, e, n)
    ensures Undone(Apply(db, e).wagers, a) <==> Undone(db.wagers, a) || Undoes(e.row, a)
  {
    var w := db.wagers;
    var w' := Apply(db, e).wagers;
    if Undone(w, a) {
      var u :| u in w && Undoes(w[u], a);
      assert u in w' && Undoes(w'[u], a);
    }
    if Undoes(e.row, a) {
      assert e.row.id in w' && Undoes(w'[e.row.id], a);
    }
    if Undone(w', a) {
      var u :| u in w' && Undoes(w'[u], a);
      if u != e.row.id {
        assert u in w && Undoes(w[u], a);
      }
    }
  }

  lemma ActivelyReversesAfter(db: Db, e: Effect, n: nat, a: Id, r: Id)
    requires LinksOk(db.wagers) && Admissible(db, e, n)
    ensures ActivelyReverses(Apply(db, e).wagers, a, r) <==>
            if a == e.row.id then Reverses(e.row, r)
            else ActivelyReverses(db.wagers, a, r) && !Undoes(e.row, a)
  {
    UndoneAfter(db, e, n, a);
    if a == e.row.id && Undone(db.wagers, a) {
      var u :| u in db.wagers && Undoes(db.wagers[u], a);
      NotReferenced(db, e, n, u);
    }
  }

  lemma KeepsSlots(db: Db, e: Effect, n: nat)
    requires LinksOk(db.wagers) && SlotsOk(db.wagers) && Admissible(db, e, n)
    ensures SlotsOk(Apply(db, e).wagers)
  {
    var w' := Apply(db, e).wagers;
    forall r, a, b | ActivelyReverses(w', a, r) && ActivelyReverses(w', b, r) ensures a == b {
      ActivelyReversesAfter(db, e, n, a, r);
      ActivelyReversesAfter(db, e, n, b, r);
    }
  }

  /**
   * How the slot of r moves: the committed reversal fills it, a ROLLBACK of the REFUND that
   * held it reopens it, and every other commit leaves it alone.
   */
  lemma SlotAfter(db: Db, e: Effect, n: nat, r: Id)
    requires LinksOk(db.wagers) && SlotsOk(db.wagers) && Admissible(db, e, n)
    ensures HasActiveReversal(Apply(db, e).wagers, r) <==>
            || Reverses(e.row, r)
            || exists a :: a in db.wagers && ActivelyReverses(db.wagers, a, r) && !Undoes(e.row, a)
  {
    var w := db.wagers;
    var w' := Apply(db, e).wagers;
    if HasActiveReversal(w', r) {
      var a :| a in w' && ActivelyReverses(w', a, r);
      ActivelyReversesAfter(db, e, n, a, r);
    }
    if Reverses(e.row, r) {
      ActivelyReversesAfter(db, e, n, e.row.id, r);
      assert e.row.id in w' && ActivelyReverses(w', e.row.id, r);
    }
    forall a | a in w && ActivelyReverses(w, a, r) && !Undoes(e.row, a) ensures HasActiveReversal(w', r) || a == e.row.id {
      ActivelyReversesAfter(db, e, n, a, r);
      if a != e.row.id {
        assert a in w' && ActivelyReverses(w', a, r);
      }
    }
  }

  // ---------- the ledger ----------

  lemma EntriesAppend(ledger: seq<LedgerEntry>, x: LedgerEntry, w: Id)
    ensures Entries(ledger + [x], w) == Entries(ledger, w) + (if x.walletId == w then [x] else [])
  {
    assert (ledger + [x])[..|ledger|] == ledger;
  }

  lemma {:induction false} EntriesMembers(ledger: seq<LedgerEntry>, w: Id, k: nat)
    requires k < |Entries(ledger, w)|
    ensures exists i :: 0 <= i < |ledger| && ledger[i] == Entries(ledger, w)[k] && ledger[i].walletId == w
  {
    var front := ledger[..|ledger| - 1];
    if k < |Entries(front, w)| {
      EntriesMembers(front, w, k);
      var i :| 0 <= i < |front| && front[i] == Entries(front, w)[k] && front[i].walletId == w;
      assert ledger[i] == Entries(ledger, w)[k];
    } else {
      assert ledger[|ledger| - 1] == Entries(ledger, w)[k];
    }
  }

  lemma ChainAppend(es: seq<LedgerEntry>, x: LedgerEntry)
    requires Chained(es, x.before)
    ensures Chained(es + [x], x.after)
  {
    var es' := es + [x];
    forall i | 0 < i < |es'| ensures es'[i].before == es'[i - 1].after {
      if i < |es| {
        assert es[i].before == es[i - 1].after;
      }
    }
  }

  lemma ChainAfter(db: Db, e: Effect, n: nat, w: Id)
    requires MoveStep(db, e, n)
    requires if w in db.wallets then Chained(Entries(db.ledger, w), db.wallets[w].balance.cents)
             else Entries(db.ledger, w) == []
    ensures var db' := Apply(db, e);
            if w in db'.wallets then Chained(Entries(db'.ledger, w), db'.wallets[w].balance.cents)
            else Entries(db'.ledger, w) == []
  {
    if e.movement.Some? {
      var x := e.movement.value.entry;
      EntriesAppend(db.ledger, x, w);
      if x.walletId == w {
        ChainAppend(Entries(db.ledger, w), x);
      }
    }
  }

  lemma KeepsChains(db: Db, e: Effect, n: nat)
    requires ChainsOk(db) && MoveStep(db, e, n)
    ensures ChainsOk(Apply(db, e))
  {
    forall w: Id ensures
      var db' := Apply(db, e);
      if w in db'.wallets then Chained(Entries(db'.ledger, w), db'.wallets[w].balance.cents)
      else Entries(db'.ledger, w) == []
    {
      ChainAfter(db, e, n, w);
    }
  }

  /** The direction of an applied row never changes: its reference keeps its kind. */
  lemma DirectionAfter(db: Db, e: Effect, n: nat, t: Wager)
    requires Admissible(db, e, n)
    requires t.referenceId.Some? ==> t.referenceId.value in db.wagers
    ensures DirectionOf(Apply(db, e).wagers, t) == DirectionOf(db.wagers, t)
  {
  }

  lemma EntryAfter(db: Db, e: Effect, n: nat, x: LedgerEntry)
    requires LinksOk(db.wagers) && WalletsOk(db) && Admissible(db, e, n)
    requires EntryOk(db, x)
    ensures EntryOk(Apply(db, e), x)
  {
    DirectionAfter(db, e, n, db.wagers[x.transactionId]);
  }

  lemma KeepsLedger(db: Db, e: Effect, n: nat)
    requires LinksOk(db.wagers) && WalletsOk(db) && LedgerOk(db) && Admissible(db, e, n)
    ensures LedgerOk(Apply(db, e))
  {
    hide EntryOk, LinksOk, WalletsOk, Admissible;
    var db' := Apply(db, e);
    forall i | 0 <= i < |db.ledger| ensures EntryOk(db', db.ledger[i]) {
      EntryAfter(db, e, n, db.ledger[i]);
    }
    if e.movement.Some? {
      NewEntryOk(db, e, n);
      NewEntryIsAlone(db, e, n);
    }
  }

  lemma NewEntryOk(db: Db, e: Effect, n: nat)
    requires Admissible(db, e, n) && e.movement.Some?
    ensures EntryOk(Apply(db, e), e.movement.value.entry)
  {
    DirectionAfter(db, e, n, e.row);
  }

  /** A transaction that was not processed before has no entry yet, and the entry's id is fresh. */
  lemma NewEntryIsAlone(db: Db, e: Effect, n: nat)
    requires LedgerOk(db) && Admissible(db, e, n) && e.movement.Some?
    ensures forall i :: 0 <= i < |db.ledger| ==>
              && db.ledger[i].id != e.movement.value.entry.id
              && db.ledger[i].transactionId != e.movement.value.entry.transactionId
  {
    forall i | 0 <= i < |db.ledger|
      ensures db.ledger[i].id != e.movement.value.entry.id
      ensures db.ledger[i].transactionId != e.movement.value.entry.transactionId
    {
      assert EntryOk(db, db.ledger[i]);
    }
  }

  lemma KeepsEntered(db: Db, e: Effect, n: nat)
    requires AllEntered(db) && Admissible(db, e, n)
    ensures AllEntered(Apply(db, e))
  {
    var db' := Apply(db, e);
    forall id | id in db'.wagers && db'.wagers[id].status.Processed? && AffectsBalance(db'.wagers[id].order.kind)
      ensures Entered(db'.ledger, id)
    {
      if id == e.row.id {
        assert db'.ledger[|db.ledger|].transactionId == id;
      } else {
        var i :| 0 <= i < |db.ledger| && db.ledger[i].transactionId == id;
        assert db'.ledger[i].transactionId == id;
      }
    }
  }

  lemma OpeningEntryAfter(db: Db, e: Effect, n: nat, w: Id, k: nat)
    requires LedgerOk(db) && Admissible(db, e, n)
    requires k < |Entries(db.ledger, w)|
    ensures IsOpening(Apply(db, e).wagers, Entries(db.ledger, w)[k]) == IsOpening(db.wagers, Entries(db.ledger, w)[k])
  {
    EntriesMembers(db.ledger, w, k);
  }

  lemma VersionAppend(wagers: map<Id, Wager>, es: seq<LedgerEntry>, x: LedgerEntry, version: int)
    requires VersionFits(wagers, es, version) && !IsOpening(wagers, x)
    ensures VersionFits(wagers, es + [x], version + 1)
  {
    var es' := es + [x];
    forall i | 0 < i < |es'| ensures !IsOpening(wagers, es'[i]) {
      if i < |es| {
        assert !IsOpening(wagers, es[i]);
      }
    }
  }

  lemma OldVersionStillFits(db: Db, e: Effect, n: nat, w: Id, version: int)
    requires LedgerOk(db) && Admissible(db, e, n)
    requires VersionFits(db.wagers, Entries(db.ledger, w), version)
    ensures VersionFits(Apply(db, e).wagers, Entries(db.ledger, w), version)
  {
    var es := Entries(db.ledger, w);
    forall k | 0 <= k < |es| ensures IsOpening(Apply(db, e).wagers, es[k]) == IsOpening(db.wagers, es[k]) {
      OpeningEntryAfter(db, e, n, w, k);
    }
  }

  lemma VersionAfter(db: Db, e: Effect, n: nat, w: Id)
    requires MoveStep(db, e, n) && w in Apply(db, e).wallets
    requires if w in db.wallets then VersionFits(Apply(db, e).wagers, Entries(db.ledger, w), db.wallets[w].version)
             else Entries(db.ledger, w) == []
    ensures VersionFits(Apply(db, e).wagers, Entries(Apply(db, e).ledger, w), Apply(db, e).wallets[w].version)
  {
    if e.movement.Some? {
      var x := e.movement.value.entry;
      EntriesAppend(db.ledger, x, w);
      if x.walletId == w && w in db.wallets {
        VersionAppend(Apply(db, e).wagers, Entries(db.ledger, w), x, db.wallets[w].version);
      }
    }
  }

  lemma KeepsVersions(db: Db, e: Effect, n: nat)
    requires LedgerOk(db) && ChainsOk(db) && VersionsOk(db) && Admissible(db, e, n)
    ensures VersionsOk(Apply(db, e))
  {
    forall w | w in Apply(db, e).wallets
      ensures VersionFits(Apply(db, e).wagers, Entries(Apply(db, e).ledger, w), Apply(db, e).wallets[w].version)
    {
      if w in db.wallets {
        OldVersionStillFits(db, e, n, w, db.wallets[w].version);
      }
      VersionAfter(db, e, n, w);
    }
  }

  // ---------- events ----------

  lemma {:induction false} WagerDataAppend(a: seq<Event>, b: seq<Event>, t: Id)
    ensures WagerData(a + b, t) == WagerData(a, t) + WagerData(b, t)
    decreases |b|
  {
    if b == [] {
      assert a + b == a;
    } else {
      assert (a + b)[..|a + b| - 1] == a + b[..|b| - 1];
      WagerDataAppend(a, b[..|b| - 1], t);
    }
  }

  lemma {:induction false} WalletDataAppend(a: seq<Event>, b: seq<Event>, w: Id)
    ensures WalletData(a + b, w) == WalletData(a, w) + WalletData(b, w)
    decreases |b|
  {
    if b == [] {
      assert a + b == a;
    } else {
      assert (a + b)[..|a + b| - 1] == a + b[..|b| - 1];
      WalletDataAppend(a, b[..|b| - 1], w);
    }
  }

  lemma WagerDataShort(b: seq<Event>, t: Id)
    requires |b| <= 2
    ensures WagerData(b, t) ==
            (if |b| > 0 && IsAbout(b[0].data, t) then [b[0].data] else [])
            + (if |b| > 1 && IsAbout(b[1].data, t) then [b[1].data] else [])
  {
    if |b| == 2 {
      assert b[..1][..0] == [] && b[..1][0] == b[0];
      assert WagerData(b[..1], t) == if IsAbout(b[0].data, t) then [b[0].data] else [];
    }
  }

  lemma WalletDataShort(b: seq<Event>, w: Id)
    requires |b| <= 2
    ensures WalletData(b, w) ==
            (if |b| > 0 && IsBalanceOf(b[0].data, w) then [b[0].data] else [])
            + (if |b| > 1 && IsBalanceOf(b[1].data, w) then [b[1].data] else [])
  {
    if |b| == 2 {
      assert b[..1][..0] == [] && b[..1][0] == b[0];
      assert WalletData(b[..1], w) == if IsBalanceOf(b[0].data, w) then [b[0].data] else [];
    }
  }

  /** What a commit tells about each wager: its own news, and nothing about any other. */
  lemma NewWagerData(db: Db, e: Effect, n: nat, t: Id)
    requires NewsStep(db, e, n)
    ensures WagerData(e.events, t) == if t == e.row.id then News(db, e.row) else []
  {
    WagerDataShort(e.events, t);
  }

  lemma NewWalletData(db: Db, e: Effect, n: nat, w: Id)
    requires NewsStep(db, e, n) && MoveStep(db, e, n)
    ensures WalletData(e.events, w) ==
            if e.movement.Some? && w == e.movement.value.wallet.id then MovementData(e.movement) else []
  {
    WalletDataShort(e.events, w);
  }

  /** A row's announcements grow by exactly the news of the commit that writes it. */
  lemma AnnouncedAfter(db: Db, e: Effect, n: nat)
    requires RowsOk(db) && ClocksOk(db) && RowStep(db, e.row, n) && ClockOk(e.row) && !e.row.status.Pending?
    requires WagerChecks(e.row)
    ensures Announced(e.row) ==
            (if e.row.id in db.wagers then Announced(db.wagers[e.row.id]) else []) + News(db, e.row)
  {
  }

  lemma WagerEventsAfter(db: Db, e: Effect, n: nat, t: Id)
    requires RowsOk(db) && ClocksOk(db) && WagerEventsOk(db, t) && Admissible(db, e, n)
    ensures WagerEventsOk(Apply(db, e), t)
  {
    WagerDataAppend(db.outbox, e.events, t);
    NewWagerData(db, e, n, t);
    AnnouncedAfter(db, e, n);
  }

  lemma HistoryAppend(es: seq<LedgerEntry>, x: LedgerEntry, version: int)
    ensures BalanceHistory(es + [x], version) == BalanceHistory(es, version - 1) + [BalanceData(x, version)]
  {
    assert (es + [x])[..|es|] == es;
  }

  predicate Moves(e: Effect, w: Id) {
    e.movement.Some? && e.movement.value.wallet.id == w
  }

  lemma StillWalletEvents(db: Db, e: Effect, n: nat, w: Id)
    requires NewsStep(db, e, n) && MoveStep(db, e, n) && WalletEventsOk(db, w) && !Moves(e, w)
    ensures WalletEventsOk(Apply(db, e), w)
  {
    var db' := Apply(db, e);
    WalletDataAppend(db.outbox, e.events, w);
    NewWalletData(db, e, n, w);
    assert WalletData(db'.outbox, w) == WalletData(db.outbox, w);
    if e.movement.Some? {
      EntriesAppend(db.ledger, e.movement.value.entry, w);
    }
    assert Entries(db'.ledger, w) == Entries(db.ledger, w);
    assert w in db'.wallets <==> w in db.wallets;
    assert w in db.wallets ==> db'.wallets[w] == db.wallets[w];
  }

  /** The wallet's announcements before the movement, whether it is new or not. */
  lemma HistoryBefore(db: Db, m: Movement, t: Wager, n: nat)
    requires MoveOk(db, t, m, n) && WalletEventsOk(db, m.wallet.id)
    requires m.wallet.id !in db.wallets ==> Entries(db.ledger, m.wallet.id) == []
    ensures WalletData(db.outbox, m.wallet.id) == BalanceHistory(Entries(db.ledger, m.wallet.id), m.wallet.version - 1)
  {
    hide Entries, WalletData, DirectionOf, LedgerChecks;
  }

  lemma MovedWalletEvents(db: Db, e: Effect, w: Id)
    requires Moves(e, w) && WalletData(e.events, w) == MovementData(e.movement)
    requires e.movement.value.entry.walletId == w
    requires WalletData(db.outbox, w) == BalanceHistory(Entries(db.ledger, w), e.movement.value.wallet.version - 1)
    ensures WalletEventsOk(Apply(db, e), w)
  {
    var m := e.movement.value;
    var es := Entries(db.ledger, w);
    WalletDataAppend(db.outbox, e.events, w);
    HistoryAppend(es, m.entry, m.wallet.version);
    assert Entries(Apply(db, e).ledger, w) == es + [m.entry] by {
      EntriesAppend(db.ledger, m.entry, w);
    }
  }

  lemma KeepsEventIds(db: Db, e: Effect, n: nat)
    requires Fresh(db, n) && NewsStep(db, e, n)
    requires forall i, j :: 0 <= i < j < |db.outbox| ==> db.outbox[i].eventId != db.outbox[j].eventId
    ensures forall i, j :: 0 <= i < j < |Apply(db, e).outbox| ==>
              Apply(db, e).outbox[i].eventId != Apply(db, e).outbox[j].eventId
  {
  }

  lemma OneWalletsEvents(db: Db, e: Effect, n: nat, w: Id)
    requires ChainsOk(db) && NewsStep(db, e, n) && MoveStep(db, e, n) && WalletEventsOk(db, w)
    ensures WalletEventsOk(Apply(db, e), w)
  {
    hide NewsStep, WalletEventsOk, Entries, WalletData, BalanceHistory, Apply;
    if Moves(e, w) {
      NewWalletData(db, e, n, w);
      HistoryBefore(db, e.movement.value, e.row, n);
      MovedWalletEvents(db, e, w);
    } else {
      StillWalletEvents(db, e, n, w);
    }
  }

  lemma KeepsWalletEvents(db: Db, e: Effect, n: nat)
    requires ChainsOk(db) && NewsStep(db, e, n) && MoveStep(db, e, n)
    requires forall w :: WalletEventsOk(db, w)
    ensures forall w :: WalletEventsOk(Apply(db, e), w)
  {
    forall w: Id ensures WalletEventsOk(Apply(db, e), w) {
      assert WalletEventsOk(db, w);
      hide WalletEventsOk, ChainsOk;
      OneWalletsEvents(db, e, n, w);
    }
  }

  lemma KeepsEvents(db: Db, e: Effect, n: nat)
    requires RowsOk(db) && ClocksOk(db) && ChainsOk(db) && EventsOk(db) && Admissible(db, e, n)
    ensures EventsOk(Apply(db, e))
  {
    forall t: Id ensures WagerEventsOk(Apply(db, e), t) {
      WagerEventsAfter(db, e, n, t);
    }
    KeepsWalletEvents(db, e, n);
    KeepsEventIds(db, e, n);
  }
}
