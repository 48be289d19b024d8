/** What holds in every state the service can commit, in one place. */
module Theorems {
  import opened Wrappers
  import opened Domain
  import opened Store
  import opened Decisions
  import opened Invariants
  import opened Preservation
  import opened Runs
  import opened States
  import opened Reconciliation
  import opened Sums
  import opened Machine
  import opened Idempotency
  import opened Lookups
  import opened Rulebook
  import Payload

  /** The balance is the opening amount plus the WINs and minus the BETs that no active reversal cancels. */
  lemma BalanceIsNet(db: Db, w: Id)
    requires Committed(db) && w in db.wallets
    ensures db.wallets[w].balance.cents == Sum(db.wagers.Keys, Contributions(db.wagers, w))
    ensures 0 <= db.wallets[w].balance.cents <= MAX_CENTS
  {
    CommittedIsGood(db);
    assert NetOk(db) && WalletsOk(db);
    hide Inv;
  }

  /** A BET or WIN with its whole tree of reversals moves its own amount, or nothing while it is reversed. */
  lemma EveryTreeNets(db: Db, b: Id)
    requires Committed(db) && b in db.wagers && IsRoot(db.wagers[b])
    ensures Sum(db.wagers.Keys, TreeMoney(db.wagers, b)) ==
            if HasActiveReversal(db.wagers, b) then 0
            else if db.wagers[b].order.kind.Bet? then -db.wagers[b].order.money.cents
            else db.wagers[b].order.money.cents
  {
    CommittedIsGood(db);
    assert TreeOk(db.wagers, b);
  }

  lemma OneActiveReversal(db: Db, r: Id, a: Id, b: Id)
    requires Committed(db) && ActivelyReverses(db.wagers, a, r) && ActivelyReverses(db.wagers, b, r)
    ensures a == b
  {
    CommittedIsGood(db);
  }

  /** No committed row is its own reference. */
  lemma NoSelfReference(db: Db, id: Id)
    requires Committed(db) && id in db.wagers
    ensures db.wagers[id].referenceId != Some(id)
  {
    CommittedIsGood(db);
    assert WagerChecks(db.wagers[id]);
  }

  /** The operation behind an entry is processed, and answers for ever with the balance the entry left. */
  lemma EntriesAreAnswered(db: Db, i: nat)
    requires Committed(db) && i < |db.ledger|
    ensures var e := db.ledger[i];
            && e.transactionId in db.wagers
            && var t := db.wagers[e.transactionId];
               t.status == Processed && t.order.walletId == e.walletId && t.order.money == e.money
               && t.resultBalance == Some(Cash(e.after, e.money.currency))
  {
    CommittedIsGood(db);
    assert LedgerOk(db);
    hide Inv;
    assert EntryOk(db, db.ledger[i]);
  }

  /** Every stored link leads to what the rules allow: told on the fields of the two rows. */
  lemma LinksObeyTheRules(db: Db, id: Id)
    requires Committed(db) && id in db.wagers
    ensures var t := db.wagers[id];
            && (t.status == Processed && (t.order.kind.Refund? || t.order.kind.Rollback?) ==> t.referenceId.Some?)
            && (t.referenceId.Some? ==>
                  && t.status == Processed && t.referenceId.value in db.wagers
                  && var r := db.wagers[t.referenceId.value];
                     && r.status == Processed
                     && r.order.providerId == t.order.providerId && r.order.playerId == t.order.playerId
                     && r.order.walletId == t.order.walletId && r.order.roundId == t.order.roundId
                     && r.order.money.currency == t.order.money.currency
                     && (t.order.kind.Refund? || t.order.kind.Rollback? || t.order.kind.Win?)
                     && (t.order.kind.Rollback? ==> r.order.kind.Bet? || r.order.kind.Win? || r.order.kind.Refund?)
                     && (!t.order.kind.Rollback? ==> r.order.kind.Bet?)
                     && (!t.order.kind.Win? ==> r.order.money.cents == t.order.money.cents))
  {
    hide Committed, Inv;
    CommittedIsGood(db);
    RowLinks(db, id);
  }

  lemma RowLinks(db: Db, id: Id)
    requires Inv(db) && id in db.wagers
    ensures var t := db.wagers[id];
            && (t.status.Processed? && RequiresReference(t.order.kind) ==> t.referenceId.Some?)
            && (t.referenceId.Some? ==> LinkOk(db.wagers, t))
  {
    assert LinksOk(db.wagers);
    hide Inv, LinkOk;
  }

  /** The version is one more than the movements after the opening. */
  lemma VersionCountsMovements(db: Db, w: Id)
    requires Committed(db) && w in db.wallets
    ensures var es := Entries(db.ledger, w);
            db.wallets[w].version == 1 + |es| - (if es != [] && IsOpening(db.wagers, es[0]) then 1 else 0)
  {
    CommittedIsGood(db);
    assert VersionsOk(db);
    hide Inv;
  }

  /** No committed row is PENDING, and a consumed message is a processed one. */
  lemma NothingHalfDone(db: Db)
    requires Committed(db)
    ensures forall id :: id in db.wagers ==> !db.wagers[id].status.Pending?
    ensures forall k :: k in db.inbox ==> db.inbox[k].processedAt.Some?
  {
    CommittedIsGood(db);
    assert RowsOk(db) && InboxOk(db);
    hide Inv;
  }

  // ---------- reversals ----------

  /** A reversal of r that is sound in everything but the slot: its wallet, its reference and the binding rules. */
  ghost predicate SoundReversal(db: Db, c: Command, now: int, n: nat, r: Wager) {
    var o := OrderOf(c, now);
    && SubmitFailure(c).None? && RequiresReference(c.kind) && IdentityFree(db.wagers, Candidate(c, now, n))
    && r.id in db.wagers && db.wagers[r.id] == r && ReferencesExternal(o, r) && ReversalFailure(o, r).None?
    && c.walletId in db.wallets && db.wallets[c.walletId].playerId == c.playerId
    && db.wallets[c.walletId].balance.currency == c.money.currency
  }

  /**
   * A sound reversal is processed exactly when the slot of its reference is free and the wallet
   * can take the movement; in particular BET, REFUND, ROLLBACK of the same BET credits once.
   */
  lemma SlotDecidesReversal(db: Db, c: Command, now: int, n: nat, r: Wager)
    requires Inv(db) && SoundReversal(db, c, now, n, r)
    ensures var row := SubmissionEffect(db, c, now, n).row;
            var d := DirectionFor(c.kind, Some(r.order.kind));
            && d.Success?
            && (row.status.Processed? <==>
                  !HasActiveReversal(db.wagers, r.id)
                  && MovementFailure(db.wallets[c.walletId], c.kind, c.money.cents, d.value).None?)
            && row.failure == if HasActiveReversal(db.wagers, r.id) then Some(ReferenceAlreadyReversed)
                              else MovementFailure(db.wallets[c.walletId], c.kind, c.money.cents, d.value)
  {
    hide Payload.PayloadHash, Inv, HasActiveReversal, IdentityFree, DecideSubmission, DirectionFor, MovementFailure;
    var t := Candidate(c, now, n);
    ReferenceIsFound(db, t, r);
    VisibleSlots(db, t, r.id);
    var w := db.wallets[c.walletId];
    var active := HasActiveReversal(db.wagers, r.id);
    assert ReadsFor(db, t) == Reads(Some(w), Some(r), active);
    hide ReadsFor, ReferencesExternal, ReversalFailure;
    SlotDecides(t, w, r, active, now, ContextOf(c, now, n), n);
  }

  lemma SlotDecides(t: Wager, w: WalletRow, r: Wager, active: bool, now: int, context: Context, n: nat)
    requires RequiresReference(t.order.kind) && ReversalFailure(t.order, r).None? && t.status.Pending? && t.failure.None?
    requires w.playerId == t.order.playerId && w.balance.currency == t.order.money.currency
    ensures var row := DecideSubmission(t, Reads(Some(w), Some(r), active), now, context, n).row;
            var d := DirectionFor(t.order.kind, Some(r.order.kind));
            && d.Success?
            && (row.status.Processed? <==> !active && MovementFailure(w, t.order.kind, t.order.money.cents, d.value).None?)
            && row.failure == if active then Some(ReferenceAlreadyReversed)
                              else MovementFailure(w, t.order.kind, t.order.money.cents, d.value)
  {
  }

  lemma ReferenceIsFound(db: Db, t: Wager, r: Wager)
    requires Inv(db) && IdentityFree(db.wagers, t) && !t.status.Processed?
    requires r.id in db.wagers && db.wagers[r.id] == r && ReferencesExternal(t.order, r)
    ensures ReferenceOf(db, t) == Some(r) && t.id !in db.wagers
  {
    assert IdentitiesOk(db.wagers);
    hide Inv;
    ReservedIdentities(db, t);
    ExternalIsUnique(Visible(db, t), r.id, t.order.providerId, t.order.referenceExternalId.value);
  }

  // ---------- one key, one operation ----------

  /** Two commands ask for the same thing: every business field is the same, whatever their keys and tracing ids. */
  predicate SameBusiness(c: Command, d: Command) {
    && c.providerId == d.providerId && c.externalId == d.externalId
    && c.playerId == d.playerId && c.walletId == d.walletId
    && c.roundId == d.roundId && c.gameId == d.gameId
    && c.kind == d.kind && c.money == d.money
    && c.referenceExternalId == d.referenceExternalId
  }

  /** The stored hash tells exactly whether two commands ask for the same thing. */
  lemma HashTellsBusiness(c: Command, d: Command, now: int, later: int)
    requires SubmitFailure(c).None? && SubmitFailure(d).None?
    ensures OrderOf(c, now).payloadHash == OrderOf(d, later).payloadHash <==> SameBusiness(c, d)
  {
    Payload.PayloadHashInjective(PayloadOf(c), PayloadOf(d));
    hide Payload.PayloadHash;
  }

  /**
   * After a submission has won its key, every later submission under that key, in any run, writes
   * nothing: it is answered from the stored row if its business payload is the same, and refused if not.
   */
  lemma OneKeyOneOperation(db: Db, c: Command, now: int, n: nat, ops: seq<Op>, d: Command, later: int, m: nat)
    requires Inv(db) && Fresh(db, n) && SubmitFailure(c).None? && IdentityFree(db.wagers, Candidate(c, now, n))
    requires Numbered(Submit(db, c, now, n).0, ops)
    requires SubmitFailure(d).None? && d.providerId == c.providerId && d.idempotencyKey == c.idempotencyKey
    ensures var end := Run(Submit(db, c, now, n).0, ops);
            && WagerId(n) in end.wagers
            && Submit(end, d, later, m).0 == end
            && Submit(end, d, later, m).1 ==
               if SameBusiness(d, c) then Success(ResultOf(end.wagers[WagerId(n)], true))
               else Failure(IdempotencyKeyConflict(WagerId(n)))
  {
    hide Payload.PayloadHash, Inv, Fresh, IdentityFree, SubmissionEffect, Numbered, Run, Admissible;
    var after := Submit(db, c, now, n).0;
    SubmissionRow(db, c, now, n);
    SubmitKeepsInv(db, c, now, n);
    HistoryIsAppendOnly(after, ops);
    RunKeepsInv(after, ops);
    var end := Run(after, ops);
    KeyTakenByWinner(end, WagerId(n), c, now, d, later, m);
    HashTellsBusiness(c, d, now, later);
  }

  lemma KeyTakenByWinner(end: Db, id: Id, c: Command, now: int, d: Command, later: int, m: nat)
    requires Inv(end) && id in end.wagers && end.wagers[id].order == OrderOf(c, now)
    requires d.providerId == c.providerId && d.idempotencyKey == c.idempotencyKey
    ensures !IdentityFree(end.wagers, Candidate(d, later, m))
    ensures FindByIdempotencyKey(end.wagers, d.providerId, d.idempotencyKey) == Some(end.wagers[id])
    ensures end.wagers[id].id == id
  {
    assert IdentitiesOk(end.wagers) && RowsOk(end);
    hide Payload.PayloadHash, Inv, IdentitiesOk;
    KeyIsUnique(end.wagers, id, d.providerId, d.idempotencyKey);
    assert SameKey(end.wagers[id].order, Candidate(d, later, m).order);
  }

  // ---------- the outbox as an event source ----------

  /** How often the outbox announces something about t that `which` selects. */
  function Announcements(outbox: seq<Event>, t: Id, which: EventData -> bool): nat {
    if outbox == [] then 0
    else
      var d := outbox[|outbox| - 1].data;
      Announcements(outbox[..|outbox| - 1], t, which) + (if IsAbout(d, t) && which(d) then 1 else 0)
  }

  function CountData(ds: seq<EventData>, which: EventData -> bool): nat {
    if ds == [] then 0 else CountData(ds[..|ds| - 1], which) + (if which(ds[|ds| - 1]) then 1 else 0)
  }

  lemma {:induction false} AnnouncementsAreCounted(outbox: seq<Event>, t: Id, which: EventData -> bool)
    ensures Announcements(outbox, t, which) == CountData(WagerData(outbox, t), which)
    decreases |outbox|
  {
    if outbox != [] {
      var front := outbox[..|outbox| - 1];
      var d := outbox[|outbox| - 1].data;
      AnnouncementsAreCounted(front, t, which);
      if IsAbout(d, t) {
        assert (WagerData(front, t) + [d])[..|WagerData(front, t)|] == WagerData(front, t);
      } else {
        assert WagerData(outbox, t) == WagerData(front, t);
      }
    }
  }

  predicate IsProcessed(d: EventData) { d.WagerProcessed? }

  predicate IsRejected(d: EventData) { d.WagerRejected? }

  predicate IsWaiting(d: EventData) { d.WagerPendingReference? }

  lemma CountShort(ds: seq<EventData>, which: EventData -> bool)
    requires |ds| <= 2
    ensures CountData(ds, which) ==
            (if |ds| > 0 && which(ds[0]) then 1 else 0) + (if |ds| > 1 && which(ds[1]) then 1 else 0)
  {
    if |ds| == 2 {
      assert ds[..1][..0] == [];
      assert CountData(ds[..1], which) == if which(ds[0]) then 1 else 0;
    }
  }

  /**
   * A processed wager has one Processed event and no Rejected one, a rejected or failed wager
   * the reverse, a waiting one neither; and whoever ever waited has one PendingReference event.
   */
  lemma EachOutcomeAnnouncedOnce(db: Db, id: Id)
    requires Committed(db) && id in db.wagers
    ensures var t := db.wagers[id];
            && Announcements(db.outbox, id, IsProcessed) == (if t.status.Processed? then 1 else 0)
            && Announcements(db.outbox, id, IsRejected) ==
               (if t.status.Rejected? || t.status.Failed? then 1 else 0)
            && Announcements(db.outbox, id, IsWaiting) == (if t.expiresAt.Some? then 1 else 0)
  {
    CommittedIsGood(db);
    assert WagerEventsOk(db, id);
    hide Inv, Committed;
    var ds := Announced(db.wagers[id]);
    AnnouncementsAreCounted(db.outbox, id, IsProcessed);
    AnnouncementsAreCounted(db.outbox, id, IsRejected);
    AnnouncementsAreCounted(db.outbox, id, IsWaiting);
    CountShort(ds, IsProcessed);
    CountShort(ds, IsRejected);
    CountShort(ds, IsWaiting);
  }

  /**
   * Field by field: a wager that ever waited is announced as waiting first, and a settled one as
   * what it became last; nothing else is ever announced about it.
   */
  lemma EventsTellTheRow(db: Db, id: Id)
    requires Committed(db) && id in db.wagers
    ensures var t := db.wagers[id];
            var ds := WagerData(db.outbox, id);
            && |ds| == (if t.expiresAt.Some? then 1 else 0) + (if SettledRow(t) then 1 else 0)
            && (t.expiresAt.Some? ==> TellsWait(ds[0], t))
            && (SettledRow(t) ==> TellsRow(ds[|ds| - 1], t))
  {
    hide Committed, Inv, Announced, TellsRow, TellsWait, WagerData;
    CommittedIsGood(db);
    RowIsAnnounced(db, id);
    RowIsWellFormed(db, id);
    AnnouncedTells(db.wagers[id]);
  }

  lemma RowIsAnnounced(db: Db, id: Id)
    requires Inv(db) && id in db.wagers
    ensures WagerData(db.outbox, id) == Announced(db.wagers[id])
  {
    assert WagerEventsOk(db, id);
    hide Inv;
  }

  lemma AnnouncedTells(t: Wager)
    requires SettledRow(t) <==> t.processedAt.Some?
    requires t.expiresAt.Some? ==> t.order.referenceExternalId.Some?
    ensures var ds := Announced(t);
            && |ds| == (if t.expiresAt.Some? then 1 else 0) + (if SettledRow(t) then 1 else 0)
            && (t.expiresAt.Some? ==> TellsWait(ds[0], t))
            && (SettledRow(t) ==> TellsRow(ds[|ds| - 1], t))
  {
  }

  lemma RowIsWellFormed(db: Db, id: Id)
    requires Inv(db) && id in db.wagers
    ensures var t := db.wagers[id];
            && t.id == id && (SettledRow(t) <==> t.processedAt.Some?)
            && (t.expiresAt.Some? ==> t.order.referenceExternalId.Some?)
  {
    assert RowsOk(db) && ClocksOk(db) && WagerChecks(db.wagers[id]) && ClockOk(db.wagers[id]);
    hide Inv;
  }

  /** A reader of WalletBalanceChanged: it follows one event after the other, and stops at a gap. */
  datatype View = View(balance: int, version: int) | Broken

  function Follow(view: View, d: EventData): View
    requires d.BalanceChanged?
  {
    if view.Broken? then Broken
    else if d.before != view.balance || d.walletVersion != view.version + 1 then Broken
    else View(d.after, d.walletVersion)
  }

  function FollowAll(view: View, ds: seq<EventData>): View
    requires forall i :: 0 <= i < |ds| ==> ds[i].BalanceChanged?
  {
    if ds == [] then view else Follow(FollowAll(view, ds[..|ds| - 1]), ds[|ds| - 1])
  }

  lemma {:induction false} HistoryShape(es: seq<LedgerEntry>, version: int)
    ensures |BalanceHistory(es, version)| == |es|
    ensures forall i :: 0 <= i < |es| ==>
              BalanceHistory(es, version)[i] == BalanceData(es[i], version - (|es| - 1 - i))
    decreases |es|
  {
    if es != [] {
      HistoryShape(es[..|es| - 1], version - 1);
    }
  }

  lemma {:induction false} FollowingAChain(es: seq<LedgerEntry>, version: int)
    requires es != [] ==> Chained(es, es[|es| - 1].after)
    ensures forall i :: 0 <= i < |BalanceHistory(es, version)| ==> BalanceHistory(es, version)[i].BalanceChanged?
    ensures FollowAll(View(0, version - |es|), BalanceHistory(es, version)) ==
            View(if es == [] then 0 else es[|es| - 1].after, version)
    decreases |es|
  {
    HistoryShape(es, version);
    if es != [] {
      var front := es[..|es| - 1];
      var ds := BalanceHistory(es, version);
      assert ds[..|ds| - 1] == BalanceHistory(front, version - 1);
      FollowingAChain(front, version - 1);
    }
  }

  lemma EventsAreHistory(db: Db, w: Id)
    requires Committed(db) && w in db.wallets
    ensures WalletData(db.outbox, w) == BalanceHistory(Entries(db.ledger, w), db.wallets[w].version)
    ensures Chained(Entries(db.ledger, w), db.wallets[w].balance.cents)
  {
    CommittedIsGood(db);
    assert WalletEventsOk(db, w) && ChainsOk(db);
    hide Inv, Committed, Chained;
  }

  /**
   * The outbox replays the wallet: its WalletBalanceChanged events are the ledger entries one
   * to one, with consecutive versions, and a reader that follows them ends at the stored row.
   */
  lemma EventsReplayTheWallet(db: Db, w: Id)
    requires Committed(db) && w in db.wallets
    ensures var es := Entries(db.ledger, w);
            var ds := WalletData(db.outbox, w);
            && |ds| == |es|
            && (forall i :: 0 <= i < |ds| ==> ds[i].BalanceChanged?)
            && (forall i :: 0 <= i < |es| ==> TellsEntry(ds[i], es[i], db.wallets[w].version - (|es| - 1 - i)))
            && FollowAll(View(0, db.wallets[w].version - |es|), ds) ==
               View(db.wallets[w].balance.cents, db.wallets[w].version)
  {
    hide Committed, BalanceHistory, TellsEntry, Entries, WalletData, Chained;
    EventsAreHistory(db, w);
    ChainOfWallet(db, w);
    HistoryTells(Entries(db.ledger, w), db.wallets[w].version);
    FollowingAChain(Entries(db.ledger, w), db.wallets[w].version);
  }

  lemma ChainOfWallet(db: Db, w: Id)
    requires Committed(db) && w in db.wallets
    ensures var es := Entries(db.ledger, w);
            && (es != [] ==> Chained(es, es[|es| - 1].after) && es[|es| - 1].after == db.wallets[w].balance.cents)
            && (es == [] ==> db.wallets[w].balance.cents == 0)
  {
    hide Committed;
    EventsAreHistory(db, w);
  }

  lemma HistoryTells(es: seq<LedgerEntry>, version: int)
    ensures |BalanceHistory(es, version)| == |es|
    ensures forall i :: 0 <= i < |es| ==> TellsEntry(BalanceHistory(es, version)[i], es[i], version - (|es| - 1 - i))
  {
    HistoryShape(es, version);
  }
}
