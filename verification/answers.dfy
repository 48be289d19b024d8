/**
 * What every operation does and answers, for each class of input, stated on the tables: module
 * Rulebook gives the rulings, and the use cases of module Machine are proved to give the same.
 */
module Answers {
  import opened Wrappers
  import opened Domain
  import opened Store
  import opened Decisions
  import opened Invariants
  import opened Commits
  import opened Machine
  import opened Lookups
  import opened Runs
  import opened Idempotency
  import opened Rulebook
  import opened Moneys
  import Backoff
  import Payload

  // ---------- before a row is reserved ----------

  /** A command that may be reserved, field by field. */
  predicate Acceptable(c: Command) {
    && 0 < c.money.cents <= 99_999_999_999_999_999_999 && ThreeCapitals(c.money.currency)
    && !c.kind.Opening? && c.providerId != "internal"
    && (c.kind.Refund? || c.kind.Rollback? ==> c.referenceExternalId.Some? && c.referenceExternalId.value != "")
    && (c.kind.Bet? || c.kind.Loss? ==> c.referenceExternalId.None?)
  }

  predicate TakenKey(db: Db, c: Command, id: Id) {
    id in db.wagers && db.wagers[id].order.providerId == c.providerId
    && db.wagers[id].order.idempotencyKey == c.idempotencyKey
  }

  predicate TakenExternal(db: Db, c: Command, id: Id) {
    id in db.wagers && db.wagers[id].order.providerId == c.providerId
    && db.wagers[id].order.externalId == c.externalId
  }

  ghost predicate Unused(db: Db, c: Command) {
    forall id :: !TakenKey(db, c, id) && !TakenExternal(db, c, id)
  }

  lemma AcceptableMeansNoFailure(c: Command)
    ensures Acceptable(c) <==> SubmitFailure(c).None?
  {
  }

  /** A command that is not acceptable writes nothing, and the first thing wrong with it is the answer. */
  lemma UnacceptableIsRefused(db: Db, c: Command, now: int, n: nat)
    requires !Acceptable(c)
    ensures Submit(db, c, now, n) ==
            (db, Failure(
               if c.money.cents < 0 || c.money.cents > 99_999_999_999_999_999_999 || !ThreeCapitals(c.money.currency)
               then DomainFailure(InvalidMoney)
               else if c.money.cents == 0 then AmountNotPositive
               else if c.kind.Opening? || c.providerId == "internal" || c.kind.Refund? || c.kind.Rollback?
               then DomainFailure(InvalidWagerTransaction)
               else ConstraintViolated))
  {
    hide Payload.PayloadHash;
  }

  /** An identity that is taken writes nothing: the key replays or conflicts, an external id alone is reused. */
  lemma UsedIsAnswered(db: Db, c: Command, now: int, n: nat, id: Id)
    requires Inv(db) && Acceptable(c)
    ensures TakenKey(db, c, id) ==>
              var row := db.wagers[id];
              Submit(db, c, now, n) ==
              (db, if row.order.payloadHash == OrderOf(c, now).payloadHash
                   then Success(SubmitResult(id, row.status, row.resultBalance, row.failure, true))
                   else Failure(IdempotencyKeyConflict(id)))
    ensures TakenExternal(db, c, id) && (forall other :: !TakenKey(db, c, other)) ==>
              Submit(db, c, now, n) == (db, Failure(ExternalTransactionIdReused(id)))
  {
    AcceptableMeansNoFailure(c);
    GoodParts(db);
    hide Payload.PayloadHash, Inv, IdentitiesOk, OpeningsOk, SubmissionEffect;
    var t := Candidate(c, now, n);
    if TakenKey(db, c, id) {
      assert SameKey(db.wagers[id].order, t.order);
      KeyIsUnique(db.wagers, id, c.providerId, c.idempotencyKey);
      RowIsNamed(db, id);
    } else if TakenExternal(db, c, id) && (forall other :: !TakenKey(db, c, other)) {
      assert SameExternal(db.wagers[id].order, t.order);
      ExternalIsUnique(db.wagers, id, c.providerId, c.externalId);
      RowIsNamed(db, id);
      NoSuchKey(db, c);
    }
  }

  lemma NoSuchKey(db: Db, c: Command)
    requires forall other :: !TakenKey(db, c, other)
    ensures FindByIdempotencyKey(db.wagers, c.providerId, c.idempotencyKey).None?
  {
    var found := FindByIdempotencyKey(db.wagers, c.providerId, c.idempotencyKey);
    if found.Some? {
      var id :| id in db.wagers && db.wagers[id] == found.value && IsKey(found.value, c.providerId, c.idempotencyKey);
      assert TakenKey(db, c, id);
    }
  }

  // ---------- submissions ----------

  predicate RefersTo(t: Wager, r: Wager) {
    t.order.referenceExternalId == Some(r.order.externalId) && r.order.providerId == t.order.providerId
  }

  /** r is the row that the operation refers to, if there is one; it may be its own. */
  ghost predicate Names(wagers: map<Id, Wager>, t: Wager, r: Option<Wager>) {
    if r.Some? then RefersTo(t, r.value) && (r.value == t || (r.value.id in wagers && wagers[r.value.id] == r.value))
    else !RefersTo(t, t) && forall id :: id in wagers ==> !RefersTo(t, wagers[id])
  }

  lemma NamedIsFound(db: Db, t: Wager, r: Option<Wager>)
    requires IdentitiesOk(Visible(db, t)) && RowsOk(db) && Names(db.wagers, t, r)
    requires t.id in db.wagers ==> db.wagers[t.id] == t
    ensures ReferenceOf(db, t) == r
  {
    var visible := Visible(db, t);
    if r.Some? {
      ExternalIsUnique(visible, r.value.id, t.order.providerId, r.value.order.externalId);
    }
  }

  /** There is always an answer to what an operation refers to. */
  lemma SomethingIsNamed(db: Db, t: Wager) returns (r: Option<Wager>)
    requires RowsOk(db) && (t.id in db.wagers ==> db.wagers[t.id] == t)
    ensures Names(db.wagers, t, r)
  {
    r := ReferenceOf(db, t);
    var visible := Visible(db, t);
    if r.Some? {
      var id :| id in visible && visible[id] == r.value
                && IsExternal(r.value, t.order.providerId, t.order.referenceExternalId.value);
    } else {
      assert forall id :: id in db.wagers && id != t.id ==> visible[id] == db.wagers[id];
      assert visible[t.id] == t;
    }
  }

  /** The row of a new submission, before it is decided. */
  predicate AsksFor(t: Wager, c: Command, now: int, n: nat) {
    && t == Wager(Id(n, 0), t.order, Pending, None, None, None, 0, None, None, None)
    && t.order.providerId == c.providerId && t.order.externalId == c.externalId
    && t.order.idempotencyKey == c.idempotencyKey && t.order.walletId == c.walletId
    && t.order.playerId == c.playerId && t.order.roundId == c.roundId && t.order.gameId == c.gameId
    && t.order.kind == c.kind && t.order.money == c.money && t.order.referenceExternalId == c.referenceExternalId
    && t.order.correlationId == c.correlationId && t.order.createdAt == now
  }

  function WalletFor(db: Db, o: Order): Option<WalletRow> {
    if o.walletId in db.wallets then Some(db.wallets[o.walletId]) else None
  }

  /** The tables after a ruling: one row, at most one movement, the events, and nothing else. */
  ghost predicate Ruled(before: Db, after: Db, t: Wager, ruling: Ruling, context: Context, at: int, n: nat) {
    var w := WalletFor(before, t.order);
    var row := RowAfter(t, w, ruling, at);
    var change := Change(ruling);
    && after.wagers == before.wagers[t.id := row] && after.inbox == before.inbox
    && before.outbox <= after.outbox
    && (change == 0 ==>
          && after.wallets == before.wallets && after.ledger == before.ledger
          && Tells(after.outbox[|before.outbox|..], context, row, None, n))
    && (change != 0 ==>
          && w.Some?
          && var entry := EntryAfter(t, w.value, change, at, n);
          && after.wallets == before.wallets[w.value.id := WalletAfter(w.value, change, at)]
          && after.ledger == before.ledger + [entry]
          && Tells(after.outbox[|before.outbox|..], context, row, Some((entry, w.value.version + 1)), n))
  }

  lemma WritesAreRuled(db: Db, e: Effect, t: Wager, ruling: Ruling, context: Context, at: int, n: nat)
    requires Writes(e, t, WalletFor(db, t.order), ruling, context, at, n)
    ensures Ruled(db, Apply(db, e), t, ruling, context, at, n)
  {
    hide Tells, RowAfter, WalletAfter, EntryAfter;
    assert e.row.id == t.id by {
      RowKeepsId(t, WalletFor(db, t.order), ruling, at);
    }
    assert (db.outbox + e.events)[|db.outbox|..] == e.events;
    if Change(ruling) != 0 {
      WalletKeepsId(WalletFor(db, t.order).value, Change(ruling), at);
    }
  }

  lemma RowKeepsId(t: Wager, w: Option<WalletRow>, ruling: Ruling, at: int)
    ensures RowAfter(t, w, ruling, at).id == t.id
  {
  }

  lemma WalletKeepsId(w: WalletRow, change: int, at: int)
    ensures WalletAfter(w, change, at).id == w.id
  {
  }

  function SubmissionContext(c: Command, now: int, n: nat): Context {
    Context(Id(n, 1), c.correlationId, if c.causationId.Some? then CausedByMessage(c.causationId.value) else NoCause, now)
  }

  ghost function SlotTaken(wagers: map<Id, Wager>, r: Option<Wager>): bool {
    r.Some? && HasActiveReversal(wagers, r.value.id)
  }

  lemma SubmissionReads(db: Db, c: Command, now: int, n: nat, r: Option<Wager>)
    requires Inv(db) && Fresh(db, n) && Acceptable(c) && Unused(db, c) && Names(db.wagers, Candidate(c, now, n), r)
    ensures var t := Candidate(c, now, n);
            && IdentityFree(db.wagers, t)
            && ReadsFor(db, t) == Reads(WalletFor(db, t.order), r, SlotTaken(db.wagers, r))
            && WalletSound(WalletFor(db, t.order))
  {
    hide Payload.PayloadHash, Names, HasActiveReversal;
    var t := Candidate(c, now, n);
    FreshIsUnused(db, n);
    assert IdentityFree(db.wagers, t) by {
      forall id | id in db.wagers
        ensures !SameKey(db.wagers[id].order, t.order) && !SameExternal(db.wagers[id].order, t.order)
      {
        assert !TakenKey(db, c, id) && !TakenExternal(db, c, id);
      }
    }
    GoodParts(db);
    GoodWallet(db, t.order);
    hide Inv, Fresh, Unused, RowsOk, IdentitiesOk, OpeningsOk, IdentityFree;
    ReservedIdentities(db, t);
    NamedIsFound(db, t, r);
    if r.Some? {
      VisibleSlots(db, t, r.value.id);
    }
  }

  lemma GoodWallet(db: Db, o: Order)
    requires Inv(db)
    ensures WalletSound(WalletFor(db, o))
  {
    assert WalletsOk(db);
    hide Inv;
  }

  /**
   * Every new submission: the rulebook decides it from the tables, and the row, the movement, the
   * events and the answer are what the ruling says.
   */
  lemma SubmissionFollowsRulebook(db: Db, c: Command, now: int, n: nat, t: Wager, r: Option<Wager>)
    requires Inv(db) && Fresh(db, n) && Acceptable(c) && Unused(db, c)
    requires t == Candidate(c, now, n) && Names(db.wagers, t, r)
    ensures AsksFor(t, c, now, n)
    ensures var ruling := SubmissionRuling(t.id, t.order, WalletFor(db, t.order), r, SlotTaken(db.wagers, r));
            var row := RowAfter(t, WalletFor(db, t.order), ruling, now);
            && Ruled(db, Submit(db, c, now, n).0, t, ruling, SubmissionContext(c, now, n), now, n)
            && Submit(db, c, now, n).1 ==
               Success(SubmitResult(t.id, row.status, row.resultBalance, row.failure, false))
  {
    hide Payload.PayloadHash, Names, Inv, Fresh, Unused, SlotTaken, DecideSubmission, Writes, Ruled, SubmissionRuling;
    hide ReadsFor, Apply, IdentityFree, RowAfter;
    AcceptableMeansNoFailure(c);
    SubmissionReads(db, c, now, n, r);
    var ruling := SubmissionRuling(t.id, t.order, WalletFor(db, t.order), r, SlotTaken(db.wagers, r));
    var context := SubmissionContext(c, now, n);
    NamedHasName(db.wagers, t, r);
    SubmissionFollows(t, ReadsFor(db, t), now, context, n);
    var e := SubmissionEffect(db, c, now, n);
    WritesAreRuled(db, e, t, ruling, context, now, n);
    WritesRow(e, t, WalletFor(db, t.order), ruling, context, now, n);
  }

  lemma NamedHasName(wagers: map<Id, Wager>, t: Wager, r: Option<Wager>)
    requires Names(wagers, t, r)
    ensures r.Some? ==> t.order.referenceExternalId.Some?
  {
  }

  lemma WritesRow(e: Effect, t: Wager, w: Option<WalletRow>, ruling: Ruling, context: Context, at: int, n: nat)
    requires Writes(e, t, w, ruling, context, at, n)
    ensures e.row == RowAfter(t, w, ruling, at) && e.row.id == t.id
  {
  }

  /** What a ruling shows is the balance the wallet is left with. */
  lemma ShownIsLeft(before: Db, after: Db, t: Wager, ruling: Ruling, context: Context, at: int, n: nat)
    requires Ruled(before, after, t, ruling, context, at, n)
    requires t.order.walletId in before.wallets ==> before.wallets[t.order.walletId].id == t.order.walletId
    ensures var shown := BalanceShown(WalletFor(before, t.order), ruling);
            shown.Some? ==>
              t.order.walletId in after.wallets && shown.value == after.wallets[t.order.walletId].balance
  {
    hide Tells;
  }

  lemma ShownUnlessHidden(own: Id, o: Order, w: Option<WalletRow>, r: Option<Wager>, active: bool)
    ensures BalanceShown(w, SubmissionRuling(own, o, w, r, active)).None? <==> w.None? || w.value.playerId != o.playerId
    ensures w.Some? ==> BalanceShown(w, SettlementRuling(o, w, r, active)).Some?
  {
  }

  lemma RuledRow(before: Db, after: Db, t: Wager, ruling: Ruling, context: Context, at: int, n: nat)
    requires Ruled(before, after, t, ruling, context, at, n)
    ensures t.id in after.wagers && after.wagers[t.id] == RowAfter(t, WalletFor(before, t.order), ruling, at)
  {
    hide Tells, RowAfter;
  }

  lemma RowShows(t: Wager, w: Option<WalletRow>, ruling: Ruling, at: int)
    ensures RowAfter(t, w, ruling, at).resultBalance == BalanceShown(w, ruling)
  {
  }

  lemma RowsAreGood(db: Db, n: nat)
    requires Inv(db) && Fresh(db, n)
    ensures RowsOk(db) && Id(n, 0) !in db.wagers
  {
    hide Inv;
    GoodParts(db);
    FreshIsUnused(db, n);
  }

  lemma WalletIsNamed(db: Db, w: Id)
    requires Inv(db)
    ensures w in db.wallets ==> db.wallets[w].id == w
  {
    assert WalletsOk(db);
    hide Inv;
  }

  /**
   * The answer to a new submission carries the balance of the wallet as it is after it: the moved
   * balance when it is processed, the untouched one when it waits or is rejected, and none
   * exactly when the wallet does not exist or is another player's.
   */
  lemma AnswerCarriesBalance(db: Db, c: Command, now: int, n: nat)
    requires Inv(db) && Fresh(db, n) && Acceptable(c) && Unused(db, c)
    ensures var (after, answer) := Submit(db, c, now, n);
            && answer.Success?
            && (answer.value.balance.Some? ==>
                  c.walletId in after.wallets && answer.value.balance.value == after.wallets[c.walletId].balance)
            && (answer.value.balance.None? <==>
                  c.walletId !in db.wallets || db.wallets[c.walletId].playerId != c.playerId)
  {
    var t := Candidate(c, now, n);
    RowsAreGood(db, n);
    var r := SomethingIsNamed(db, t);
    SubmissionFollowsRulebook(db, c, now, n, t, r);
    hide Payload.PayloadHash, RowsOk, Names, Inv, Fresh, Unused, SlotTaken, Submit, Ruled, SubmissionRuling;
    hide BalanceShown, RowAfter;
    WalletIsNamed(db, c.walletId);
    var w := WalletFor(db, t.order);
    var ruling := SubmissionRuling(t.id, t.order, w, r, SlotTaken(db.wagers, r));
    RowShows(t, w, ruling, now);
    ShownUnlessHidden(t.id, t.order, w, r, SlotTaken(db.wagers, r));
    ShownIsLeft(db, Submit(db, c, now, n).0, t, ruling, SubmissionContext(c, now, n), now, n);
  }

  // ---------- the pending reference worker ----------

  function TickContext(t: Wager, at: int, n: nat): Context {
    Context(Id(n, 1), t.order.correlationId, CausedByWager(t.id), at)
  }

  /** Only the attempt is counted and the row put off. */
  predicate OnlyPutOff(before: Db, after: Db, t: Wager, next: int) {
    && after.wallets == before.wallets && after.ledger == before.ledger && after.outbox == before.outbox
    && after.inbox == before.inbox
    && after.wagers ==
       before.wagers[t.id := Wager(t.id, t.order, t.status, t.referenceId, t.failure, t.resultBalance, t.attempts + 1,
                                   Some(next), t.expiresAt, t.processedAt)]
  }

  lemma WaitingRow(db: Db, id: Id)
    requires Inv(db) && id in db.wagers && db.wagers[id].status.PendingReference?
    ensures var t := db.wagers[id];
            && t.id == id && Undecided(t) && (t.order.kind.Refund? || t.order.kind.Rollback?)
            && t.expiresAt.Some? && t.attempts < 100
            && WalletFor(db, t.order).Some? && WalletSound(WalletFor(db, t.order))
            && WalletFor(db, t.order).value.id == t.order.walletId
  {
    var t := db.wagers[id];
    assert RowsOk(db) && ClocksOk(db) && WalletsOk(db) && WagerChecks(t) && ClockOk(t);
    WaitingWallet(db, t);
    hide Inv;
  }

  lemma TickReads(db: Db, id: Id, r: Option<Wager>)
    requires Inv(db) && id in db.wagers && db.wagers[id].status.PendingReference?
    requires Names(db.wagers, db.wagers[id], r)
    ensures var t := db.wagers[id];
            ReadsFor(db, t) == Reads(WalletFor(db, t.order), r, SlotTaken(db.wagers, r)) && ReferenceOf(db, t) == r
  {
    hide Inv, RowsOk, IdentitiesOk, OpeningsOk, Names, HasActiveReversal, ReferenceOf;
    var t := db.wagers[id];
    GoodParts(db);
    RowIsNamed(db, id);
    assert Visible(db, t) == db.wagers;
    NamedIsFound(db, t, r);
  }

  /**
   * Every due tick: an unsettled reference puts the row off while it may still wait; otherwise the
   * rulebook settles it from the tables.
   */
  lemma TickFollowsRulebook(db: Db, id: Id, now: int, jitter: Backoff.Jitter, n: nat, r: Option<Wager>)
    requires Inv(db) && Fresh(db, n) && Due(db, id, now) && Names(db.wagers, db.wagers[id], r)
    ensures var t := db.wagers[id];
            var after := Tick(db, id, now, jitter, n);
            && t.expiresAt.Some?
            && if (r.None? || !SettledRow(r.value)) && now < t.expiresAt.value
               then OnlyPutOff(db, after, t, now + Backoff.DelayMs(t.attempts + 1, jitter))
               else
                 Ruled(db, after, t, SettlementRuling(t.order, WalletFor(db, t.order), r, SlotTaken(db.wagers, r)),
                       TickContext(t, now, n), now, n)
  {
    hide Names, Inv, Fresh, SlotTaken, DecideTick, Writes, Ruled, SettlementRuling, ReadsFor, Apply, ReferenceOf, OnlyPutOff;
    var t := db.wagers[id];
    WaitingRow(db, id);
    TickReads(db, id, r);
    TickFollows(t, r, ReadsFor(db, t), now, jitter, n);
    var e := DecideTick(t, r, ReadsFor(db, t), now, jitter, n);
    if (r.None? || !SettledRow(r.value)) && now < t.expiresAt.value {
      PutOffOnly(db, e, t, now + Backoff.DelayMs(t.attempts + 1, jitter));
    } else {
      WritesAreRuled(db, e, t, SettlementRuling(t.order, WalletFor(db, t.order), r, SlotTaken(db.wagers, r)),
                     TickContext(t, now, n), now, n);
    }
  }

  lemma PutOffOnly(db: Db, e: Effect, t: Wager, next: int)
    requires PutOff(e, t, next)
    ensures OnlyPutOff(db, Apply(db, e), t, next)
  {
    assert db.outbox + [] == db.outbox;
  }

  /** What a tick stores is the balance the wallet is left with, whatever it rules. */
  lemma TickStoresBalance(db: Db, id: Id, now: int, jitter: Backoff.Jitter, n: nat)
    requires Inv(db) && Fresh(db, n) && Due(db, id, now)
    ensures var after := Tick(db, id, now, jitter, n);
            && id in after.wagers
            && (SettledRow(after.wagers[id]) ==>
                  var w := db.wagers[id].order.walletId;
                  w in after.wallets && after.wagers[id].resultBalance == Some(after.wallets[w].balance))
  {
    hide RowsOk, Names, Inv, Fresh, SlotTaken, SettlementRuling, BalanceShown, Tick, Ruled, RowAfter, OnlyPutOff;
    hide Backoff.DelayMs;
    var t := db.wagers[id];
    RowsAreGood(db, n);
    RowIsNamed(db, id);
    var r := SomethingIsNamed(db, t);
    TickFollowsRulebook(db, id, now, jitter, n, r);
    WaitingRow(db, id);
    var w := WalletFor(db, t.order);
    var after := Tick(db, id, now, jitter, n);
    if (r.None? || !SettledRow(r.value)) && now < t.expiresAt.value {
      PutOffWaits(db, after, t, now + Backoff.DelayMs(t.attempts + 1, jitter));
    } else {
      var ruling := SettlementRuling(t.order, w, r, SlotTaken(db.wagers, r));
      RuledRow(db, after, t, ruling, TickContext(t, now, n), now, n);
      RowShows(t, w, ruling, now);
      ShownUnlessHidden(t.id, t.order, w, r, SlotTaken(db.wagers, r));
      ShownIsLeft(db, after, t, ruling, TickContext(t, now, n), now, n);
    }
  }

  lemma PutOffWaits(before: Db, after: Db, t: Wager, next: int)
    requires OnlyPutOff(before, after, t, next)
    ensures t.id in after.wagers && after.wagers[t.id].status == t.status
  {
  }

  /** A recorded failure ends the wait of a waiting row with its wallet's balance, and does nothing to any other. */
  lemma FailureFollowsRulebook(db: Db, id: Id, now: int, n: nat)
    requires Inv(db)
    ensures var after := RecordFailure(db, id, now, n);
            if id in db.wagers && db.wagers[id].status == PendingReference then
              var t := db.wagers[id];
              && t.order.walletId in db.wallets
              && var row := Wager(id, t.order, Failed, None, Some(InfrastructureFailure),
                                  Some(db.wallets[t.order.walletId].balance), t.attempts, t.nextAttemptAt,
                                  t.expiresAt, Some(now));
                 && after.wagers == db.wagers[id := row] && after.wallets == db.wallets
                 && after.ledger == db.ledger && after.inbox == db.inbox && db.outbox <= after.outbox
                 && Tells(after.outbox[|db.outbox|..], TickContext(t, now, n), row, None, n)
            else after == db
  {
    hide Inv, DecideFailure, Tells;
    if id in db.wagers && db.wagers[id].status.PendingReference? {
      var t := db.wagers[id];
      WaitingRow(db, id);
      var w := db.wallets[t.order.walletId];
      FailureFollows(t, w, now, n);
      var e := DecideFailure(t, w, now, n);
      assert (db.outbox + e.events)[|db.outbox|..] == e.events;
    }
  }

  // ---------- reversals, code by code ----------

  /**
   * A reversal that finds its wallet in order and a settled reference is rejected with each code
   * exactly when the condition behind that code is the first to fail.
   */
  lemma ReversalCodes(db: Db, c: Command, now: int, n: nat, t: Wager, r: Wager)
    requires Inv(db) && Fresh(db, n) && Acceptable(c) && Unused(db, c)
    requires t == Candidate(c, now, n) && Names(db.wagers, t, Some(r)) && SettledRow(r)
    requires c.kind.Refund? || c.kind.Rollback?
    requires c.walletId in db.wallets && db.wallets[c.walletId].playerId == c.playerId
    requires db.wallets[c.walletId].balance.currency == c.money.currency
    ensures t.id in Submit(db, c, now, n).0.wagers
    ensures var failure := Submit(db, c, now, n).0.wagers[t.id].failure;
            var kindFits := if c.kind.Refund? then r.order.kind.Bet?
                            else r.order.kind.Bet? || r.order.kind.Win? || r.order.kind.Refund?;
            var processed := r.status == Processed;
            var bound := r.order.providerId == c.providerId && r.order.playerId == c.playerId
                         && r.order.walletId == c.walletId && r.order.roundId == c.roundId;
            var sameCurrency := r.order.money.currency == c.money.currency;
            var sameAmount := r.order.money.cents == c.money.cents;
            && (failure == Some(ReferenceKindNotReversible) <==> !kindFits)
            && (failure == Some(ReferenceNotProcessed) <==> kindFits && !processed)
            && (failure == Some(ReferenceMismatch) <==> kindFits && processed && !bound)
            && (failure == Some(CurrencyMismatch) <==> kindFits && processed && bound && !sameCurrency)
            && (failure == Some(ReversalAmountMismatch) <==>
                  kindFits && processed && bound && sameCurrency && !sameAmount)
  {
    hide Payload.PayloadHash, Names, Inv, Fresh, Unused, SlotTaken, Submit, Tells;
    SubmissionFollowsRulebook(db, c, now, n, t, Some(r));
  }

  /** A WIN that finds its wallet in order and a settled reference, likewise; amounts are free to differ. */
  lemma WinCodes(db: Db, c: Command, now: int, n: nat, t: Wager, r: Wager)
    requires Inv(db) && Fresh(db, n) && Acceptable(c) && Unused(db, c)
    requires t == Candidate(c, now, n) && Names(db.wagers, t, Some(r)) && SettledRow(r) && c.kind.Win?
    requires c.walletId in db.wallets && db.wallets[c.walletId].playerId == c.playerId
    requires db.wallets[c.walletId].balance.currency == c.money.currency
    ensures t.id in Submit(db, c, now, n).0.wagers
    ensures var failure := Submit(db, c, now, n).0.wagers[t.id].failure;
            var bound := r.order.providerId == c.providerId && r.order.playerId == c.playerId
                         && r.order.walletId == c.walletId && r.order.roundId == c.roundId;
            && (failure == Some(ReferenceNotProcessed) <==> r.order.kind.Bet? && r.status != Processed)
            && (failure == Some(ReferenceMismatch) <==>
                  !r.order.kind.Bet? || (r.status == Processed && !bound))
            && (failure == Some(CurrencyMismatch) <==>
                  r.order.kind.Bet? && r.status == Processed && bound && r.order.money.currency != c.money.currency)
  {
    hide Payload.PayloadHash, Names, Inv, Fresh, Unused, SlotTaken, Submit, Tells;
    SubmissionFollowsRulebook(db, c, now, n, t, Some(r));
  }

  // ---------- wallets ----------

  predicate ServesAlready(db: Db, c: CreateCommand, id: Id) {
    id in db.wallets && db.wallets[id].playerId == c.playerId
    && db.wallets[id].balance.currency == c.initialBalance.currency
  }

  /** A player with a wallet in the currency is pointed to it, and money that is none is refused; nothing is written. */
  lemma CreationIsRefused(db: Db, c: CreateCommand, now: int, n: nat, id: Id)
    requires Inv(db)
    ensures var m := c.initialBalance;
            if !(0 <= m.cents <= 99_999_999_999_999_999_999) || !ThreeCapitals(m.currency) then
              CreateWallet(db, c, now, n) == (db, Failure(DomainFailure(InvalidMoney)))
            else
              ServesAlready(db, c, id) ==> CreateWallet(db, c, now, n) == (db, Failure(WalletAlreadyExists(Some(id))))
  {
    hide OpeningEffect;
    if ServesAlready(db, c, id) {
      assert SameOwner(db.wallets[id], NewWallet(c, now, n));
      var found := FindWallet(db, c.playerId, c.initialBalance.currency);
      assert WalletsOk(db);
      hide Inv;
      assert found.Some? ==> SameOwner(db.wallets[found.value], db.wallets[id]);
    }
  }

  /** The OPENING that gives a new wallet its money. */
  predicate Opens(t: Wager, c: CreateCommand, wallet: Id, now: int, n: nat) {
    && t == Wager(Id(n, 0), t.order, Processed, None, None, Some(c.initialBalance), 0, None, None, Some(now))
    && t.order.providerId == "internal" && t.order.kind == Opening && t.order.money == c.initialBalance
    && t.order.externalId == "opening:" + IdText(wallet) && t.order.idempotencyKey == "internal:opening:" + IdText(wallet)
    && t.order.walletId == wallet && t.order.playerId == c.playerId && t.order.referenceExternalId == None
    && t.order.roundId == "internal" && t.order.gameId == "internal"
    && t.order.correlationId == c.correlationId && t.order.createdAt == now
  }

  /** A new wallet starts at version 1 with its money, and its money is one OPENING, one entry and two events. */
  lemma CreationFollowsRulebook(db: Db, c: CreateCommand, now: int, n: nat)
    requires Fresh(db, n) && forall id :: !ServesAlready(db, c, id)
    requires 0 <= c.initialBalance.cents <= 99_999_999_999_999_999_999 && ThreeCapitals(c.initialBalance.currency)
    ensures var (after, answer) := CreateWallet(db, c, now, n);
            var w := WalletRow(Id(n, 4), c.playerId, c.initialBalance, 1, now, now);
            && answer == Success(w) && after.wallets == db.wallets[w.id := w] && after.inbox == db.inbox
            && db.outbox <= after.outbox
            && if c.initialBalance.cents == 0 then
                 after.wagers == db.wagers && after.ledger == db.ledger && after.outbox == db.outbox
               else
                 var t := OpeningRow(c, w.id, now, n);
                 var entry := LedgerEntry(Id(n, 2), w.id, Id(n, 0), Credit, c.initialBalance, 0, c.initialBalance.cents, now);
                 && Opens(t, c, w.id, now, n)
                 && after.wagers == db.wagers[t.id := t] && after.ledger == db.ledger + [entry]
                 && Tells(after.outbox[|db.outbox|..], Context(Id(n, 1), c.correlationId, NoCause, now), t,
                          Some((entry, 1)), n)
  {
    hide Payload.PayloadHash, FindWallet, IdText;
    var w := NewWallet(c, now, n);
    assert WalletFree(db, w) by {
      forall id | id in db.wallets ensures !SameOwner(db.wallets[id], w) {
        assert !ServesAlready(db, c, id);
      }
    }
    hide WalletFree, Fresh;
    if c.initialBalance.cents > 0 {
      var e := OpeningEffect(c, now, n);
      assert (db.outbox + e.events)[|db.outbox|..] == e.events;
    }
  }

  function OpeningRow(c: CreateCommand, wallet: Id, now: int, n: nat): Wager {
    Wager(Id(n, 0), OpeningOrder(c, wallet, now), Processed, None, None, Some(c.initialBalance), 0, None, None, Some(now))
  }

  // ---------- the queue ----------

  /** What will never succeed however often it is delivered. */
  predicate Hopeless(e: Error) {
    e.AmountNotPositive? || e.IdempotencyKeyConflict? || e.ExternalTransactionIdReused? || e.DomainFailure?
  }

  /** A delivery whose inbox row exists is told from that row, and writes nothing. */
  lemma RedeliveryIsAnswered(db: Db, d: Delivery, c: Command, at: Instants, n: nat)
    requires d.key in db.inbox
    ensures Consume(db, d, c, at, n) ==
            (db, if db.inbox[d.key].payloadHash != d.payloadHash then Permanent
                 else if db.inbox[d.key].processedAt.None? then Transient
                 else Duplicate)
  {
    hide Submit;
  }

  /**
   * Any other delivery is the submission it carries: a refusal is permanent when the command can
   * never be accepted and transient otherwise, a clock that ran backwards undoes everything, and
   * a success is committed with its inbox row.
   */
  lemma DeliveryIsAnswered(db: Db, d: Delivery, c: Command, at: Instants, n: nat)
    requires d.key !in db.inbox
    ensures var (after, answer) := Submit(db, c, at.now, n);
            Consume(db, d, c, at, n) ==
            if answer.Failure? then (db, if Hopeless(answer.error) then Permanent else Transient)
            else if at.processedAt < at.receivedAt then (db, Transient)
            else (after.(inbox := db.inbox[d.key := InboxRow(d.payloadHash, at.receivedAt, Some(at.processedAt))]),
                  Consumed(answer.value))
  {
    hide Submit;
    assert db.(inbox := db.inbox) == db;
    SubmitIgnoresInbox(db, db.inbox, c, at.now, n);
    SubmitIgnoresInbox(db, db.inbox[d.key := InboxRow(d.payloadHash, at.receivedAt, None)], c, at.now, n);
    assert db.inbox[d.key := InboxRow(d.payloadHash, at.receivedAt, None)]
           [d.key := InboxRow(d.payloadHash, at.receivedAt, Some(at.processedAt))] ==
           db.inbox[d.key := InboxRow(d.payloadHash, at.receivedAt, Some(at.processedAt))];
  }
}
