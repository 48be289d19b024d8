/**
 * From every good state, every statement an admissible commit issues passes every CHECK,
 * unique key, foreign key and trigger: the guards never fire.
 */
module Schema {
  import opened Wrappers
  import opened Domain
  import opened Store
  import opened Decisions
  import opened Invariants
  import opened Commits
  import opened Machine
  import opened Runs

  /** The tables after the reservation, when there is one, and before the decision is written. */
  function AfterReserve(db: Db, t: Wager): Db {
    db.(wagers := Visible(db, t))
  }

  function AfterUpdate(db: Db, row: Wager): Db {
    db.(wagers := db.wagers[row.id := row])
  }

  /** The reservation inserts a PENDING row; only the CHECK on the reference can refuse it. */
  lemma ReservationChecks(c: Command, now: int, n: nat)
    requires 0 < c.money.cents <= MAX_CENTS && IsCurrency(c.money.currency)
    ensures WagerChecks(Candidate(c, now, n)) <==> ReferenceByKind(OrderOf(c, now))
  {
  }

  /** wager_reversal_guard stays silent: hasActiveReversal has already said the slot is free. */
  lemma ReversalGuardSilent(db: Db, t: Wager, row: Wager)
    requires LinkStep(db.wagers, row)
    requires !t.status.Processed? && (t.id in db.wagers ==> !db.wagers[t.id].status.Processed?)
    ensures ReversalGuard(Visible(db, t), row)
  {
    if AppliesReversal(row) {
      var v := Visible(db, t);
      var r := row.referenceId.value;
      VisibleSlots(db, t, r);
      forall a | a in v ensures !ActivelyReverses(v, a, r) {
        assert !HasActiveReversal(v, r);
      }
    }
  }

  /** wager_transaction_guard, every CHECK and both foreign keys pass as well. */
  lemma WagerUpdateAllowed(db: Db, e: Effect, n: nat, t: Wager)
    requires Admissible(db, e, n) && Owns(db, t, n) && e.row.id == t.id
    requires e.movement.Some? ==> e.movement.value.wallet.id in db.wallets
    ensures UpdateWagerAllowed(AfterReserve(db, t), e.row)
  {
    ReversalGuardSilent(db, t, e.row);
    hide Fresh, ReversalGuard, HasActiveReversal, ActivelyReverses, IdentityFree;
  }

  lemma LedgerInsertAllowed(db: Db, e: Effect, n: nat, t: Wager)
    requires LedgerOk(db) && Admissible(db, e, n) && Owns(db, t, n) && e.row.id == t.id && e.movement.Some?
    requires e.movement.value.wallet.id in db.wallets
    ensures InsertLedgerAllowed(AfterUpdate(AfterReserve(db, t), e.row), e.movement.value.entry)
  {
  }

  lemma WalletUpdateAllowed(db: Db, e: Effect, n: nat)
    requires Admissible(db, e, n) && e.movement.Some? && e.movement.value.wallet.id in db.wallets
    ensures WalletChecks(e.movement.value.wallet)
  {
  }

  predicate NewEventIds(outbox: seq<Event>, events: seq<Event>) {
    && (forall i, j :: 0 <= i < |outbox| && 0 <= j < |events| ==> outbox[i].eventId != events[j].eventId)
    && (forall i, j :: 0 <= i < j < |events| ==> events[i].eventId != events[j].eventId)
  }

  lemma EnqueueAllowed(db: Db, e: Effect, n: nat)
    requires Admissible(db, e, n)
    ensures NewEventIds(db.outbox, e.events)
  {
  }
}
