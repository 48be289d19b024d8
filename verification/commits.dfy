/**
 * Every decision taken from coherent reads is an admissible commit, so it keeps the invariant.
 * Reads may be stale in the one way READ COMMITTED allows here: a reference that was missing
 * or undecided when it was read may have settled since.
 */
module Commits {
  import opened Wrappers
  import opened Domain
  import opened Store
  import opened Decisions
  import opened Invariants
  import opened Preservation
  import opened Conservation
  import Backoff

  /** Orders that parseSubmitWager and WagerTransaction.create let through. */
  predicate Submittable(o: Order) {
    && 0 < o.money.cents <= MAX_CENTS && IsCurrency(o.money.currency)
    && !o.kind.Opening? && o.providerId != INTERNAL_PROVIDER
    && ReferenceByKind(o)
  }

  /** A reservation that won: the row is new under a free identity. */
  ghost predicate Won(db: Db, t: Wager, n: nat) {
    t == Reserved(WagerId(n), t.order) && Submittable(t.order) && IdentityFree(db.wagers, t)
  }

  ghost predicate Waiting(db: Db, t: Wager) {
    t.id in db.wagers && db.wagers[t.id] == t && t.status.PendingReference?
  }

  /** The transaction may decide t: it inserted the row, or it holds the lock on a waiting one. */
  ghost predicate Owns(db: Db, t: Wager, n: nat) {
    Fresh(db, n) && (Won(db, t, n) || Waiting(db, t))
  }

  ghost predicate Coherent(db: Db, t: Wager, r: Reads) {
    && (r.wallet.Some? ==> t.order.walletId in db.wallets && db.wallets[t.order.walletId] == r.wallet.value)
    && (r.reference.Some? ==> ReferencesExternal(t.order, r.reference.value))
    && (r.reference.Some? && r.reference.value.id == t.id ==> r.reference.value == t)
    && (Resolvable(r.reference) ==>
          && r.reference.value.id in db.wagers && db.wagers[r.reference.value.id] == r.reference.value
          && (ReversalFailure(t.order, r.reference.value).None? ==>
                r.active == HasActiveReversal(db.wagers, r.reference.value.id)))
  }

  // ---------- what a decision needs to know of the row and its wallet ----------

  /** The row before its decision: undecided, well formed, and ours to write. */
  ghost predicate Ready(db: Db, t: Wager, n: nat) {
    && Fresh(db, n)
    && (t.status.Pending? || t.status.PendingReference?)
    && (t.id in db.wagers <==> t.status.PendingReference?)
    && (t.id in db.wagers ==> db.wagers[t.id] == t && WagerChecks(t) && WagerForeignKeys(db, t))
    && (t.id !in db.wagers ==> t.id == WagerId(n) && IdentityFree(db.wagers, t))
    && t.referenceId.None? && t.failure.None? && t.processedAt.None?
    && 0 < t.order.money.cents <= MAX_CENTS && IsCurrency(t.order.money.currency)
    && ReferenceByKind(t.order) && !t.order.kind.Opening? && t.order.providerId != INTERNAL_PROVIDER
    && (t.expiresAt.Some? <==> t.status.PendingReference?)
    && ClockOk(t)
  }

  predicate Holds(db: Db, t: Wager, w: WalletRow) {
    && t.order.walletId in db.wallets && db.wallets[t.order.walletId] == w
    && w.id == t.order.walletId && WalletChecks(w)
  }

  predicate HoldsSameCurrency(db: Db, t: Wager, w: WalletRow) {
    Holds(db, t, w) && w.balance.currency == t.order.money.currency
  }

  lemma OwnsIsReady(db: Db, t: Wager, n: nat)
    requires RowsOk(db) && LinksOk(db.wagers) && ClocksOk(db) && OpeningsOk(db) && Owns(db, t, n)
    ensures Ready(db, t, n)
  {
    if Waiting(db, t) {
      assert WagerChecks(t) && ClockOk(t) && OpeningOk(db.wallets, t.order);
    }
  }

  // ---------- the decisions ----------

  /** A rejection that may not disclose a balance. */
  lemma RejectBlindAdmissible(db: Db, t: Wager, code: FailureCode, now: int, context: Context, n: nat)
    requires Ready(db, t, n) && context.eventId == EventId(n) && DisclosesNoBalance(code)
    ensures Admissible(db, Reject(t, code, None, now, context), n)
  {
  }

  lemma RejectAdmissible(db: Db, t: Wager, code: FailureCode, w: WalletRow, now: int, context: Context, n: nat)
    requires Ready(db, t, n) && context.eventId == EventId(n)
    requires !code.InfrastructureFailure? && !DisclosesNoBalance(code) && Holds(db, t, w)
    requires w.balance.currency == t.order.money.currency || code.CurrencyMismatch?
    ensures Admissible(db, Reject(t, code, Some(w.balance), now, context), n)
  {
  }

  lemma ProcessStillAdmissible(db: Db, t: Wager, w: WalletRow, now: int, context: Context, n: nat)
    requires Ready(db, t, n) && context.eventId == EventId(n)
    requires t.status.Pending? && t.order.kind.Loss? && HoldsSameCurrency(db, t, w)
    ensures Admissible(db, ProcessStill(t, w, now, context), n)
  {
  }

  lemma WaitAdmissible(db: Db, t: Wager, w: WalletRow, now: int, context: Context, n: nat)
    requires Ready(db, t, n) && context.eventId == EventId(n)
    requires t.status.Pending? && RequiresReference(t.order.kind) && now == t.order.createdAt
    requires HoldsSameCurrency(db, t, w)
    ensures Admissible(db, Wait(t, w, now, context), n)
  {
    Backoff.StartIsValid(now);
  }

  lemma FailureAdmissible(db: Db, t: Wager, w: WalletRow, now: int, n: nat)
    requires Ready(db, t, n) && HoldsSameCurrency(db, t, w) && t.status.PendingReference?
    ensures Admissible(db, DecideFailure(t, w, now, n), n)
  {
  }

  lemma RescheduleAdmissible(db: Db, t: Wager, now: int, jitter: Backoff.Jitter, n: nat)
    requires Ready(db, t, n) && t.status.PendingReference?
    requires t.nextAttemptAt.Some? && t.nextAttemptAt.value <= now
    requires !Backoff.Exhausted(t.attempts, t.expiresAt, now)
    ensures Admissible(db, Effect(AsRescheduled(t, now + Backoff.DelayMs(t.attempts + 1, jitter)), None, []), n)
  {
    var c := Backoff.Clock(t.order.createdAt, t.attempts, t.nextAttemptAt.value, t.expiresAt.value);
    Backoff.RescheduleKeepsValid(c, now, jitter);
  }

  /** Where a movement is allowed at all: the link is good, its slot is free, the direction is right. */
  ghost predicate MayMove(db: Db, t: Wager, referenceId: Option<Id>, d: Direction) {
    && AffectsBalance(t.order.kind)
    && (RequiresReference(t.order.kind) ==> referenceId.Some? && !HasActiveReversal(db.wagers, referenceId.value))
    && referenceId != Some(t.id)
    && (referenceId.Some? ==> LinkOk(db.wagers, t.(status := Processed, referenceId := referenceId)))
    && DirectionOf(db.wagers, t.(referenceId := referenceId)) == Success(d)
  }

  lemma MovementLinks(db: Db, t: Wager, referenceId: Option<Id>, d: Direction, row: Wager)
    requires MayMove(db, t, referenceId, d)
    requires row.referenceId == referenceId && row.order == t.order && row.status.Processed?
    ensures LinkStep(db.wagers, row) && DirectionOf(db.wagers, row) == Success(d)
  {
    if referenceId.Some? {
      assert LinkOk(db.wagers, t.(status := Processed, referenceId := referenceId));
    }
  }

  lemma ProcessMoveAdmissible(
    db: Db, t: Wager, referenceId: Option<Id>, w: WalletRow, d: Direction, now: int, context: Context, n: nat)
    requires Ready(db, t, n) && context.eventId == EventId(n)
    requires MayMove(db, t, referenceId, d)
    requires HoldsSameCurrency(db, t, w)
    requires MovementFailure(w, t.order.kind, t.order.money.cents, d).None?
    ensures Admissible(db, ProcessMove(t, referenceId, w, d, now, context, n), n)
  {
    var e := ProcessMove(t, referenceId, w, d, now, context, n);
    MovementLinks(db, t, referenceId, d, e.row);
    assert WalletChecks(w);
    assert MoveOk(db, e.row, e.movement.value, n);
  }

  lemma MovementAdmissible(
    db: Db, t: Wager, referenceId: Option<Id>, w: WalletRow, d: Direction, now: int, context: Context, n: nat)
    requires Ready(db, t, n) && context.eventId == EventId(n)
    requires MayMove(db, t, referenceId, d)
    requires HoldsSameCurrency(db, t, w)
    ensures Admissible(db, DecideMovement(t, referenceId, w, d, now, context, n), n)
  {
    var failure := MovementFailure(w, t.order.kind, t.order.money.cents, d);
    if failure.Some? {
      RejectAdmissible(db, t, failure.value, w, now, context, n);
    } else {
      ProcessMoveAdmissible(db, t, referenceId, w, d, now, context, n);
    }
  }

  lemma ResolvedAdmissible(db: Db, t: Wager, r: Reads, now: int, context: Context, n: nat)
    requires Ready(db, t, n) && Coherent(db, t, r) && context.eventId == EventId(n)
    requires RequiresReference(t.order.kind)
    requires r.wallet.Some? && HoldsSameCurrency(db, t, r.wallet.value)
    requires r.reference.Some? && Decidable(t, r.reference.value)
    ensures Admissible(db, DecideResolved(t, r.reference.value, r.wallet.value, r.active, now, context, n), n)
  {
    var w := r.wallet.value;
    var reference := r.reference.value;
    var failure := ReversalFailure(t.order, reference);
    if failure.Some? {
      RejectAdmissible(db, t, failure.value, w, now, context, n);
    } else if r.active {
      RejectAdmissible(db, t, ReferenceAlreadyReversed, w, now, context, n);
    } else {
      var d := DirectionFor(t.order.kind, Some(reference.order.kind)).value;
      MovementAdmissible(db, t, Some(reference.id), w, d, now, context, n);
    }
  }

  lemma LinkAdmissible(db: Db, t: Wager, r: Reads, now: int, context: Context, n: nat)
    requires Ready(db, t, n) && t.status.Pending? && Coherent(db, t, r) && context.eventId == EventId(n)
    requires t.order.kind.Bet? || t.order.kind.Win?
    requires r.wallet.Some? && HoldsSameCurrency(db, t, r.wallet.value)
    ensures Admissible(db, DecideOptionalLink(t, r, r.wallet.value, now, context, n), n)
  {
    var w := r.wallet.value;
    var d := DirectionFor(t.order.kind, None).value;
    if t.order.kind.Win? && t.order.referenceExternalId.Some? && r.reference.Some? && Decidable(t, r.reference.value) {
      var failure := WinReferenceFailure(t.order, r.reference.value);
      if failure.Some? {
        RejectAdmissible(db, t, failure.value, w, now, context, n);
      } else {
        MovementAdmissible(db, t, Some(r.reference.value.id), w, d, now, context, n);
      }
    } else {
      MovementAdmissible(db, t, None, w, d, now, context, n);
    }
  }

  /** apply: whatever the submission decides, it may be committed. */
  lemma SubmissionAdmissible(db: Db, t: Wager, r: Reads, now: int, context: Context, n: nat)
    requires Inv(db) && Owns(db, t, n) && Won(db, t, n) && Coherent(db, t, r) && context.eventId == EventId(n)
    requires now == t.order.createdAt
    ensures Admissible(db, DecideSubmission(t, r, now, context, n), n)
  {
    OwnsIsReady(db, t, n);
    assert r.wallet.Some? ==> Holds(db, t, r.wallet.value);
    if r.wallet.None? {
      RejectBlindAdmissible(db, t, WalletNotFound, now, context, n);
    } else {
      var w := r.wallet.value;
      if w.playerId != t.order.playerId {
        RejectBlindAdmissible(db, t, WalletPlayerMismatch, now, context, n);
      } else if w.balance.currency != t.order.money.currency {
        RejectAdmissible(db, t, CurrencyMismatch, w, now, context, n);
      } else if RequiresReference(t.order.kind) {
        if r.reference.None? || !Decidable(t, r.reference.value) {
          WaitAdmissible(db, t, w, now, context, n);
        } else {
          ResolvedAdmissible(db, t, r, now, context, n);
        }
      } else if !AffectsBalance(t.order.kind) {
        ProcessStillAdmissible(db, t, w, now, context, n);
      } else {
        LinkAdmissible(db, t, r, now, context, n);
      }
    }
  }

  /** A waiting row's wallet exists and has the row's currency. */
  lemma WaitingWallet(db: Db, t: Wager)
    requires Inv(db) && Waiting(db, t)
    ensures t.order.walletId in db.wallets
    ensures db.wallets[t.order.walletId].balance.currency == t.order.money.currency
    ensures RequiresReference(t.order.kind) && t.nextAttemptAt.Some? && t.expiresAt.Some?
  {
  }

  lemma SettlementAdmissible(db: Db, t: Wager, r: Reads, now: int, n: nat)
    requires Ready(db, t, n) && t.status.PendingReference? && Coherent(db, t, r)
    requires RequiresReference(t.order.kind)
    requires r.wallet.Some? ==> HoldsSameCurrency(db, t, r.wallet.value)
    ensures Admissible(db, DecideSettlement(t, r, now, n), n)
  {
    var context := WorkerContext(t, now, n);
    if r.wallet.None? {
      RejectBlindAdmissible(db, t, WalletNotFound, now, context, n);
    } else if !Resolvable(r.reference) {
      RejectAdmissible(db, t, if r.reference.None? then ReferenceNotFound else ReferenceNotProcessed,
                       r.wallet.value, now, context, n);
    } else {
      ResolvedAdmissible(db, t, r, now, context, n);
    }
  }

  lemma TickDecisionAdmissible(
    db: Db, t: Wager, first: Option<Wager>, r: Reads, now: int, jitter: Backoff.Jitter, n: nat)
    requires Ready(db, t, n) && t.status.PendingReference? && Coherent(db, t, r)
    requires RequiresReference(t.order.kind)
    requires r.wallet.Some? ==> HoldsSameCurrency(db, t, r.wallet.value)
    requires t.nextAttemptAt.Some? && t.nextAttemptAt.value <= now
    ensures Admissible(db, DecideTick(t, first, r, now, jitter, n), n)
  {
    if !Resolvable(first) && !Backoff.Exhausted(t.attempts, t.expiresAt, now) {
      RescheduleAdmissible(db, t, now, jitter, n);
    } else {
      SettlementAdmissible(db, t, r, now, n);
    }
  }

  /** A worker tick, whichever way it goes, may be committed. */
  lemma TickAdmissible(
    db: Db, t: Wager, first: Option<Wager>, r: Reads, now: int, jitter: Backoff.Jitter, n: nat)
    requires Inv(db) && Owns(db, t, n) && Waiting(db, t) && Coherent(db, t, r)
    requires t.nextAttemptAt.Some? && t.nextAttemptAt.value <= now
    ensures Admissible(db, DecideTick(t, first, r, now, jitter, n), n)
  {
    WaitingWallet(db, t);
    OwnsIsReady(db, t, n);
    assert r.wallet.Some? ==> HoldsSameCurrency(db, t, r.wallet.value) by {
      assert WalletsOk(db);
    }
    TickDecisionAdmissible(db, t, first, r, now, jitter, n);
  }

  /** The main preservation theorem: an admissible commit takes good states to good states. */
  lemma AdmissibleKeepsInv(db: Db, e: Effect, n: nat)
    requires Inv(db) && Admissible(db, e, n)
    ensures Inv(Apply(db, e))
  {
    KeepsWallets(db, e, n);
    KeepsRows(db, e, n);
    KeepsIdentities(db, e, n);
    KeepsLinks(db, e, n);
    KeepsSlots(db, e, n);
    KeepsChains(db, e, n);
    KeepsLedger(db, e, n);
    KeepsEntered(db, e, n);
    KeepsVersions(db, e, n);
    KeepsEvents(db, e, n);
    KeepsOpeningsClocksInbox(db, e, n);
    KeepsNet(db, e, n);
    KeepsTrees(db, e, n);
  }
}
