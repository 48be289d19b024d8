/**
 * The use cases as they run: domain objects updated in place, rows written one statement at
 * a time, the whole transaction undone when anything throws. Each is proved equal to its
 * atomic step in module Machine. The domain objects' own refusals are asserted away: on rows of
 * a good state they cannot happen.
 */
module UseCases {
  import opened Wrappers
  import opened Domain
  import opened Store
  import opened Decisions
  import opened Invariants
  import opened Commits
  import opened Machine
  import opened Runs
  import opened Lookups
  import opened Entities
  import opened Persistence
  import opened Schema
  import Backoff
  import Payload

  /** The transaction has its row and has written nothing else yet. */
  ghost predicate Open(db: Database, before: Db, t: WagerTransaction, row: Wager, n: nat)
    reads db, t
  {
    db.Value() == AfterReserve(before, row) && t.State() == row && Owns(before, row, n)
  }

  /** update, insert, update, enqueue: the writes of process and reject in their order. */
  method Write(
    db: Database, t: WagerTransaction, w: Wallet?, entry: Option<LedgerEntry>, events: seq<Event>,
    ghost before: Db, ghost row: Wager, ghost e: Effect, ghost n: nat)
    requires db.Value() == AfterReserve(before, row) && Owns(before, row, n) && LedgerOk(before)
    requires Admissible(before, e, n) && e.row.id == row.id && t.State() == e.row && events == e.events
    requires e.movement.Some? <==> entry.Some?
    requires entry.Some? ==>
               && w != null && w.State() == e.movement.value.wallet && entry.value == e.movement.value.entry
               && w.id in before.wallets
    modifies db
    ensures db.Value() == Apply(before, e)
  {
    WagerUpdateAllowed(before, e, n, row);
    EnqueueAllowed(before, e, n);
    if entry.Some? {
      LedgerInsertAllowed(before, e, n, row);
      WalletUpdateAllowed(before, e, n);
    }
    hide Admissible, Owns, LedgerOk, UpdateWagerAllowed, InsertLedgerAllowed, WalletChecks;
    db.UpdateWager(t);
    if entry.Some? {
      db.InsertEntry(entry.value);
      db.UpdateWallet(w);
    }
    db.Enqueue(events);
  }

  method Reject(
    db: Database, t: WagerTransaction, code: FailureCode, balance: Option<Cash>, now: int, context: Context,
    ghost before: Db, ghost row: Wager, n: nat) returns (r: SubmitResult)
    requires Open(db, before, t, row, n) && LedgerOk(before)
    requires Admissible(before, Decisions.Reject(row, code, balance, now, context), n)
    modifies db, t
    ensures var e := Decisions.Reject(row, code, balance, now, context);
            db.Value() == Apply(before, e) && r == ResultOf(e.row, false)
  {
    ghost var e := Decisions.Reject(row, code, balance, now, context);
    assert WagerChecks(e.row);
    var outcome := t.Reject(code, balance, now);
    assert outcome.Pass?;
    hide Admissible, WagerChecks, LedgerOk;
    Write(db, t, null, None, [WagerEvent(t.State(), context, RejectedData(t.State(), context.occurredAt))],
          before, row, e, n);
    return ResultOf(t.State(), false);
  }

  /** process after move: the wallet object has already moved in memory. */
  method Process(
    db: Database, t: WagerTransaction, w: Wallet, entry: Option<LedgerEntry>, referenceId: Option<Id>,
    now: int, context: Context, ghost before: Db, ghost row: Wager, ghost e: Effect, n: nat)
    returns (r: SubmitResult)
    requires Open(db, before, t, row, n) && LedgerOk(before) && Admissible(before, e, n)
    requires e.row == AsProcessed(row, referenceId, w.balance, now)
    requires e.movement == if entry.Some? then Some(Movement(w.State(), entry.value)) else None
    requires entry.Some? ==> w.id in before.wallets
    requires e.events == [WagerEvent(e.row, context, ProcessedData(e.row, context.occurredAt))]
                         + if entry.Some? then [BalanceEvent(w.State(), entry.value, context, n)] else []
    modifies db, t
    ensures db.Value() == Apply(before, e) && r == ResultOf(e.row, false)
  {
    var outcome := t.MarkProcessed(referenceId, w.balance, now);
    assert outcome.Pass?;
    hide Admissible, LedgerOk;
    var events := [WagerEvent(t.State(), context, ProcessedData(t.State(), context.occurredAt))];
    if entry.Some? {
      events := events + [BalanceEvent(w.State(), entry.value, context, n)];
    }
    Write(db, t, w, entry, events, before, row, e, n);
    return ResultOf(t.State(), false);
  }

  /** movementFailure, then move and process, or reject. */
  method MoveOrReject(
    db: Database, t: WagerTransaction, w: Wallet, d: Direction, referenceId: Option<Id>,
    now: int, context: Context, ghost before: Db, ghost row: Wager, n: nat)
    returns (r: SubmitResult)
    requires Open(db, before, t, row, n) && LedgerOk(before)
    requires Holds(before, row, w.State()) && w.balance.currency == row.order.money.currency
    requires 0 < row.order.money.cents
    requires Admissible(before, DecideMovement(row, referenceId, w.State(), d, now, context, n), n)
    modifies db, t, w
    ensures var e := DecideMovement(row, referenceId, old(w.State()), d, now, context, n);
            db.Value() == Apply(before, e) && r == ResultOf(e.row, false)
  {
    ghost var e := DecideMovement(row, referenceId, w.State(), d, now, context, n);
    var failure := MovementFailure(w.State(), t.order.kind, t.order.money.cents, d);
    if failure.Some? {
      r := Reject(db, t, failure.value, Some(w.balance), now, context, before, row, n);
      return;
    }
    assert e == ProcessMove(row, referenceId, w.State(), d, now, context, n);
    var moved;
    if d.Credit? {
      moved := w.Credit(EntryId(n), t.id, t.order.money, now);
    } else {
      moved := w.Debit(EntryId(n), t.id, t.order.money, now);
    }
    assert moved.Success?;
    hide Admissible, LedgerOk;
    r := Process(db, t, w, Some(moved.value), referenceId, now, context, before, row, e, n);
  }

  method ApplyResolvedReversal(
    db: Database, t: WagerTransaction, reference: WagerTransaction, w: Wallet,
    now: int, context: Context, ghost before: Db, ghost row: Wager, n: nat)
    returns (r: SubmitResult)
    requires Open(db, before, t, row, n) && LedgerOk(before)
    requires Holds(before, row, w.State()) && w.balance.currency == row.order.money.currency
    requires 0 < row.order.money.cents
    requires Admissible(before, DecideResolved(row, reference.State(), w.State(),
                                               HasActiveReversal(Visible(before, row), reference.id), now, context, n), n)
    modifies db, t, w
    ensures var e := DecideResolved(row, old(reference.State()), old(w.State()),
                                    HasActiveReversal(Visible(before, row), reference.id), now, context, n);
            db.Value() == Apply(before, e) && r == ResultOf(e.row, false)
  {
    hide Admissible, LedgerOk, HasActiveReversal;
    var failure := ReversalFailure(t.order, reference.State());
    if failure.Some? {
      r := Reject(db, t, failure.value, Some(w.balance), now, context, before, row, n);
      return;
    }
    var alreadyReversed := HasActiveReversal(db.wagers, reference.id);
    if alreadyReversed {
      r := Reject(db, t, ReferenceAlreadyReversed, Some(w.balance), now, context, before, row, n);
      return;
    }
    var d := DirectionFor(t.order.kind, Some(reference.order.kind));
    r := MoveOrReject(db, t, w, d.value, Some(reference.id), now, context, before, row, n);
  }

  /** resolveOptionalReference followed by the movement. */
  method ApplyPlain(
    db: Database, t: WagerTransaction, w: Wallet, now: int, context: Context,
    ghost before: Db, ghost row: Wager, n: nat)
    returns (r: SubmitResult)
    requires Open(db, before, t, row, n) && LedgerOk(before) && IdentitiesOk(db.wagers)
    requires Holds(before, row, w.State()) && w.balance.currency == row.order.money.currency
    requires 0 < row.order.money.cents && (row.order.kind.Bet? || row.order.kind.Win?)
    requires Admissible(before, DecideOptionalLink(row, ReadsFor(before, row), w.State(), now, context, n), n)
    modifies db, t, w
    ensures var e := DecideOptionalLink(row, ReadsFor(before, row), old(w.State()), now, context, n);
            db.Value() == Apply(before, e) && r == ResultOf(e.row, false)
  {
    hide Admissible, LedgerOk, IdentitiesOk, HasActiveReversal;
    var d := DirectionFor(t.order.kind, None).value;
    var referenceId := None;
    if t.order.kind.Win? && t.order.referenceExternalId.Some? {
      var reference := db.FindByExternalId(t.order.providerId, t.order.referenceExternalId.value);
      if reference != null && Decidable(t.State(), reference.State()) {
        var failure := WinReferenceFailure(t.order, reference.State());
        if failure.Some? {
          r := Reject(db, t, failure.value, Some(w.balance), now, context, before, row, n);
          return;
        }
        referenceId := Some(reference.id);
      }
    }
    r := MoveOrReject(db, t, w, d, referenceId, now, context, before, row, n);
  }

  method MarkWaiting(
    db: Database, t: WagerTransaction, w: Wallet, now: int, context: Context,
    ghost before: Db, ghost row: Wager, n: nat)
    returns (r: SubmitResult)
    requires Open(db, before, t, row, n) && LedgerOk(before)
    requires row.status.Pending? && RequiresReference(row.order.kind)
    requires Admissible(before, Wait(row, w.State(), now, context), n)
    modifies db, t
    ensures var e := Wait(row, w.State(), now, context);
            db.Value() == Apply(before, e) && r == ResultOf(e.row, false)
  {
    ghost var e := Wait(row, w.State(), now, context);
    var outcome := t.MarkPendingReference(w.balance, now + Backoff.FIRST_RETRY_DELAY_MS, now + Backoff.TTL_MS);
    assert outcome.Pass?;
    hide Admissible, LedgerOk;
    Write(db, t, null, None, [WagerEvent(t.State(), context, PendingReferenceData(t.State()))], before, row, e, n);
    return ResultOf(t.State(), false);
  }

  method ApplyReversal(
    db: Database, t: WagerTransaction, w: Wallet, now: int, context: Context,
    ghost before: Db, ghost row: Wager, n: nat)
    returns (r: SubmitResult)
    requires Open(db, before, t, row, n) && LedgerOk(before) && IdentitiesOk(db.wagers)
    requires Holds(before, row, w.State()) && w.balance.currency == row.order.money.currency
    requires 0 < row.order.money.cents && row.status.Pending?
    requires RequiresReference(row.order.kind) && row.order.referenceExternalId.Some?
    requires w.playerId == row.order.playerId
    requires Admissible(before, DecideSubmission(row, ReadsFor(before, row), now, context, n), n)
    modifies db, t, w
    ensures var e := DecideSubmission(row, ReadsFor(before, row), now, context, n);
            db.Value() == Apply(before, e) && r == ResultOf(e.row, false)
  {
    hide Admissible, LedgerOk, IdentitiesOk, HasActiveReversal, DecideResolved, Wait;
    var reference := db.FindByExternalId(t.order.providerId, t.order.referenceExternalId.value);
    if reference == null || !Decidable(t.State(), reference.State()) {
      r := MarkWaiting(db, t, w, now, context, before, row, n);
      return;
    }
    r := ApplyResolvedReversal(db, t, reference, w, now, context, before, row, n);
  }

  /** apply: the decision on a freshly reserved row, under the wallet's lock. */
  method ApplySubmission(
    db: Database, t: WagerTransaction, now: int, context: Context,
    ghost before: Db, ghost row: Wager, n: nat)
    returns (r: SubmitResult)
    requires Open(db, before, t, row, n) && row.status.Pending? && Submittable(row.order)
    requires LedgerOk(before) && WalletsOk(before) && IdentitiesOk(db.wagers)
    requires Admissible(before, DecideSubmission(row, ReadsFor(before, row), now, context, n), n)
    modifies db, t
    ensures var e := DecideSubmission(row, ReadsFor(before, row), now, context, n);
            db.Value() == Apply(before, e) && r == ResultOf(e.row, false)
  {
    hide Admissible, LedgerOk, IdentitiesOk, HasActiveReversal, DecideResolved, DecideOptionalLink, Wait, Owns;
    var w := db.LockWallet(t.order.walletId);
    if w == null {
      r := Reject(db, t, WalletNotFound, None, now, context, before, row, n);
      return;
    }
    assert Holds(before, row, w.State());
    hide WalletsOk;
    if w.playerId != t.order.playerId {
      r := Reject(db, t, WalletPlayerMismatch, None, now, context, before, row, n);
    } else if w.balance.currency != t.order.money.currency {
      r := Reject(db, t, CurrencyMismatch, Some(w.balance), now, context, before, row, n);
    } else if RequiresReference(t.order.kind) {
      r := ApplyReversal(db, t, w, now, context, before, row, n);
    } else if !AffectsBalance(t.order.kind) {
      r := Process(db, t, w, None, None, now, context, before, row, ProcessStill(row, w.State(), now, context), n);
    } else {
      r := ApplyPlain(db, t, w, now, context, before, row, n);
    }
  }

  method ResolveExisting(db: Database, t: WagerTransaction) returns (r: Result<SubmitResult, Error>)
    requires IdentitiesOk(db.wagers)
    ensures r == Machine.ResolveExisting(db.Value(), t.order)
  {
    hide IdentitiesOk;
    var byKey := db.FindByIdempotencyKey(t.order.providerId, t.order.idempotencyKey);
    if byKey != null {
      if byKey.order.payloadHash != t.order.payloadHash {
        return Failure(IdempotencyKeyConflict(byKey.id));
      }
      return Success(ResultOf(byKey.State(), true));
    }
    var byExternal := db.FindByExternalId(t.order.providerId, t.order.externalId);
    if byExternal != null {
      return Failure(ExternalTransactionIdReused(byExternal.id));
    }
    return Failure(ServiceUnavailable);
  }

  /** The consumer submits while its own inbox row is still unprocessed. */
  function WithoutInbox(db: Db): Db {
    db.(inbox := map[])
  }

  lemma AdmissibleAnyInbox(db: Db, e: Effect, n: nat)
    requires Admissible(WithoutInbox(db), e, n)
    ensures Admissible(db, e, n)
  {
  }

  lemma SubmissionAnyInbox(db: Db, c: Command, now: int, n: nat)
    ensures SubmissionEffect(WithoutInbox(db), c, now, n) == SubmissionEffect(db, c, now, n)
  {
    assert ReadsFor(WithoutInbox(db), Candidate(c, now, n)) == ReadsFor(db, Candidate(c, now, n));
  }

  lemma SubmitAdmissibleAnyInbox(db: Db, c: Command, now: int, n: nat)
    requires Inv(WithoutInbox(db)) && Fresh(db, n) && SubmitFailure(c).None?
    requires IdentityFree(db.wagers, Candidate(c, now, n))
    ensures Admissible(db, SubmissionEffect(db, c, now, n), n)
  {
    SubmissionAnyInbox(db, c, now, n);
    hide Inv, SubmissionEffect, Admissible;
    SubmitAdmissible(WithoutInbox(db), c, now, n);
    AdmissibleAnyInbox(db, SubmissionEffect(db, c, now, n), n);
  }

  lemma WithoutInboxIsGood(db: Db)
    requires Inv(db)
    ensures Inv(WithoutInbox(db))
  {
    InboxFrame(db, map[]);
  }

  /** executeWithin is the atomic submission. */
  method ExecuteWithin(db: Database, c: Command, now: int, n: nat) returns (r: Result<SubmitResult, Error>)
    requires Inv(WithoutInbox(db.Value())) && Fresh(db.Value(), n)
    modifies db
    ensures (db.Value(), r) == Submit(old(db.Value()), c, now, n)
  {
    ghost var before := db.Value();
    assert IdentitiesOk(before.wagers) && LedgerOk(before) && WalletsOk(before);
    if c.money.cents < 0 || c.money.cents > MAX_CENTS || !IsCurrency(c.money.currency) {
      return Failure(DomainFailure(InvalidMoney));
    }
    if c.money.cents == 0 {
      return Failure(AmountNotPositive);
    }
    var created := Create(c, now, n);
    if created == null {
      return Failure(DomainFailure(InvalidWagerTransaction));
    }
    ReservationChecks(c, now, n);
    hide Inv, IdentitiesOk, LedgerOk, WalletsOk, Fresh, IdentityFree, DecideSubmission, Admissible, WagerChecks;
    var owned := db.ReserveWager(created);
    if owned.Failure? {
      return Failure(owned.error);
    }
    if !owned.value {
      r := ResolveExisting(db, created);
      return;
    }
    SubmitAdmissibleAnyInbox(before, c, now, n);
    SubmittableOrder(c, now);
    ReservedIdentities(before, created.State());
    var result := ApplySubmission(db, created, now, ContextOf(c, now, n), before, Candidate(c, now, n), n);
    return Success(result);
  }

  /** WagerTransaction.create */
  method Create(c: Command, now: int, n: nat) returns (t: WagerTransaction?)
    requires 0 < c.money.cents
    ensures t == null <==>
            || c.kind.Opening? || c.providerId == INTERNAL_PROVIDER
            || (RequiresReference(c.kind) && (c.referenceExternalId.None? || c.referenceExternalId.value == ""))
    ensures t != null ==> fresh(t) && t.State() == Candidate(c, now, n)
  {
    if c.kind.Opening? {
      return null;
    }
    if c.providerId == INTERNAL_PROVIDER {
      return null;
    }
    if RequiresReference(c.kind) && (c.referenceExternalId.None? || c.referenceExternalId.value == "") {
      return null;
    }
    t := new WagerTransaction.Reserve(WagerId(n), OrderOf(c, now));
  }

  // ---------- consume-wager-message.ts ----------

  /** consume: any failure undoes the inbox row together with everything else. */
  method Consume(db: Database, d: Delivery, c: Command, at: Instants, n: nat) returns (r: ConsumeOutcome)
    requires Inv(db.Value()) && Fresh(db.Value(), n)
    modifies db
    ensures (db.Value(), r) == Machine.Consume(old(db.Value()), d, c, at, n)
  {
    var snapshot := db.Value();
    var owned := db.ReserveMessage(d.key, d.payloadHash, at.receivedAt);
    if !owned {
      return ClassifyRedelivery(snapshot, d);
    }
    WithoutInboxIsGood(snapshot);
    assert WithoutInbox(db.Value()) == WithoutInbox(snapshot);
    hide Inv, Fresh, Submit;
    SubmitIgnoresInbox(snapshot, db.inbox, c, at.now, n);
    var result := ExecuteWithin(db, c, at.now, n);
    if result.Failure? {
      db.Restore(snapshot);
      return ClassifyFailure(result.error);
    }
    var marked := db.MarkMessageProcessed(d.key, at.processedAt);
    if marked.Fail? {
      db.Restore(snapshot);
      return Transient;
    }
    return Consumed(result.value);
  }

  // ---------- create-wallet.ts ----------

  /** The opening writes: the wallet is new, so its row, entry and events cannot collide either. */
  lemma OpeningRowAllowed(db: Db, c: CreateCommand, now: int, n: nat)
    requires Fresh(db, n)
    requires 0 < c.initialBalance.cents <= MAX_CENTS && IsCurrency(c.initialBalance.currency)
    ensures var t := Reserved(WagerId(n), OpeningOrder(c, WalletId(n), now));
            var withWallet := WithWallet(db, NewWallet(c, now, n));
            WagerChecks(t) && UpdateWagerAllowed(AfterReserve(withWallet, t), OpeningEffect(c, now, n).row)
  {
    hide Payload.PayloadHash, HasActiveReversal, ActivelyReverses, Fresh;
  }

  lemma OpeningIdentityFree(db: Db, c: CreateCommand, now: int, n: nat)
    requires Inv(db) && Fresh(db, n)
    ensures IdentityFree(db.wagers, Reserved(WagerId(n), OpeningOrder(c, WalletId(n), now)))
  {
    hide IdentityFree, OpeningOrder, Fresh;
    OpeningNeverLoses(db, c, now, n);
  }

  lemma OpeningEventsAllowed(db: Db, c: CreateCommand, now: int, n: nat)
    requires Fresh(db, n)
    ensures NewEventIds(db.outbox, OpeningEffect(c, now, n).events)
  {
    hide Payload.PayloadHash;
  }

  lemma OpeningEntryAllowed(db: Db, c: CreateCommand, now: int, n: nat)
    requires LedgerOk(db) && Fresh(db, n)
    requires 0 < c.initialBalance.cents <= MAX_CENTS && IsCurrency(c.initialBalance.currency)
    ensures var t := Reserved(WagerId(n), OpeningOrder(c, WalletId(n), now));
            var withWallet := WithWallet(db, NewWallet(c, now, n));
            var e := OpeningEffect(c, now, n);
            InsertLedgerAllowed(AfterUpdate(AfterReserve(withWallet, t), e.row), e.movement.value.entry)
  {
    hide Payload.PayloadHash;
    assert forall i :: 0 <= i < |db.ledger| ==> EntryOk(db, db.ledger[i]);
  }

  /** The writes that give a new wallet its OPENING transaction, entry and events. */
  method WriteOpening(db: Database, c: CreateCommand, now: int, ghost before: Db, n: nat)
    requires Inv(before) && Fresh(before, n) && WalletFree(before, NewWallet(c, now, n))
    requires 0 < c.initialBalance.cents <= MAX_CENTS && IsCurrency(c.initialBalance.currency)
    requires db.Value() == WithWallet(before, NewWallet(c, now, n))
    modifies db
    ensures db.Value() == Apply(before, OpeningEffect(c, now, n))
  {
    hide Payload.PayloadHash, LedgerOk, IdentitiesOk, RowsOk;
    hide Inv, Fresh, WalletFree, UpdateWagerAllowed, InsertLedgerAllowed, WagerChecks, IdentityFree, WalletsOk;
    GoodBooks(before);
    OpeningIdentityFree(before, c, now, n);
    OpeningRowAllowed(before, c, now, n);
    OpeningEntryAllowed(before, c, now, n);
    OpeningEventsAllowed(before, c, now, n);
    var wallet := NewWallet(c, now, n);
    var opening := new WagerTransaction.Reserve(WagerId(n), OpeningOrder(c, wallet.id, now));
    var owned := db.ReserveWager(opening);
    assert owned == Success(true);
    var outcome := opening.MarkProcessed(None, wallet.balance, now);
    assert outcome.Pass?;
    db.UpdateWager(opening);
    var entry := OpeningEntry(c, now, n);
    db.InsertEntry(entry);
    var context := Context(EventId(n), c.correlationId, NoCause, now);
    db.Enqueue([WagerEvent(opening.State(), context, ProcessedData(opening.State(), now)),
                BalanceEvent(wallet, entry, context, n)]);
  }

  /** execute: the wallet with its opening, or the wallet that already serves the player and currency. */
  method CreateWallet(db: Database, c: CreateCommand, now: int, n: nat) returns (r: Result<WalletRow, Error>)
    requires Inv(db.Value()) && Fresh(db.Value(), n)
    modifies db
    ensures (db.Value(), r) == Machine.CreateWallet(old(db.Value()), c, now, n)
  {
    ghost var before := db.Value();
    var money := c.initialBalance;
    if money.cents < 0 || money.cents > MAX_CENTS || !IsCurrency(money.currency) {
      return Failure(DomainFailure(InvalidMoney));
    }
    assert WalletsOk(before);
    hide Inv, Fresh, OpeningEffect;
    var wallet := NewWallet(c, now, n);
    var created := db.InsertWalletIfAbsent(wallet);
    if !created {
      var existing := db.FindByPlayerAndCurrency(c.playerId, money.currency);
      return Failure(WalletAlreadyExists(existing));
    }
    if money.cents > 0 {
      WriteOpening(db, c, now, before, n);
    }
    return Success(wallet);
  }

  // ---------- resolve-pending-reference.ts ----------

  datatype TickOutcome =
    | Idle
    | Rescheduled(transactionId: Id, attempts: nat)
    | Settled(transactionId: Id, status: Status, failure: Option<FailureCode>)

  method FindReference(db: Database, t: WagerTransaction) returns (reference: WagerTransaction?)
    requires IdentitiesOk(db.wagers) && t.order.referenceExternalId.Some?
    ensures reference == null <==>
            Store.FindByExternalId(db.wagers, t.order.providerId, t.order.referenceExternalId.value).None?
    ensures reference != null ==>
              && fresh(reference)
              && Store.FindByExternalId(db.wagers, t.order.providerId, t.order.referenceExternalId.value)
                 == Some(reference.State())
  {
    reference := db.FindByExternalId(t.order.providerId, t.order.referenceExternalId.value);
  }

  method Settle(db: Database, t: WagerTransaction, now: int, ghost before: Db, ghost row: Wager, n: nat)
    returns (r: SubmitResult)
    requires Open(db, before, t, row, n) && row.status.PendingReference?
    requires LedgerOk(before) && WalletsOk(before) && IdentitiesOk(db.wagers)
    requires row.order.referenceExternalId.Some? && 0 < row.order.money.cents
    requires row.order.walletId in before.wallets ==>
               before.wallets[row.order.walletId].balance.currency == row.order.money.currency
    requires Admissible(before, DecideSettlement(row, ReadsFor(before, row), now, n), n)
    modifies db, t
    ensures var e := DecideSettlement(row, ReadsFor(before, row), now, n);
            db.Value() == Apply(before, e) && r == ResultOf(e.row, false)
  {
    hide Admissible, LedgerOk, IdentitiesOk, HasActiveReversal, DecideResolved, Owns;
    var context := WorkerContext(t.State(), now, n);
    var w := db.LockWallet(t.order.walletId);
    if w == null {
      r := Reject(db, t, WalletNotFound, None, now, context, before, row, n);
      return;
    }
    assert Holds(before, row, w.State());
    hide WalletsOk;
    var reference := FindReference(db, t);
    if reference == null || !IsTerminal(reference.status) {
      var code := if reference == null then ReferenceNotFound else ReferenceNotProcessed;
      r := Reject(db, t, code, Some(w.balance), now, context, before, row, n);
      return;
    }
    r := ApplyResolvedReversal(db, t, reference, w, now, context, before, row, n);
  }

  lemma GoodBooks(db: Db)
    requires Inv(db)
    ensures LedgerOk(db) && WalletsOk(db) && IdentitiesOk(db.wagers) && RowsOk(db)
  {
  }

  lemma WaitingFacts(db: Db, t: Wager, now: int, n: nat)
    requires Inv(db) && Fresh(db, n) && Due(db, t.id, now) && db.wagers[t.id] == t
    ensures Owns(db, t, n) && Visible(db, t) == db.wagers
    ensures t.order.referenceExternalId.Some? && 0 < t.order.money.cents
    ensures t.order.walletId in db.wallets
    ensures db.wallets[t.order.walletId].balance.currency == t.order.money.currency
    ensures LedgerOk(db) && WalletsOk(db) && IdentitiesOk(db.wagers)
  {
    hide Inv, Fresh, LedgerOk, WalletsOk, IdentitiesOk;
    GoodBooks(db);
    WaitingWallet(db, t);
    assert WagerChecks(t);
  }

  /** reschedule: no wallet lock, no event. */
  method Reschedule(
    db: Database, t: WagerTransaction, now: int, jitter: Backoff.Jitter, ghost before: Db, ghost row: Wager, n: nat)
    requires Open(db, before, t, row, n) && LedgerOk(before) && row.status.PendingReference?
    requires Admissible(before, Effect(AsRescheduled(row, now + Backoff.DelayMs(row.attempts + 1, jitter)), None, []), n)
    modifies db, t
    ensures db.Value() ==
            Apply(before, Effect(AsRescheduled(row, now + Backoff.DelayMs(row.attempts + 1, jitter)), None, []))
    ensures t.attempts == row.attempts + 1
  {
    ghost var e := Effect(AsRescheduled(row, now + Backoff.DelayMs(row.attempts + 1, jitter)), None, []);
    var outcome := t.ScheduleRetry(now + Backoff.DelayMs(t.attempts + 1, jitter));
    assert outcome.Pass?;
    hide Admissible, LedgerOk;
    Write(db, t, null, None, [], before, row, e, n);
  }

  /** The decision of a tick, told apart by what the worker sees before it takes the wallet lock. */
  lemma TickEffectIs(db: Db, t: Wager, now: int, jitter: Backoff.Jitter, n: nat)
    requires t.id in db.wagers && db.wagers[t.id] == t
    ensures TickEffect(db, t.id, now, jitter, n) ==
            if !Resolvable(ReferenceOf(db, t)) && !Backoff.Exhausted(t.attempts, t.expiresAt, now)
            then Effect(AsRescheduled(t, now + Backoff.DelayMs(t.attempts + 1, jitter)), None, [])
            else DecideSettlement(t, ReadsFor(db, t), now, n)
  {
    hide ReadsFor, DecideSettlement, ReferenceOf;
  }

  /** run: one tick on the row it locks is the atomic tick. */
  method RunTick(db: Database, locked: set<Id>, now: int, jitter: Backoff.Jitter, n: nat) returns (r: TickOutcome)
    requires Inv(db.Value()) && Fresh(db.Value(), n)
    modifies db
    ensures r.Idle? ==>
              && db.Value() == old(db.Value())
              && forall id :: id in db.wagers && id !in locked ==> !Due(db.Value(), id, now)
    ensures !r.Idle? ==>
              && r.transactionId !in locked && Due(old(db.Value()), r.transactionId, now)
              && db.Value() == Tick(old(db.Value()), r.transactionId, now, jitter, n)
    ensures r.Settled? ==>
              var row := TickEffect(old(db.Value()), r.transactionId, now, jitter, n).row;
              r.status == row.status && r.failure == row.failure
    ensures r.Rescheduled? ==>
              TickEffect(old(db.Value()), r.transactionId, now, jitter, n).row.attempts == r.attempts
  {
    ghost var before := db.Value();
    assert RowsOk(before);
    hide Inv, RowsOk, Fresh, WagerChecks, WagerForeignKeys;
    var pending := db.LockDuePendingReference(now, locked);
    if pending == null {
      return Idle;
    }
    ghost var row := pending.State();
    r := TickOn(db, pending, now, jitter, before, row, n);
  }

  /** The rest of run, on the row it has locked. */
  method TickOn(
    db: Database, pending: WagerTransaction, now: int, jitter: Backoff.Jitter, ghost before: Db, ghost row: Wager, n: nat)
    returns (r: TickOutcome)
    requires Inv(before) && Fresh(before, n) && db.Value() == before && pending.State() == row
    requires Due(before, row.id, now) && before.wagers[row.id] == row
    modifies db, pending
    ensures !r.Idle? && r.transactionId == row.id
    ensures db.Value() == Tick(before, row.id, now, jitter, n)
    ensures var e := TickEffect(before, row.id, now, jitter, n);
            if r.Settled? then r.status == e.row.status && r.failure == e.row.failure else r.attempts == e.row.attempts
  {
    hide Inv, Fresh, Admissible, LedgerOk, IdentitiesOk, WalletsOk, DecideSettlement, Owns;
    hide ReadsFor, TickEffect, Apply;
    WaitingFacts(before, row, now, n);
    TickEffectIs(before, row, now, jitter, n);
    TickEffectAdmissible(before, row.id, now, jitter, n);
    var reference := FindReference(db, pending);
    var resolvable := reference != null && IsTerminal(reference.status);
    if !resolvable && !Backoff.Exhausted(pending.attempts, pending.expiresAt, now) {
      Reschedule(db, pending, now, jitter, before, row, n);
      return Rescheduled(pending.id, pending.attempts);
    }
    var result := Settle(db, pending, now, before, row, n);
    return Settled(pending.id, result.status, result.failure);
  }

  /** recordFailure, in a transaction of its own. */
  method RecordFailure(db: Database, id: Id, now: int, n: nat) returns (recorded: bool)
    requires Inv(db.Value()) && Fresh(db.Value(), n)
    modifies db
    ensures db.Value() == Machine.RecordFailure(old(db.Value()), id, now, n)
    ensures recorded <==> id in old(db.wagers) && old(db.wagers)[id].status.PendingReference?
  {
    hide Inv, Fresh, Admissible, LedgerOk, WalletsOk, IdentitiesOk, RowsOk;
    ghost var before := db.Value();
    if id !in db.wagers || !db.wagers[id].status.PendingReference? {
      return false;
    }
    FailEffectAdmissible(before, id, now, n);
    GoodBooks(before);
    RowIsNamed(before, id);
    var pending := new WagerTransaction.Rehydrate(db.wagers[id]);
    ghost var row := pending.State();
    var wallet := db.LockWallet(pending.order.walletId);
    assert wallet != null;
    ghost var e := DecideFailure(row, wallet.State(), now, n);
    var outcome := pending.MarkFailed(wallet.balance, now);
    assert outcome.Pass?;
    var context := WorkerContext(pending.State(), now, n);
    assert Visible(before, row) == before.wagers;
    Write(db, pending, null, None,
          [WagerEvent(pending.State(), context, RejectedData(pending.State(), context.occurredAt))],
          before, row, e, n);
    return true;
  }
}
