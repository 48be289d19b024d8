/**
 * What one database transaction decides from the rows it has read, as a value: the wager
 * row it writes, the movement of the wallet if any, and the events it enqueues.
 */
module Decisions {
  import opened Wrappers
  import opened Domain
  import opened Store
  import Backoff

  datatype Context = Context(eventId: Id, correlationId: string, cause: Cause, occurredAt: int)

  datatype Movement = Movement(wallet: WalletRow, entry: LedgerEntry)

  datatype Effect = Effect(row: Wager, movement: Option<Movement>, events: seq<Event>)

  /** What a decision reads: the locked wallet, the referenced wager, and its reversal slot. */
  datatype Reads = Reads(wallet: Option<WalletRow>, reference: Option<Wager>, active: bool)

  // The slots of the ids one operation draws.
  function WagerId(n: nat): Id { Id(n, 0) }
  function EventId(n: nat): Id { Id(n, 1) }
  function EntryId(n: nat): Id { Id(n, 2) }
  function BalanceEventId(n: nat): Id { Id(n, 3) }
  function WalletId(n: nat): Id { Id(n, 4) }

  // ---------- wager-events.ts ----------

  function ProcessedData(t: Wager, occurredAt: int): EventData {
    WagerProcessed(t.id, t.order.providerId, t.order.externalId, t.order.walletId, t.order.playerId,
                   t.order.roundId, t.order.gameId, t.order.kind, t.order.money,
                   if t.processedAt.Some? then t.processedAt.value else occurredAt, t.referenceId)
  }

  function RejectedData(t: Wager, occurredAt: int): EventData {
    WagerRejected(t.id, t.order.providerId, t.order.externalId, t.order.walletId, t.order.kind,
                  t.order.money, t.failure, if t.processedAt.Some? then t.processedAt.value else occurredAt)
  }

  function PendingReferenceData(t: Wager): EventData {
    WagerPendingReference(t.id, t.order.providerId, t.order.externalId, t.order.walletId, t.order.kind,
                          if t.order.referenceExternalId.Some? then t.order.referenceExternalId.value else "",
                          t.order.money)
  }

  function BalanceData(e: LedgerEntry, walletVersion: int): EventData {
    BalanceChanged(e.walletId, e.transactionId, e.direction, e.money, e.before, e.after, walletVersion)
  }

  function WagerEvent(t: Wager, context: Context, data: EventData): Event {
    Event(context.eventId, t.id, context.correlationId, context.cause, context.occurredAt, data)
  }

  function BalanceEvent(w: WalletRow, e: LedgerEntry, context: Context, n: nat): Event {
    Event(BalanceEventId(n), w.id, context.correlationId, CausedByWager(e.transactionId), context.occurredAt,
          BalanceData(e, w.version))
  }

  // ---------- submit-wager-transaction.ts ----------

  function Reject(t: Wager, code: FailureCode, balance: Option<Cash>, now: int, context: Context): Effect {
    var row := AsRejected(t, code, balance, now);
    Effect(row, None, [WagerEvent(row, context, RejectedData(row, context.occurredAt))])
  }

  /** process for a kind without a ledger entry. */
  function ProcessStill(t: Wager, w: WalletRow, now: int, context: Context): Effect {
    var row := AsProcessed(t, None, w.balance, now);
    Effect(row, None, [WagerEvent(row, context, ProcessedData(row, context.occurredAt))])
  }

  /** move followed by process. */
  function ProcessMove(
    t: Wager, referenceId: Option<Id>, w: WalletRow, d: Direction, now: int, context: Context, n: nat
  ): Effect
  {
    var entry := EntryFor(w, d, EntryId(n), t.id, t.order.money, now);
    var wallet := AfterMove(w, d, t.order.money.cents, now);
    var row := AsProcessed(t, referenceId, wallet.balance, now);
    Effect(row, Some(Movement(wallet, entry)),
           [WagerEvent(row, context, ProcessedData(row, context.occurredAt)), BalanceEvent(wallet, entry, context, n)])
  }

  predicate Decidable(t: Wager, reference: Wager) {
    reference.id == t.id || IsTerminal(reference.status)
  }

  function DecideMovement(
    t: Wager, referenceId: Option<Id>, w: WalletRow, d: Direction, now: int, context: Context, n: nat
  ): Effect
  {
    var failure := MovementFailure(w, t.order.kind, t.order.money.cents, d);
    if failure.Some? then Reject(t, failure.value, Some(w.balance), now, context)
    else ProcessMove(t, referenceId, w, d, now, context, n)
  }

  /** applyResolvedReversal: shared by the submission and the pending reference worker. */
  function DecideResolved(
    t: Wager, reference: Wager, w: WalletRow, active: bool, now: int, context: Context, n: nat
  ): Effect
  {
    var failure := ReversalFailure(t.order, reference);
    if failure.Some? then Reject(t, failure.value, Some(w.balance), now, context)
    else if active then Reject(t, ReferenceAlreadyReversed, Some(w.balance), now, context)
    else
      DecideMovement(t, Some(reference.id), w,
                     DirectionFor(t.order.kind, Some(reference.order.kind)).value, now, context, n)
  }

  function Wait(t: Wager, w: WalletRow, now: int, context: Context): Effect {
    var row := AsPendingReference(t, w.balance, now + Backoff.FIRST_RETRY_DELAY_MS, now + Backoff.TTL_MS);
    Effect(row, None, [WagerEvent(row, context, PendingReferenceData(row))])
  }

  /** A WIN may carry the BET of its round; only a decidable reference counts. */
  function DecideOptionalLink(
    t: Wager, r: Reads, w: WalletRow, now: int, context: Context, n: nat
  ): Effect
    requires t.order.kind.Bet? || t.order.kind.Win? || t.order.kind.Opening?
  {
    var d := DirectionFor(t.order.kind, None).value;
    if t.order.kind.Win? && t.order.referenceExternalId.Some? && r.reference.Some? && Decidable(t, r.reference.value) then
      var failure := WinReferenceFailure(t.order, r.reference.value);
      if failure.Some? then Reject(t, failure.value, Some(w.balance), now, context)
      else DecideMovement(t, Some(r.reference.value.id), w, d, now, context, n)
    else DecideMovement(t, None, w, d, now, context, n)
  }

  /** apply: the decision on a transaction whose identity has just been reserved. */
  function DecideSubmission(t: Wager, r: Reads, now: int, context: Context, n: nat): Effect {
    if r.wallet.None? then Reject(t, WalletNotFound, None, now, context)
    else
      var w := r.wallet.value;
      if w.playerId != t.order.playerId then Reject(t, WalletPlayerMismatch, None, now, context)
      else if w.balance.currency != t.order.money.currency then
        Reject(t, CurrencyMismatch, Some(w.balance), now, context)
      else if RequiresReference(t.order.kind) then
        if r.reference.None? || !Decidable(t, r.reference.value) then Wait(t, w, now, context)
        else DecideResolved(t, r.reference.value, w, r.active, now, context, n)
      else if !AffectsBalance(t.order.kind) then ProcessStill(t, w, now, context)
      else DecideOptionalLink(t, r, w, now, context, n)
  }

  // ---------- resolve-pending-reference.ts ----------

  predicate Resolvable(reference: Option<Wager>) {
    reference.Some? && IsTerminal(reference.value.status)
  }

  function WorkerContext(t: Wager, now: int, n: nat): Context {
    Context(EventId(n), t.order.correlationId, CausedByWager(t.id), now)
  }

  function DecideSettlement(t: Wager, r: Reads, now: int, n: nat): Effect {
    var context := WorkerContext(t, now, n);
    if r.wallet.None? then Reject(t, WalletNotFound, None, now, context)
    else if !Resolvable(r.reference) then
      Reject(t, if r.reference.None? then ReferenceNotFound else ReferenceNotProcessed,
             Some(r.wallet.value.balance), now, context)
    else DecideResolved(t, r.reference.value, r.wallet.value, r.active, now, context, n)
  }

  /** A tick reads the reference first without the wallet lock, and again under it. */
  function DecideTick(
    t: Wager, first: Option<Wager>, r: Reads, now: int, jitter: Backoff.Jitter, n: nat
  ): Effect
  {
    if !Resolvable(first) && !Backoff.Exhausted(t.attempts, t.expiresAt, now) then
      Effect(AsRescheduled(t, now + Backoff.DelayMs(t.attempts + 1, jitter)), None, [])
    else DecideSettlement(t, r, now, n)
  }

  /** recordFailure: a deterministic failure of the settlement ends the wait. */
  function DecideFailure(t: Wager, w: WalletRow, now: int, n: nat): Effect {
    var context := WorkerContext(t, now, n);
    var row := AsFailed(t, w.balance, now);
    Effect(row, None, [WagerEvent(row, context, RejectedData(row, context.occurredAt))])
  }

  // ---------- commit ----------

  function Apply(db: Db, e: Effect): Db {
    var wagers := db.wagers[e.row.id := e.row];
    var outbox := db.outbox + e.events;
    if e.movement.None? then db.(wagers := wagers, outbox := outbox)
    else
      var m := e.movement.value;
      db.(wagers := wagers, outbox := outbox,
          wallets := db.wallets[m.wallet.id := m.wallet], ledger := db.ledger + [m.entry])
  }
}
