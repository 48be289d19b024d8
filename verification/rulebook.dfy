/**
 * The rules of the service as its documentation states them, on the fields of the rows and nothing
 * else: what each operation is ruled to do, and what the tables and the outbox then hold. The
 * decisions the transactions take are proved to follow it.
 */
module Rulebook {
  import opened Wrappers
  import opened Domain
  import opened Store
  import opened Decisions
  import Backoff

  datatype Ruling =
    | Accept(link: Option<Id>, change: int)   // the signed hundredths the wallet gains
    | Wait
    | Refuse(code: FailureCode)

  // ---------- references ----------

  predicate MayReverse(reversal: Kind, reference: Kind) {
    || (reversal.Refund? && reference.Bet?)
    || (reversal.Rollback? && (reference.Bet? || reference.Win? || reference.Refund?))
  }

  /** Both belong to one provider, player, wallet and round. */
  predicate SameRound(a: Order, b: Order) {
    a.providerId == b.providerId && a.playerId == b.playerId && a.walletId == b.walletId && a.roundId == b.roundId
  }

  predicate SettledRow(t: Wager) {
    t.status == Processed || t.status == Rejected || t.status == Failed
  }

  /** A reference that can be ruled on: it is settled, or it is the operation itself. */
  predicate Ripe(own: Id, r: Option<Wager>) {
    r.Some? && (r.value.id == own || SettledRow(r.value))
  }

  /** What a rollback takes back, or a refund gives back. */
  function ReversalChange(o: Order, reference: Kind): int {
    if o.kind.Refund? || reference.Bet? then o.money.cents else -o.money.cents
  }

  // ---------- rulings ----------

  /** Money may move while the balance stays between nothing and 999999999999999999.99. */
  function MoneyRuling(o: Order, w: WalletRow, link: Option<Id>, change: int): Ruling {
    if w.balance.cents + change < 0 then Refuse(if o.kind.Bet? then InsufficientFunds else ReversalWouldOverdraw)
    else if w.balance.cents + change > 99_999_999_999_999_999_999 then Refuse(BalanceLimitExceeded)
    else Accept(link, change)
  }

  /** What binds an operation to its reference, in the order in which it is checked. */
  function BindingRuling(o: Order, r: Wager): Option<FailureCode> {
    if r.status != Processed then Some(ReferenceNotProcessed)
    else if !SameRound(o, r.order) then Some(ReferenceMismatch)
    else if r.order.money.currency != o.money.currency then Some(CurrencyMismatch)
    else None
  }

  function ReversalRuling(o: Order, w: WalletRow, r: Wager, active: bool): Ruling {
    if !MayReverse(o.kind, r.order.kind) then Refuse(ReferenceKindNotReversible)
    else if BindingRuling(o, r).Some? then Refuse(BindingRuling(o, r).value)
    else if r.order.money.cents != o.money.cents then Refuse(ReversalAmountMismatch)
    else if active then Refuse(ReferenceAlreadyReversed)
    else MoneyRuling(o, w, Some(r.id), ReversalChange(o, r.order.kind))
  }

  function WinRuling(own: Id, o: Order, w: WalletRow, r: Option<Wager>): Ruling {
    if !Ripe(own, r) then MoneyRuling(o, w, None, o.money.cents)
    else if !r.value.order.kind.Bet? then Refuse(ReferenceMismatch)
    else if BindingRuling(o, r.value).Some? then Refuse(BindingRuling(o, r.value).value)
    else MoneyRuling(o, w, Some(r.value.id), o.money.cents)
  }

  function SubmissionRuling(own: Id, o: Order, w: Option<WalletRow>, r: Option<Wager>, active: bool): Ruling {
    if w.None? then Refuse(WalletNotFound)
    else if w.value.playerId != o.playerId then Refuse(WalletPlayerMismatch)
    else if w.value.balance.currency != o.money.currency then Refuse(CurrencyMismatch)
    else if o.kind.Bet? then MoneyRuling(o, w.value, None, -o.money.cents)
    else if o.kind.Win? then WinRuling(own, o, w.value, r)
    else if o.kind.Loss? then Accept(None, 0)
    else if Ripe(own, r) then ReversalRuling(o, w.value, r.value, active)
    else Wait
  }

  /** What the worker rules once it has the wallet: here an unsettled reference is refused. */
  function SettlementRuling(o: Order, w: Option<WalletRow>, r: Option<Wager>, active: bool): Ruling {
    if w.None? then Refuse(WalletNotFound)
    else if r.None? then Refuse(ReferenceNotFound)
    else if !SettledRow(r.value) then Refuse(ReferenceNotProcessed)
    else ReversalRuling(o, w.value, r.value, active)
  }

  // ---------- what a ruling writes ----------

  function Change(ruling: Ruling): int {
    if ruling.Accept? then ruling.change else 0
  }

  /** The balance an operation stores and answers with: the wallet's after the movement, unless it is not the player's. */
  function BalanceShown(w: Option<WalletRow>, ruling: Ruling): Option<Cash> {
    if w.None? || ruling == Refuse(WalletNotFound) || ruling == Refuse(WalletPlayerMismatch) then None
    else Some(Cash(w.value.balance.cents + Change(ruling), w.value.balance.currency))
  }

  function RowAfter(t: Wager, w: Option<WalletRow>, ruling: Ruling, at: int): Wager {
    var balance := BalanceShown(w, ruling);
    match ruling
    case Accept(link, _) =>
      Wager(t.id, t.order, Processed, link, None, balance, t.attempts, t.nextAttemptAt, t.expiresAt, Some(at))
    case Wait =>
      Wager(t.id, t.order, PendingReference, None, None, balance, 0, Some(at + 5_000), Some(at + 21_600_000), None)
    case Refuse(code) =>
      Wager(t.id, t.order, Rejected, None, Some(code), balance, t.attempts, t.nextAttemptAt, t.expiresAt, Some(at))
  }

  function WalletAfter(w: WalletRow, change: int, at: int): WalletRow {
    WalletRow(w.id, w.playerId, Cash(w.balance.cents + change, w.balance.currency), w.version + 1, w.createdAt,
              if w.updatedAt < at then at else w.updatedAt)
  }

  function EntryAfter(t: Wager, w: WalletRow, change: int, at: int, n: nat): LedgerEntry {
    LedgerEntry(Id(n, 2), w.id, t.id, if change < 0 then Debit else Credit, t.order.money,
                w.balance.cents, w.balance.cents + change, at)
  }

  // ---------- what the outbox says ----------

  /** A settled or waiting row, told field by field. */
  predicate TellsRow(d: EventData, t: Wager) {
    match d
    case WagerProcessed(id, provider, external, wallet, player, round, game, kind, money, processedAt, reference) =>
      && t.status == Processed
      && id == t.id && provider == t.order.providerId && external == t.order.externalId
      && wallet == t.order.walletId && player == t.order.playerId && round == t.order.roundId
      && game == t.order.gameId && kind == t.order.kind && money == t.order.money
      && Some(processedAt) == t.processedAt && reference == t.referenceId
    case WagerRejected(id, provider, external, wallet, kind, money, failure, processedAt) =>
      && (t.status == Rejected || t.status == Failed)
      && id == t.id && provider == t.order.providerId && external == t.order.externalId
      && wallet == t.order.walletId && kind == t.order.kind && money == t.order.money
      && failure == t.failure && Some(processedAt) == t.processedAt
    case WagerPendingReference(_, _, _, _, _, _, _) => t.status == PendingReference && TellsWait(d, t)
    case BalanceChanged(_, _, _, _, _, _, _) => false
  }

  predicate TellsWait(d: EventData, t: Wager) {
    && d.WagerPendingReference?
    && d.transactionId == t.id && d.providerId == t.order.providerId && d.externalId == t.order.externalId
    && d.walletId == t.order.walletId && d.kind == t.order.kind && d.money == t.order.money
    && Some(d.referenceExternalId) == t.order.referenceExternalId
  }

  predicate TellsEntry(d: EventData, e: LedgerEntry, version: int) {
    && d.BalanceChanged?
    && d.walletId == e.walletId && d.transactionId == e.transactionId && d.direction == e.direction
    && d.money == e.money && d.before == e.before && d.after == e.after && d.walletVersion == version
  }

  /** One event about the row under its own aggregate, and one about the wallet under the wallet's if money moved. */
  predicate Tells(events: seq<Event>, context: Context, row: Wager, moved: Option<(LedgerEntry, int)>, n: nat) {
    && |events| == (if moved.Some? then 2 else 1)
    && events[0].eventId == Id(n, 1) && events[0].aggregateId == row.id
    && events[0].correlationId == context.correlationId && events[0].cause == context.cause
    && events[0].occurredAt == context.occurredAt && TellsRow(events[0].data, row)
    && (moved.Some? ==>
          && events[1].eventId == Id(n, 3) && events[1].aggregateId == moved.value.0.walletId
          && events[1].correlationId == context.correlationId && events[1].cause == CausedByWager(row.id)
          && events[1].occurredAt == context.occurredAt && TellsEntry(events[1].data, moved.value.0, moved.value.1))
  }

  /** What a ruling writes, all of it. */
  predicate Writes(e: Effect, t: Wager, w: Option<WalletRow>, ruling: Ruling, context: Context, at: int, n: nat) {
    && e.row == RowAfter(t, w, ruling, at)
    && (Change(ruling) == 0 ==> e.movement.None? && Tells(e.events, context, e.row, None, n))
    && (Change(ruling) != 0 ==>
          && w.Some?
          && e.movement ==
             Some(Movement(WalletAfter(w.value, Change(ruling), at), EntryAfter(t, w.value, Change(ruling), at, n)))
          && Tells(e.events, context, e.row, Some((e.movement.value.entry, w.value.version + 1)), n))
  }

  // ---------- the decisions follow it ----------

  /** A row that is still to be decided, and a wallet it may be decided on. */
  predicate Undecided(t: Wager) {
    t.failure.None? && t.referenceId.None? && t.processedAt.None? && t.order.money.cents > 0
  }

  predicate WalletSound(w: Option<WalletRow>) {
    w.Some? ==> 0 <= w.value.balance.cents <= 99_999_999_999_999_999_999
  }

  lemma RefusalFollows(
    t: Wager, w: Option<WalletRow>, code: FailureCode, balance: Option<Cash>, at: int, context: Context, n: nat)
    requires Undecided(t) && context.occurredAt == at && context.eventId == EventId(n)
    requires balance == BalanceShown(w, Refuse(code))
    ensures Writes(Reject(t, code, balance, at, context), t, w, Refuse(code), context, at, n)
  {
  }

  lemma MovementFollows(
    t: Wager, link: Option<Id>, w: WalletRow, d: Direction, at: int, context: Context, n: nat)
    requires Undecided(t) && WalletSound(Some(w)) && context.occurredAt == at && context.eventId == EventId(n)
    requires d.Debit? ==> t.order.kind.Bet? || t.order.kind.Rollback?
    ensures var change := if d.Debit? then -t.order.money.cents else t.order.money.cents;
            Writes(DecideMovement(t, link, w, d, at, context, n), t, Some(w), MoneyRuling(t.order, w, link, change),
                   context, at, n)
  {
  }

  lemma ReversalFollows(t: Wager, r: Wager, w: WalletRow, active: bool, at: int, context: Context, n: nat)
    requires Undecided(t) && WalletSound(Some(w)) && context.occurredAt == at && context.eventId == EventId(n)
    requires t.order.kind.Refund? || t.order.kind.Rollback?
    ensures Writes(DecideResolved(t, r, w, active, at, context, n), t, Some(w),
                   ReversalRuling(t.order, w, r, active), context, at, n)
  {
    hide Writes;
    var ruling := ReversalRuling(t.order, w, r, active);
    if ReversalFailure(t.order, r).Some? {
      RefusalFollows(t, Some(w), ReversalFailure(t.order, r).value, Some(w.balance), at, context, n);
    } else if active {
      RefusalFollows(t, Some(w), ReferenceAlreadyReversed, Some(w.balance), at, context, n);
    } else {
      MovementFollows(t, Some(r.id), w, DirectionFor(t.order.kind, Some(r.order.kind)).value, at, context, n);
    }
  }

  lemma PlainFollows(t: Wager, r: Reads, at: int, context: Context, n: nat)
    requires Undecided(t) && WalletSound(r.wallet) && context.occurredAt == at && context.eventId == EventId(n)
    requires r.wallet.Some? && (t.order.kind.Bet? || t.order.kind.Win?)
    requires r.reference.Some? ==> t.order.referenceExternalId.Some?
    ensures Writes(DecideOptionalLink(t, r, r.wallet.value, at, context, n), t, r.wallet,
                   if t.order.kind.Bet? then MoneyRuling(t.order, r.wallet.value, None, -t.order.money.cents)
                   else WinRuling(t.id, t.order, r.wallet.value, r.reference), context, at, n)
  {
    hide Writes;
    var w := r.wallet.value;
    if t.order.kind.Win? && Ripe(t.id, r.reference) {
      var failure := WinReferenceFailure(t.order, r.reference.value);
      if failure.Some? {
        RefusalFollows(t, Some(w), failure.value, Some(w.balance), at, context, n);
      } else {
        MovementFollows(t, Some(r.reference.value.id), w, Credit, at, context, n);
      }
    } else {
      MovementFollows(t, None, w, if t.order.kind.Bet? then Debit else Credit, at, context, n);
    }
  }

  lemma StillFollows(t: Wager, w: WalletRow, at: int, context: Context, n: nat)
    requires Undecided(t) && context.occurredAt == at && context.eventId == EventId(n)
    ensures Writes(ProcessStill(t, w, at, context), t, Some(w), Accept(None, 0), context, at, n)
  {
  }

  lemma WaitFollows(t: Wager, w: WalletRow, at: int, context: Context, n: nat)
    requires Undecided(t) && t.attempts == 0 && context.occurredAt == at && context.eventId == EventId(n)
    requires t.order.referenceExternalId.Some?
    ensures Writes(Decisions.Wait(t, w, at, context), t, Some(w), Ruling.Wait, context, at, n)
  {
  }

  /** Whatever a submission reads, it decides by the rulebook and writes what the rulebook says. */
  lemma SubmissionFollows(t: Wager, r: Reads, at: int, context: Context, n: nat)
    requires Undecided(t) && WalletSound(r.wallet) && context.occurredAt == at && context.eventId == EventId(n)
    requires t.attempts == 0 && !t.order.kind.Opening?
    requires r.reference.Some? || t.order.kind.Refund? || t.order.kind.Rollback? ==> t.order.referenceExternalId.Some?
    ensures Writes(DecideSubmission(t, r, at, context, n), t, r.wallet,
                   SubmissionRuling(t.id, t.order, r.wallet, r.reference, r.active), context, at, n)
  {
    hide Writes, DecideResolved, DecideOptionalLink, ReversalRuling, WinRuling;
    var ruling := SubmissionRuling(t.id, t.order, r.wallet, r.reference, r.active);
    if r.wallet.None? {
      RefusalFollows(t, None, WalletNotFound, None, at, context, n);
    } else if r.wallet.value.playerId != t.order.playerId {
      RefusalFollows(t, r.wallet, WalletPlayerMismatch, None, at, context, n);
    } else if r.wallet.value.balance.currency != t.order.money.currency {
      RefusalFollows(t, r.wallet, CurrencyMismatch, Some(r.wallet.value.balance), at, context, n);
    } else if t.order.kind.Loss? {
      StillFollows(t, r.wallet.value, at, context, n);
    } else if t.order.kind.Bet? || t.order.kind.Win? {
      PlainFollows(t, r, at, context, n);
    } else if Ripe(t.id, r.reference) {
      ReversalFollows(t, r.reference.value, r.wallet.value, r.active, at, context, n);
    } else {
      WaitFollows(t, r.wallet.value, at, context, n);
    }
  }

  /** And so does the worker once it settles. */
  lemma SettlementFollows(t: Wager, r: Reads, at: int, n: nat)
    requires Undecided(t) && WalletSound(r.wallet) && (t.order.kind.Refund? || t.order.kind.Rollback?)
    ensures Writes(DecideSettlement(t, r, at, n), t, r.wallet,
                   SettlementRuling(t.order, r.wallet, r.reference, r.active),
                   Context(Id(n, 1), t.order.correlationId, CausedByWager(t.id), at), at, n)
  {
    hide Writes, DecideResolved, ReversalRuling;
    var context := WorkerContext(t, at, n);
    if r.wallet.None? {
      RefusalFollows(t, None, WalletNotFound, None, at, context, n);
    } else if !Resolvable(r.reference) {
      RefusalFollows(t, r.wallet, if r.reference.None? then ReferenceNotFound else ReferenceNotProcessed,
                     Some(r.wallet.value.balance), at, context, n);
    } else {
      ReversalFollows(t, r.reference.value, r.wallet.value, r.active, at, context, n);
    }
  }

  /** A reschedule counts the attempt, puts the row off, and says nothing. */
  predicate PutOff(e: Effect, t: Wager, next: int) {
    && e.movement.None? && e.events == []
    && e.row == Wager(t.id, t.order, t.status, t.referenceId, t.failure, t.resultBalance, t.attempts + 1, Some(next),
                      t.expiresAt, t.processedAt)
  }

  /** A recorded failure ends the wait without moving money. */
  predicate GivenUp(e: Effect, t: Wager, w: WalletRow, at: int, n: nat) {
    && e.movement.None?
    && e.row == Wager(t.id, t.order, Failed, t.referenceId, Some(InfrastructureFailure), Some(w.balance), t.attempts,
                      t.nextAttemptAt, t.expiresAt, Some(at))
    && Tells(e.events, Context(Id(n, 1), t.order.correlationId, CausedByWager(t.id), at), e.row, None, n)
  }

  lemma TickFollows(
    t: Wager, first: Option<Wager>, r: Reads, at: int, jitter: Backoff.Jitter, n: nat)
    requires Undecided(t) && WalletSound(r.wallet) && (t.order.kind.Refund? || t.order.kind.Rollback?)
    requires t.expiresAt.Some? && t.attempts < 100
    ensures var e := DecideTick(t, first, r, at, jitter, n);
            if (first.None? || !SettledRow(first.value)) && at < t.expiresAt.value
            then PutOff(e, t, at + Backoff.DelayMs(t.attempts + 1, jitter))
            else
              Writes(e, t, r.wallet, SettlementRuling(t.order, r.wallet, r.reference, r.active),
                     Context(Id(n, 1), t.order.correlationId, CausedByWager(t.id), at), at, n)
  {
    hide Writes, DecideSettlement, SettlementRuling;
    SettlementFollows(t, r, at, n);
  }

  lemma FailureFollows(t: Wager, w: WalletRow, at: int, n: nat)
    ensures GivenUp(DecideFailure(t, w, at, n), t, w, at, n)
  {
  }
}
