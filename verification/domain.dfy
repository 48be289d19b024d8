/**
 * The wagering domain: kinds, statuses, rows, and the rules that decide one operation.
 * Amounts are whole hundredths (cents); module Moneys relates them to decimal strings.
 */
module Domain {
  import opened Wrappers

  /** A UUID: the position of an id within the operation that generated it. */
  datatype Id = Id(operation: nat, slot: nat)

  /** The order of ids in an ORDER BY. */
  predicate IdBefore(a: Id, b: Id) {
    a.operation < b.operation || (a.operation == b.operation && a.slot < b.slot)
  }

  datatype Kind = Opening | Bet | Win | Loss | Refund | Rollback

  datatype Status = Pending | PendingReference | Processed | Rejected | Failed

  datatype Direction = Debit | Credit

  datatype FailureCode =
    | InsufficientFunds
    | ReversalWouldOverdraw
    | BalanceLimitExceeded
    | ReferenceNotFound
    | ReferenceNotProcessed
    | ReferenceKindNotReversible
    | ReferenceMismatch
    | ReversalAmountMismatch
    | ReferenceAlreadyReversed
    | CurrencyMismatch
    | WalletNotFound
    | WalletPlayerMismatch
    | InfrastructureFailure

  datatype DomainError =
    | InvalidMoney
    | CurrenciesDiffer
    | FundsMissing
    | InvalidTransactionState(from: Status, to: Status)
    | InvalidLedgerEntry
    | InvalidWagerTransaction

  datatype Cash = Cash(cents: int, currency: string)

  const MAX_CENTS: int := 99_999_999_999_999_999_999
  const INTERNAL_PROVIDER: string := "internal"

  /** What one submission fixes for ever; the update statement never writes these columns. */
  datatype Order = Order(
    providerId: string,
    externalId: string,
    idempotencyKey: string,
    payloadHash: string,
    walletId: Id,
    playerId: string,
    roundId: string,
    gameId: string,
    kind: Kind,
    money: Cash,
    referenceExternalId: Option<string>,
    correlationId: string,
    createdAt: int)

  datatype Wager = Wager(
    id: Id,
    order: Order,
    status: Status,
    referenceId: Option<Id>,
    failure: Option<FailureCode>,
    resultBalance: Option<Cash>,
    attempts: nat,
    nextAttemptAt: Option<int>,
    expiresAt: Option<int>,
    processedAt: Option<int>)

  datatype WalletRow = WalletRow(
    id: Id,
    playerId: string,
    balance: Cash,
    version: int,
    createdAt: int,
    updatedAt: int)

  datatype LedgerEntry = LedgerEntry(
    id: Id,
    walletId: Id,
    transactionId: Id,
    direction: Direction,
    money: Cash,
    before: int,
    after: int,
    createdAt: int)

  // ---------- wager-transaction.ts ----------

  predicate IsTerminal(s: Status) {
    s.Processed? || s.Rejected? || s.Failed?
  }

  predicate RequiresReference(k: Kind) {
    k.Refund? || k.Rollback?
  }

  predicate AffectsBalance(k: Kind) {
    !k.Loss?
  }

  predicate DisclosesNoBalance(code: FailureCode) {
    code.WalletNotFound? || code.WalletPlayerMismatch?
  }

  function ReversibleKinds(k: Kind): set<Kind> {
    match k
    case Refund => {Bet}
    case Rollback => {Bet, Win, Refund}
    case _ => {}
  }

  function Opposite(d: Direction): Direction {
    if d.Debit? then Credit else Debit
  }

  /** ledgerDirectionFor: a ROLLBACK inverts its reference, which must not be one itself. */
  function DirectionFor(k: Kind, reference: Option<Kind>): Result<Direction, DomainError>
    decreases reference.Some?
  {
    match k
    case Loss => Failure(InvalidWagerTransaction)
    case Bet => Success(Debit)
    case Opening | Win | Refund => Success(Credit)
    case Rollback =>
      if reference.None? then Failure(InvalidWagerTransaction)
      else
        var inner :- DirectionFor(reference.value, None);
        Success(Opposite(inner))
  }

  function OverdraftCode(k: Kind): FailureCode {
    if RequiresReference(k) then ReversalWouldOverdraw else InsufficientFunds
  }

  /** The row `reserve` inserts. */
  function Reserved(id: Id, order: Order): Wager {
    Wager(id, order, Pending, None, None, None, 0, None, None, None)
  }

  function AsProcessed(t: Wager, referenceId: Option<Id>, balance: Cash, at: int): Wager {
    t.(status := Processed, referenceId := referenceId, resultBalance := Some(balance), processedAt := Some(at))
  }

  function AsPendingReference(t: Wager, balance: Cash, nextAttemptAt: int, expiresAt: int): Wager {
    t.(status := PendingReference, resultBalance := Some(balance),
       nextAttemptAt := Some(nextAttemptAt), expiresAt := Some(expiresAt))
  }

  function AsRejected(t: Wager, code: FailureCode, balance: Option<Cash>, at: int): Wager {
    t.(status := Rejected, failure := Some(code), resultBalance := balance, processedAt := Some(at))
  }

  function AsFailed(t: Wager, balance: Cash, at: int): Wager {
    t.(status := Failed, failure := Some(InfrastructureFailure), resultBalance := Some(balance), processedAt := Some(at))
  }

  function AsRescheduled(t: Wager, nextAttemptAt: int): Wager {
    t.(attempts := t.attempts + 1, nextAttemptAt := Some(nextAttemptAt))
  }

  predicate TransitionAllowed(from: Status, to: Status) {
    && !IsTerminal(from)
    && (to.Failed? ==> from.PendingReference?)
    && (to.PendingReference? ==> from.Pending?)
  }

  // ---------- reference.ts ----------

  function BindingFailure(operation: Order, reference: Wager): Option<FailureCode> {
    if !reference.status.Processed? then Some(ReferenceNotProcessed)
    else if || reference.order.providerId != operation.providerId
            || reference.order.playerId != operation.playerId
            || reference.order.walletId != operation.walletId
            || reference.order.roundId != operation.roundId then Some(ReferenceMismatch)
    else if reference.order.money.currency != operation.money.currency then Some(CurrencyMismatch)
    else None
  }

  function ReversalFailure(reversal: Order, reference: Wager): Option<FailureCode> {
    if reference.order.kind !in ReversibleKinds(reversal.kind) then Some(ReferenceKindNotReversible)
    else
      var binding := BindingFailure(reversal, reference);
      if binding.Some? then binding
      else if reference.order.money.cents != reversal.money.cents then Some(ReversalAmountMismatch)
      else None
  }

  function WinReferenceFailure(win: Order, reference: Wager): Option<FailureCode> {
    if !reference.order.kind.Bet? then Some(ReferenceMismatch) else BindingFailure(win, reference)
  }

  // ---------- wallet.ts ----------

  predicate CanDebit(w: WalletRow, cents: int) {
    w.balance.cents >= cents
  }

  predicate CanCredit(w: WalletRow, cents: int) {
    -MAX_CENTS <= w.balance.cents + cents <= MAX_CENTS
  }

  function Moved(w: WalletRow, d: Direction, cents: int): int {
    if d.Credit? then w.balance.cents + cents else w.balance.cents - cents
  }

  function EntryFor(w: WalletRow, d: Direction, entryId: Id, transactionId: Id, money: Cash, at: int): LedgerEntry {
    LedgerEntry(entryId, w.id, transactionId, d, money, w.balance.cents, Moved(w, d, money.cents), at)
  }

  /** The wallet after the movement: the version counts it and updatedAt never goes back. */
  function AfterMove(w: WalletRow, d: Direction, cents: int, at: int): WalletRow {
    w.(balance := Cash(Moved(w, d, cents), w.balance.currency),
       version := w.version + 1,
       updatedAt := if at > w.updatedAt then at else w.updatedAt)
  }

  /** movementFailure in submit-wager-transaction.ts. */
  function MovementFailure(w: WalletRow, k: Kind, cents: int, d: Direction): Option<FailureCode> {
    if d.Debit? then
      if CanDebit(w, cents) then None else Some(OverdraftCode(k))
    else
      if CanCredit(w, cents) then None else Some(BalanceLimitExceeded)
  }
}
