/** The mutable domain objects: their methods check, then update fields in place. */
module Entities {
  import opened Wrappers
  import opened Domain

  class WagerTransaction {
    const id: Id
    const order: Order
    var status: Status
    var referenceId: Option<Id>
    var failure: Option<FailureCode>
    var resultBalance: Option<Cash>
    var attempts: nat
    var nextAttemptAt: Option<int>
    var expiresAt: Option<int>
    var processedAt: Option<int>

    /** The row of the transaction (toWagerTransactionRow). */
    function State(): Wager
      reads this
    {
      Wager(id, order, status, referenceId, failure, resultBalance, attempts, nextAttemptAt, expiresAt, processedAt)
    }

    constructor Reserve(id: Id, order: Order)
      ensures State() == Reserved(id, order)
    {
      this.id := id;
      this.order := order;
      status, referenceId, failure, resultBalance := Pending, None, None, None;
      attempts, nextAttemptAt, expiresAt, processedAt := 0, None, None, None;
    }

    constructor Rehydrate(row: Wager)
      ensures State() == row
    {
      id, order, status := row.id, row.order, row.status;
      referenceId, failure, resultBalance := row.referenceId, row.failure, row.resultBalance;
      attempts, nextAttemptAt, expiresAt, processedAt :=
        row.attempts, row.nextAttemptAt, row.expiresAt, row.processedAt;
    }

    method MarkProcessed(referenceId: Option<Id>, balance: Cash, at: int) returns (r: Outcome<DomainError>)
      modifies this
      ensures r.Pass? <==> !IsTerminal(old(status))
      ensures State() == if r.Pass? then AsProcessed(old(State()), referenceId, balance, at) else old(State())
    {
      if !TransitionAllowed(status, Processed) {
        return Fail(InvalidTransactionState(status, Processed));
      }
      status := Processed;
      this.referenceId := referenceId;
      resultBalance := Some(balance);
      processedAt := Some(at);
      return Pass;
    }

    method MarkPendingReference(balance: Cash, nextAttemptAt: int, expiresAt: int) returns (r: Outcome<DomainError>)
      modifies this
      ensures r.Pass? <==> old(status).Pending? && RequiresReference(order.kind)
      ensures State() ==
              if r.Pass? then AsPendingReference(old(State()), balance, nextAttemptAt, expiresAt) else old(State())
    {
      if !TransitionAllowed(status, PendingReference) {
        return Fail(InvalidTransactionState(status, PendingReference));
      }
      if !RequiresReference(order.kind) {
        return Fail(InvalidWagerTransaction);
      }
      status := PendingReference;
      resultBalance := Some(balance);
      this.nextAttemptAt := Some(nextAttemptAt);
      this.expiresAt := Some(expiresAt);
      return Pass;
    }

    /** A rejection carries a balance exactly when its code does not hide the wallet. */
    method Reject(code: FailureCode, balance: Option<Cash>, at: int) returns (r: Outcome<DomainError>)
      modifies this
      ensures r.Pass? <==>
              !IsTerminal(old(status)) && !code.InfrastructureFailure? && (balance.None? <==> DisclosesNoBalance(code))
      ensures State() == if r.Pass? then AsRejected(old(State()), code, balance, at) else old(State())
    {
      if !TransitionAllowed(status, Rejected) {
        return Fail(InvalidTransactionState(status, Rejected));
      }
      if code.InfrastructureFailure? {
        return Fail(InvalidWagerTransaction);
      }
      var observedWallet := !DisclosesNoBalance(code);
      if observedWallet && balance.None? {
        return Fail(InvalidWagerTransaction);
      }
      if !observedWallet && balance.Some? {
        return Fail(InvalidWagerTransaction);
      }
      status := Rejected;
      failure := Some(code);
      resultBalance := balance;
      processedAt := Some(at);
      return Pass;
    }

    /** FAILED is only reached from PENDING_REFERENCE. */
    method MarkFailed(balance: Cash, at: int) returns (r: Outcome<DomainError>)
      modifies this
      ensures r.Pass? <==> old(status).PendingReference?
      ensures State() == if r.Pass? then AsFailed(old(State()), balance, at) else old(State())
    {
      if !TransitionAllowed(status, Failed) {
        return Fail(InvalidTransactionState(status, Failed));
      }
      status := Failed;
      failure := Some(InfrastructureFailure);
      resultBalance := Some(balance);
      processedAt := Some(at);
      return Pass;
    }

    method ScheduleRetry(nextAttemptAt: int) returns (r: Outcome<DomainError>)
      modifies this
      ensures r.Pass? <==> old(status).PendingReference?
      ensures State() == if r.Pass? then AsRescheduled(old(State()), nextAttemptAt) else old(State())
    {
      if !status.PendingReference? {
        return Fail(InvalidTransactionState(status, PendingReference));
      }
      attempts := attempts + 1;
      this.nextAttemptAt := Some(nextAttemptAt);
      return Pass;
    }
  }

  /** WalletLedgerEntry.create: a positive amount between two non-negative balances that add up. */
  method CreateEntry(e: LedgerEntry) returns (r: Result<LedgerEntry, DomainError>)
    ensures r.Success? <==>
            && 0 < e.money.cents && 0 <= e.before && 0 <= e.after
            && e.after == (if e.direction.Credit? then e.before + e.money.cents else e.before - e.money.cents)
            && -MAX_CENTS <= e.after <= MAX_CENTS
    ensures r.Success? ==> r.value == e
  {
    if e.money.cents <= 0 {
      return Failure(InvalidLedgerEntry);
    }
    if e.before < 0 || e.after < 0 {
      return Failure(InvalidLedgerEntry);
    }
    var expected := if e.direction.Credit? then e.before + e.money.cents else e.before - e.money.cents;
    if expected < -MAX_CENTS || expected > MAX_CENTS {
      return Failure(InvalidMoney);
    }
    if expected != e.after {
      return Failure(InvalidLedgerEntry);
    }
    return Success(e);
  }

  class Wallet {
    const id: Id
    const playerId: string
    const createdAt: int
    var balance: Cash
    var version: int
    var updatedAt: int

    function State(): WalletRow
      reads this
    {
      WalletRow(id, playerId, balance, version, createdAt, updatedAt)
    }

    constructor Rehydrate(row: WalletRow)
      ensures State() == row
    {
      id, playerId, createdAt := row.id, row.playerId, row.createdAt;
      balance, version, updatedAt := row.balance, row.version, row.updatedAt;
    }

    /** debit: fails without a trace unless the wallet covers the amount in its own currency. */
    method Debit(entryId: Id, transactionId: Id, money: Cash, at: int) returns (r: Result<LedgerEntry, DomainError>)
      modifies this
      ensures r.Success? <==>
              && money.currency == old(balance).currency && 0 < money.cents <= old(balance).cents
              && old(balance).cents - money.cents <= MAX_CENTS
      ensures r.Success? ==>
              && r.value == EntryFor(old(State()), Direction.Debit, entryId, transactionId, money, at)
              && State() == AfterMove(old(State()), Direction.Debit, money.cents, at)
      ensures r.Failure? ==> State() == old(State())
    {
      if money.currency != balance.currency {
        return Failure(CurrenciesDiffer);
      }
      if money.cents <= 0 {
        return Failure(InvalidLedgerEntry);
      }
      if balance.cents < money.cents {
        return Failure(FundsMissing);
      }
      r := Move(Direction.Debit, balance.cents - money.cents, entryId, transactionId, money, at);
    }

    /** credit: fails without a trace when the sum leaves Money's range. */
    method Credit(entryId: Id, transactionId: Id, money: Cash, at: int) returns (r: Result<LedgerEntry, DomainError>)
      modifies this
      ensures r.Success? <==>
              && money.currency == old(balance).currency && 0 < money.cents && 0 <= old(balance).cents
              && old(balance).cents + money.cents <= MAX_CENTS
      ensures r.Success? ==>
              && r.value == EntryFor(old(State()), Direction.Credit, entryId, transactionId, money, at)
              && State() == AfterMove(old(State()), Direction.Credit, money.cents, at)
      ensures r.Failure? ==> State() == old(State())
    {
      if money.currency != balance.currency {
        return Failure(CurrenciesDiffer);
      }
      if money.cents <= 0 {
        return Failure(InvalidLedgerEntry);
      }
      if balance.cents + money.cents > MAX_CENTS {
        return Failure(InvalidMoney);
      }
      r := Move(Direction.Credit, balance.cents + money.cents, entryId, transactionId, money, at);
    }

    /** apply: the entry is created first, so a refused entry leaves the wallet alone. */
    method Move(d: Direction, after: int, entryId: Id, transactionId: Id, money: Cash, at: int)
      returns (r: Result<LedgerEntry, DomainError>)
      requires after == Moved(State(), d, money.cents)
      modifies this
      ensures r.Success? <==> 0 < money.cents && 0 <= old(balance).cents && 0 <= after <= MAX_CENTS
      ensures r.Success? ==>
              && r.value == EntryFor(old(State()), d, entryId, transactionId, money, at)
              && State() == AfterMove(old(State()), d, money.cents, at)
      ensures r.Failure? ==> State() == old(State())
    {
      var entry :- CreateEntry(LedgerEntry(entryId, id, transactionId, d, money, balance.cents, after, at));
      balance := Cash(after, balance.currency);
      version := version + 1;
      updatedAt := if at > updatedAt then at else updatedAt;
      return Success(entry);
    }
  }
}
