/**
 * The use cases as atomic steps over the tables, and runs of them. Each operation carries
 * its number (the source of its fresh ids) and the instants its clock returned.
 */
module Machine {
  import opened Wrappers
  import opened Domain
  import opened Store
  import opened Decisions
  import opened Invariants
  import Backoff
  import Payload

  datatype Command = Command(
    providerId: string,
    externalId: string,
    idempotencyKey: string,
    playerId: string,
    walletId: Id,
    roundId: string,
    gameId: string,
    kind: Kind,
    money: Cash,
    referenceExternalId: Option<string>,
    correlationId: string,
    causationId: Option<string>)

  datatype CreateCommand = CreateCommand(playerId: string, initialBalance: Cash, correlationId: string)

  datatype Error =
    | AmountNotPositive
    | IdempotencyKeyConflict(existing: Id)
    | ExternalTransactionIdReused(existing: Id)
    | ServiceUnavailable
    | WalletAlreadyExists(existingWallet: Option<Id>)
    | DomainFailure(cause: DomainError)
    | ConstraintViolated

  datatype SubmitResult = SubmitResult(
    transactionId: Id, status: Status, balance: Option<Cash>, failure: Option<FailureCode>, replay: bool)

  datatype Delivery = Delivery(key: InboxKey, payloadHash: string)

  datatype ConsumeOutcome =
    | Consumed(result: SubmitResult)
    | Duplicate
    | Permanent
    | Transient

  // ---------- submissions ----------

  /** What the payload hash covers: everything but the key and the tracing ids. */
  function PayloadOf(c: Command): Payload.BusinessPayload {
    Payload.BusinessPayload(c.providerId, c.externalId, c.playerId, c.walletId, c.roundId, c.gameId,
                            c.kind, c.money, c.referenceExternalId)
  }

  function OrderOf(c: Command, now: int): Order {
    Order(c.providerId, c.externalId, c.idempotencyKey,
          Payload.PayloadHash(PayloadOf(c)),
          c.walletId, c.playerId, c.roundId, c.gameId, c.kind, c.money, c.referenceExternalId,
          c.correlationId, now)
  }

  function ContextOf(c: Command, now: int, n: nat): Context {
    Context(EventId(n), c.correlationId,
            if c.causationId.Some? then CausedByMessage(c.causationId.value) else NoCause, now)
  }

  /** Everything executeWithin refuses before an identity is reserved, and the CHECK the insert can raise. */
  function SubmitFailure(c: Command): Option<Error> {
    if c.money.cents < 0 || c.money.cents > MAX_CENTS || !IsCurrency(c.money.currency) then
      Some(DomainFailure(InvalidMoney))
    else if c.money.cents == 0 then Some(AmountNotPositive)
    else if c.kind.Opening? || c.providerId == INTERNAL_PROVIDER then Some(DomainFailure(InvalidWagerTransaction))
    else if RequiresReference(c.kind) && (c.referenceExternalId.None? || c.referenceExternalId.value == "") then
      Some(DomainFailure(InvalidWagerTransaction))
    else if !RequiresReference(c.kind) && !c.kind.Win? && c.referenceExternalId.Some? then Some(ConstraintViolated)
    else None
  }

  function ResultOf(t: Wager, replay: bool): SubmitResult {
    SubmitResult(t.id, t.status, t.resultBalance, t.failure, replay)
  }

  /** The wagers a transaction sees: the committed ones and its own. */
  function Visible(db: Db, t: Wager): map<Id, Wager> {
    db.wagers[t.id := t]
  }

  ghost function ReferenceOf(db: Db, t: Wager): Option<Wager> {
    if t.order.referenceExternalId.Some?
    then FindByExternalId(Visible(db, t), t.order.providerId, t.order.referenceExternalId.value)
    else None
  }

  function WalletOf(db: Db, t: Wager): Option<WalletRow> {
    if t.order.walletId in db.wallets then Some(db.wallets[t.order.walletId]) else None
  }

  /** Everything a decision reads, all at one instant. */
  ghost function ReadsFor(db: Db, t: Wager): Reads {
    var reference := ReferenceOf(db, t);
    Reads(WalletOf(db, t), reference, reference.Some? && HasActiveReversal(Visible(db, t), reference.value.id))
  }

  ghost function ResolveExisting(db: Db, o: Order): Result<SubmitResult, Error> {
    var byKey := FindByIdempotencyKey(db.wagers, o.providerId, o.idempotencyKey);
    var byExternal := FindByExternalId(db.wagers, o.providerId, o.externalId);
    if byKey.Some? then
      if byKey.value.order.payloadHash == o.payloadHash then Success(ResultOf(byKey.value, true))
      else Failure(IdempotencyKeyConflict(byKey.value.id))
    else if byExternal.Some? then Failure(ExternalTransactionIdReused(byExternal.value.id))
    else Failure(ServiceUnavailable)
  }

  function Candidate(c: Command, now: int, n: nat): Wager {
    Reserved(WagerId(n), OrderOf(c, now))
  }

  ghost function SubmissionEffect(db: Db, c: Command, now: int, n: nat): Effect {
    var t := Candidate(c, now, n);
    DecideSubmission(t, ReadsFor(db, t), now, ContextOf(c, now, n), n)
  }

  /** executeWithin */
  ghost function Submit(db: Db, c: Command, now: int, n: nat): (Db, Result<SubmitResult, Error>) {
    var t := Candidate(c, now, n);
    if SubmitFailure(c).Some? then (db, Failure(SubmitFailure(c).value))
    else if !IdentityFree(db.wagers, t) then (db, ResolveExisting(db, t.order))
    else
      var e := SubmissionEffect(db, c, now, n);
      (Apply(db, e), Success(ResultOf(e.row, false)))
  }

  // ---------- wallets ----------

  function OpeningOrder(c: CreateCommand, walletId: Id, now: int): Order {
    Order(INTERNAL_PROVIDER, OpeningExternal(walletId), OpeningKey(walletId),
          Payload.PayloadHash(Payload.BusinessPayload(
            INTERNAL_PROVIDER, OpeningExternal(walletId), c.playerId, walletId,
            INTERNAL_PROVIDER, INTERNAL_PROVIDER, Opening, c.initialBalance, None)),
          walletId, c.playerId, INTERNAL_PROVIDER, INTERNAL_PROVIDER, Opening, c.initialBalance, None,
          c.correlationId, now)
  }

  function NewWallet(c: CreateCommand, now: int, n: nat): WalletRow {
    WalletRow(WalletId(n), c.playerId, c.initialBalance, 1, now, now)
  }

  function OpeningEntry(c: CreateCommand, now: int, n: nat): LedgerEntry {
    LedgerEntry(EntryId(n), WalletId(n), WagerId(n), Credit, c.initialBalance, 0, c.initialBalance.cents, now)
  }

  function OpeningEffect(c: CreateCommand, now: int, n: nat): Effect {
    var wallet := NewWallet(c, now, n);
    var entry := OpeningEntry(c, now, n);
    var row := AsProcessed(Reserved(WagerId(n), OpeningOrder(c, wallet.id, now)), None, wallet.balance, now);
    var context := Context(EventId(n), c.correlationId, NoCause, now);
    Effect(row, Some(Movement(wallet, entry)),
           [WagerEvent(row, context, ProcessedData(row, now)), BalanceEvent(wallet, entry, context, n)])
  }

  ghost function FindWallet(db: Db, playerId: string, currency: string): (r: Option<Id>)
    ensures r.Some? ==>
              && r.value in db.wallets
              && db.wallets[r.value].playerId == playerId && db.wallets[r.value].balance.currency == currency
    ensures r.None? ==>
              forall id :: id in db.wallets ==>
                db.wallets[id].playerId != playerId || db.wallets[id].balance.currency != currency
  {
    if exists id :: id in db.wallets && db.wallets[id].playerId == playerId && db.wallets[id].balance.currency == currency then
      var id :| id in db.wallets && db.wallets[id].playerId == playerId && db.wallets[id].balance.currency == currency;
      Some(id)
    else None
  }

  ghost predicate WalletFree(db: Db, w: WalletRow) {
    w.id !in db.wallets && forall id :: id in db.wallets ==> !SameOwner(db.wallets[id], w)
  }

  ghost function CreateWallet(db: Db, c: CreateCommand, now: int, n: nat): (Db, Result<WalletRow, Error>) {
    var w := NewWallet(c, now, n);
    if c.initialBalance.cents < 0 || c.initialBalance.cents > MAX_CENTS || !IsCurrency(c.initialBalance.currency) then
      (db, Failure(DomainFailure(InvalidMoney)))
    else if !WalletFree(db, w) then
      (db, Failure(WalletAlreadyExists(FindWallet(db, c.playerId, c.initialBalance.currency))))
    else if c.initialBalance.cents == 0 then (db.(wallets := db.wallets[w.id := w]), Success(w))
    else (Apply(db, OpeningEffect(c, now, n)), Success(w))
  }

  // ---------- the inbox ----------

  function ClassifyFailure(e: Error): ConsumeOutcome {
    match e
    case AmountNotPositive | IdempotencyKeyConflict(_) | ExternalTransactionIdReused(_) => Permanent
    case DomainFailure(_) => Permanent
    case _ => Transient
  }

  function ClassifyRedelivery(db: Db, d: Delivery): ConsumeOutcome {
    if d.key !in db.inbox then Transient
    else if db.inbox[d.key].payloadHash != d.payloadHash then Permanent
    else if db.inbox[d.key].processedAt.None? then Transient
    else Duplicate
  }

  /** The three instants one consumption reads from its clock. */
  datatype Instants = Instants(receivedAt: int, now: int, processedAt: int)

  /** consume: the inbox row and the financial change commit together or not at all. */
  ghost function Consume(db: Db, d: Delivery, c: Command, at: Instants, n: nat): (Db, ConsumeOutcome) {
    if d.key in db.inbox then (db, ClassifyRedelivery(db, d))
    else
      var reserved := db.(inbox := db.inbox[d.key := InboxRow(d.payloadHash, at.receivedAt, None)]);
      var (after, result) := Submit(reserved, c, at.now, n);
      if result.Failure? then (db, ClassifyFailure(result.error))
      else if at.processedAt < at.receivedAt then (db, Transient)  // inbox_processed_after_received_ck
      else
        (after.(inbox := after.inbox[d.key := InboxRow(d.payloadHash, at.receivedAt, Some(at.processedAt))]),
         Consumed(result.value))
  }

  // ---------- the pending reference worker ----------

  predicate Due(db: Db, id: Id, now: int) {
    && id in db.wagers && db.wagers[id].status.PendingReference?
    && db.wagers[id].nextAttemptAt.Some? && db.wagers[id].nextAttemptAt.value <= now
  }

  ghost function TickEffect(db: Db, id: Id, now: int, jitter: Backoff.Jitter, n: nat): Effect
    requires id in db.wagers
  {
    var t := db.wagers[id];
    DecideTick(t, ReferenceOf(db, t), ReadsFor(db, t), now, jitter, n)
  }

  /** One tick on the row the worker locked; a row that is not due is never handed out. */
  ghost function Tick(db: Db, id: Id, now: int, jitter: Backoff.Jitter, n: nat): Db {
    if Due(db, id, now) then Apply(db, TickEffect(db, id, now, jitter, n)) else db
  }

  /** recordFailure after a deterministic failure of the settlement. */
  ghost function RecordFailure(db: Db, id: Id, now: int, n: nat): Db {
    if id in db.wagers && db.wagers[id].status.PendingReference? && db.wagers[id].order.walletId in db.wallets
    then Apply(db, DecideFailure(db.wagers[id], db.wallets[db.wagers[id].order.walletId], now, n))
    else db
  }

  // ---------- runs ----------

  datatype Action =
    | Creates(create: CreateCommand, now: int)
    | Submits(command: Command, now: int)
    | Consumes(delivery: Delivery, command: Command, at: Instants)
    | Ticks(id: Id, now: int, jitter: Backoff.Jitter)
    | Fails(id: Id, now: int)

  datatype Op = Op(n: nat, action: Action)

  ghost function Step(db: Db, op: Op): Db {
    match op.action
    case Creates(c, now) => CreateWallet(db, c, now, op.n).0
    case Submits(c, now) => Submit(db, c, now, op.n).0
    case Consumes(d, c, at) => Consume(db, d, c, at, op.n).0
    case Ticks(id, now, jitter) => Tick(db, id, now, jitter, op.n)
    case Fails(id, now) => RecordFailure(db, id, now, op.n)
  }

  ghost function Run(db: Db, ops: seq<Op>): Db
    decreases |ops|
  {
    if ops == [] then db else Run(Step(db, ops[0]), ops[1..])
  }

  /** The generator never repeats: the numbers are unused, and pairwise distinct. */
  ghost predicate Numbered(db: Db, ops: seq<Op>) {
    && (forall i :: 0 <= i < |ops| ==> Fresh(db, ops[i].n))
    && (forall i, j :: 0 <= i < j < |ops| ==> ops[i].n != ops[j].n)
  }
}
