/**
 * The tables of the service as one value, the rows each table holds, and the schema's
 * CHECK, unique, foreign key and trigger rules as predicates over them.
 */
module Store {
  import opened Wrappers
  import opened Domain
  import Digits

  datatype Cause = NoCause | CausedByMessage(messageId: string) | CausedByWager(transactionId: Id)

  /** The data of an integration event; each constructor carries the fields its class carries. */
  datatype EventData =
    | WagerProcessed(
        transactionId: Id, providerId: string, externalId: string, walletId: Id, playerId: string,
        roundId: string, gameId: string, kind: Kind, money: Cash, processedAt: int, referenceId: Option<Id>)
    | WagerRejected(
        transactionId: Id, providerId: string, externalId: string, walletId: Id, kind: Kind,
        money: Cash, failure: Option<FailureCode>, processedAt: int)
    | WagerPendingReference(
        transactionId: Id, providerId: string, externalId: string, walletId: Id, kind: Kind,
        referenceExternalId: string, money: Cash)
    | BalanceChanged(
        walletId: Id, transactionId: Id, direction: Direction, money: Cash,
        before: int, after: int, walletVersion: int)

  datatype Event = Event(
    eventId: Id, aggregateId: Id, correlationId: string, cause: Cause, occurredAt: int, data: EventData)

  datatype InboxKey = InboxKey(consumerName: string, providerId: string, messageId: string)

  datatype InboxRow = InboxRow(payloadHash: string, receivedAt: int, processedAt: Option<int>)

  datatype Db = Db(
    wallets: map<Id, WalletRow>,
    wagers: map<Id, Wager>,
    ledger: seq<LedgerEntry>,
    outbox: seq<Event>,
    inbox: map<InboxKey, InboxRow>)

  function Empty(): Db {
    Db(map[], map[], [], [], map[])
  }

  // ---------- lookups ----------

  predicate SameKey(a: Order, b: Order) {
    a.providerId == b.providerId && a.idempotencyKey == b.idempotencyKey
  }

  predicate SameExternal(a: Order, b: Order) {
    a.providerId == b.providerId && a.externalId == b.externalId
  }

  predicate IsExternal(t: Wager, providerId: string, externalId: string) {
    t.order.providerId == providerId && t.order.externalId == externalId
  }

  predicate IsKey(t: Wager, providerId: string, key: string) {
    t.order.providerId == providerId && t.order.idempotencyKey == key
  }

  ghost function FindByExternalId(wagers: map<Id, Wager>, providerId: string, externalId: string): (r: Option<Wager>)
    ensures r.Some? ==> exists id :: id in wagers && wagers[id] == r.value && IsExternal(r.value, providerId, externalId)
    ensures r.None? ==> forall id :: id in wagers ==> !IsExternal(wagers[id], providerId, externalId)
  {
    if exists id :: id in wagers && IsExternal(wagers[id], providerId, externalId) then
      var id :| id in wagers && IsExternal(wagers[id], providerId, externalId);
      Some(wagers[id])
    else None
  }

  ghost function FindByIdempotencyKey(wagers: map<Id, Wager>, providerId: string, key: string): (r: Option<Wager>)
    ensures r.Some? ==> exists id :: id in wagers && wagers[id] == r.value && IsKey(r.value, providerId, key)
    ensures r.None? ==> forall id :: id in wagers ==> !IsKey(wagers[id], providerId, key)
  {
    if exists id :: id in wagers && IsKey(wagers[id], providerId, key) then
      var id :| id in wagers && IsKey(wagers[id], providerId, key);
      Some(wagers[id])
    else None
  }

  predicate ReferencesExternal(t: Order, r: Wager) {
    t.referenceExternalId.Some? && IsExternal(r, t.providerId, t.referenceExternalId.value)
  }

  // ---------- the reversal slot ----------

  /** A processed REFUND or ROLLBACK of r. */
  predicate Reverses(t: Wager, r: Id) {
    t.status.Processed? && RequiresReference(t.order.kind) && t.referenceId == Some(r)
  }

  predicate Undoes(t: Wager, a: Id) {
    t.status.Processed? && t.order.kind.Rollback? && t.referenceId == Some(a)
  }

  predicate Undone(wagers: map<Id, Wager>, a: Id) {
    exists u :: u in wagers && Undoes(wagers[u], a)
  }

  predicate ActivelyReverses(wagers: map<Id, Wager>, a: Id, r: Id) {
    a in wagers && Reverses(wagers[a], r) && !Undone(wagers, a)
  }

  /** hasActiveReversal: some processed reversal of r that no processed ROLLBACK undoes. */
  predicate HasActiveReversal(wagers: map<Id, Wager>, r: Id) {
    exists a :: a in wagers && ActivelyReverses(wagers, a, r)
  }

  // ---------- CHECK constraints ----------

  predicate IsCurrency(s: string) {
    |s| == 3 && forall i :: 0 <= i < 3 ==> 'A' <= s[i] <= 'Z'
  }

  /** numeric(20,2) holds at most eighteen digits before the point. */
  predicate FitsNumeric(cents: int) {
    -MAX_CENTS <= cents <= MAX_CENTS
  }

  predicate WalletChecks(w: WalletRow) {
    && 0 <= w.balance.cents && FitsNumeric(w.balance.cents)
    && w.version >= 1
    && IsCurrency(w.balance.currency)
    && w.updatedAt >= w.createdAt
  }

  /** The current wager_result_balance_presence_ck. */
  predicate SnapshotPresent(t: Wager) {
    if t.status.Pending? then t.resultBalance.None?
    else if t.status.Rejected? && t.failure.Some? && DisclosesNoBalance(t.failure.value) then t.resultBalance.None?
    else t.resultBalance.Some?
  }

  predicate ReferenceByKind(o: Order) {
    if RequiresReference(o.kind) then o.referenceExternalId.Some?
    else if o.kind.Win? then true
    else o.referenceExternalId.None?
  }

  predicate WagerChecks(t: Wager) {
    && 0 < t.order.money.cents && FitsNumeric(t.order.money.cents)
    && IsCurrency(t.order.money.currency)
    && t.referenceId != Some(t.id)
    && (t.failure.Some? <==> t.status.Rejected? || t.status.Failed?)
    && (t.failure == Some(InfrastructureFailure) <==> t.status.Failed?)
    && (t.processedAt.Some? <==> IsTerminal(t.status))
    && (t.resultBalance.Some? ==> 0 <= t.resultBalance.value.cents && FitsNumeric(t.resultBalance.value.cents))
    && SnapshotPresent(t)
    && (t.resultBalance.Some? ==>
          t.resultBalance.value.currency == t.order.money.currency || t.failure == Some(CurrencyMismatch))
    && ReferenceByKind(t.order)
    && (t.status.Processed? && RequiresReference(t.order.kind) ==> t.referenceId.Some?)
    && (t.status.PendingReference? ==>
          && RequiresReference(t.order.kind) && t.referenceId.None?
          && t.nextAttemptAt.Some? && t.expiresAt.Some?)
  }

  predicate LedgerChecks(e: LedgerEntry) {
    && 0 < e.money.cents && FitsNumeric(e.money.cents)
    && IsCurrency(e.money.currency)
    && 0 <= e.before && 0 <= e.after && FitsNumeric(e.before) && FitsNumeric(e.after)
    && e.after == (if e.direction.Credit? then e.before + e.money.cents else e.before - e.money.cents)
  }

  // ---------- keys and triggers, as the test one write must pass ----------

  /** wager_reference_fk and wager_result_balance_wallet_fk. */
  predicate WagerForeignKeys(db: Db, t: Wager) {
    && (t.referenceId.Some? ==> t.referenceId.value in db.wagers)
    && (t.resultBalance.Some? ==>
          && t.order.walletId in db.wallets
          && db.wallets[t.order.walletId].balance.currency == t.resultBalance.value.currency)
  }

  /** wager_reversal_guard raises unless this holds. */
  predicate ReversalGuard(wagers: map<Id, Wager>, t: Wager) {
    t.status.Processed? && RequiresReference(t.order.kind) && t.referenceId.Some? ==>
      forall a :: a in wagers && a != t.id ==> !ActivelyReverses(wagers, a, t.referenceId.value)
  }

  /** The identities that `INSERT ... ON CONFLICT DO NOTHING` tests. */
  predicate IdentityFree(wagers: map<Id, Wager>, t: Wager) {
    && t.id !in wagers
    && forall id :: id in wagers ==> !SameKey(wagers[id].order, t.order) && !SameExternal(wagers[id].order, t.order)
  }

  predicate UpdateWagerAllowed(db: Db, t: Wager) {
    && t.id in db.wagers
    && !IsTerminal(db.wagers[t.id].status)
    && WagerChecks(t) && WagerForeignKeys(db, t) && ReversalGuard(db.wagers, t)
  }

  predicate InsertLedgerAllowed(db: Db, e: LedgerEntry) {
    && LedgerChecks(e)
    && e.walletId in db.wallets && db.wallets[e.walletId].balance.currency == e.money.currency
    && e.transactionId in db.wagers
    && forall i :: 0 <= i < |db.ledger| ==> db.ledger[i].id != e.id && db.ledger[i].transactionId != e.transactionId
  }

  predicate UpdateWalletAllowed(db: Db, w: WalletRow) {
    w.id in db.wallets && WalletChecks(w)
  }

  // ---------- ids ----------

  predicate FreshEvents(outbox: seq<Event>, n: nat) {
    forall i :: 0 <= i < |outbox| ==> outbox[i].eventId.operation != n
  }

  /** The id generator numbers operations; operation n has not written anything yet. */
  predicate Fresh(db: Db, n: nat) {
    && (forall id :: id in db.wallets ==> id.operation != n)
    && (forall id :: id in db.wagers ==> id.operation != n)
    && (forall i :: 0 <= i < |db.ledger| ==> db.ledger[i].id.operation != n)
    && FreshEvents(db.outbox, n)
  }

  /** The text form of an id, used by openingIdentity. */
  function IdText(id: Id): string {
    Digits.Print(id.operation) + "-" + Digits.Print(id.slot)
  }

  lemma SameSplit(a: string, b: string, x: string, y: string)
    requires Digits.AllDigits(a) && Digits.AllDigits(x) && a + "-" + b == x + "-" + y
    ensures a == x && b == y
  {
    var s := a + "-" + b;
    assert s[|a|] == '-' && s[|x|] == '-';
    assert forall k :: 0 <= k < |a| ==> s[k] == a[k] && Digits.IsDigit(s[k]);
    assert forall k :: 0 <= k < |x| ==> s[k] == x[k] && Digits.IsDigit(s[k]);
    assert |a| == |x|;
    assert a == s[..|a|] && x == s[..|x|];
    assert b == s[|a| + 1..] && y == s[|x| + 1..];
  }

  lemma IdTextInjective(a: Id, b: Id)
    requires IdText(a) == IdText(b)
    ensures a == b
  {
    SameSplit(Digits.Print(a.operation), Digits.Print(a.slot), Digits.Print(b.operation), Digits.Print(b.slot));
    Digits.PrintInjective(a.operation, b.operation);
    Digits.PrintInjective(a.slot, b.slot);
  }
}
