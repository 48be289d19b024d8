/** What every committed database state satisfies. */
module Invariants {
  import opened Wrappers
  import opened Domain
  import opened Store
  import opened Decisions
  import opened Sums
  import Backoff

  // ---------- rows ----------

  predicate SameOwner(a: WalletRow, b: WalletRow) {
    a.playerId == b.playerId && a.balance.currency == b.balance.currency
  }

  ghost predicate WalletsOk(db: Db) {
    && (forall id :: id in db.wallets ==> db.wallets[id].id == id && WalletChecks(db.wallets[id]))
    && (forall a, b :: a in db.wallets && b in db.wallets && SameOwner(db.wallets[a], db.wallets[b]) ==> a == b)
  }

  ghost predicate RowsOk(db: Db) {
    forall id :: id in db.wagers ==>
      && db.wagers[id].id == id && !db.wagers[id].status.Pending?
      && WagerChecks(db.wagers[id]) && WagerForeignKeys(db, db.wagers[id])
  }

  predicate Collide(a: Order, b: Order) {
    SameKey(a, b) || SameExternal(a, b)
  }

  ghost predicate IdentitiesOk(wagers: map<Id, Wager>) {
    forall a, b :: a in wagers && b in wagers && Collide(wagers[a].order, wagers[b].order) ==> a == b
  }

  // ---------- references and the reversal slot ----------

  /** A processed row of the same provider, player, wallet, round and currency. */
  predicate Binds(o: Order, r: Wager) {
    && r.status.Processed?
    && r.order.providerId == o.providerId && r.order.playerId == o.playerId
    && r.order.walletId == o.walletId && r.order.roundId == o.roundId
    && r.order.money.currency == o.money.currency
  }

  /** A link leads to a bound row: a REFUND to a BET, a ROLLBACK to what moved money, a WIN to a BET. */
  predicate LinkOk(wagers: map<Id, Wager>, t: Wager)
    requires t.referenceId.Some?
  {
    && t.status.Processed?
    && t.referenceId.value in wagers
    && var r := wagers[t.referenceId.value];
       && Binds(t.order, r)
       && match t.order.kind
          case Refund => r.order.kind.Bet? && r.order.money.cents == t.order.money.cents
          case Rollback => !r.order.kind.Opening? && !r.order.kind.Loss? && !r.order.kind.Rollback?
                           && r.order.money.cents == t.order.money.cents
          case Win => r.order.kind.Bet?
          case _ => false
  }

  ghost predicate LinksOk(wagers: map<Id, Wager>) {
    forall id :: id in wagers ==>
      && (wagers[id].referenceId.Some? ==> LinkOk(wagers, wagers[id]))
      && (wagers[id].status.Processed? && RequiresReference(wagers[id].order.kind) ==> wagers[id].referenceId.Some?)
  }

  ghost predicate SlotsOk(wagers: map<Id, Wager>) {
    forall r, a, b :: ActivelyReverses(wagers, a, r) && ActivelyReverses(wagers, b, r) ==> a == b
  }

  // ---------- the ledger ----------

  /** The entries of one wallet in commit order. */
  function Entries(ledger: seq<LedgerEntry>, w: Id): seq<LedgerEntry> {
    if ledger == [] then []
    else
      var last := ledger[|ledger| - 1];
      Entries(ledger[..|ledger| - 1], w) + (if last.walletId == w then [last] else [])
  }

  predicate Chained(es: seq<LedgerEntry>, end: int) {
    if es == [] then end == 0
    else
      && es[0].before == 0
      && es[|es| - 1].after == end
      && forall i :: 0 < i < |es| ==> es[i].before == es[i - 1].after
  }

  ghost predicate ChainsOk(db: Db) {
    && (forall w :: w in db.wallets ==> Chained(Entries(db.ledger, w), db.wallets[w].balance.cents))
    && (forall w :: w !in db.wallets ==> Entries(db.ledger, w) == [])
  }

  function KindOf(wagers: map<Id, Wager>, id: Option<Id>): Option<Kind> {
    if id.Some? && id.value in wagers then Some(wagers[id.value].order.kind) else None
  }

  function DirectionOf(wagers: map<Id, Wager>, t: Wager): Result<Direction, DomainError> {
    DirectionFor(t.order.kind, KindOf(wagers, t.referenceId))
  }

  predicate EntryOk(db: Db, e: LedgerEntry) {
    && LedgerChecks(e)
    && e.transactionId in db.wagers
    && var t := db.wagers[e.transactionId];
       && t.status.Processed? && AffectsBalance(t.order.kind)
       && e.walletId == t.order.walletId && e.money == t.order.money
       && t.resultBalance == Some(Cash(e.after, e.money.currency))
       && DirectionOf(db.wagers, t) == Success(e.direction)
       && e.walletId in db.wallets && db.wallets[e.walletId].balance.currency == e.money.currency
  }

  ghost predicate LedgerOk(db: Db) {
    && (forall i :: 0 <= i < |db.ledger| ==> EntryOk(db, db.ledger[i]))
    && (forall i, j :: 0 <= i < j < |db.ledger| ==>
          db.ledger[i].id != db.ledger[j].id && db.ledger[i].transactionId != db.ledger[j].transactionId)
  }

  predicate Entered(ledger: seq<LedgerEntry>, id: Id) {
    exists i :: 0 <= i < |ledger| && ledger[i].transactionId == id
  }

  ghost predicate AllEntered(db: Db) {
    forall id :: id in db.wagers && db.wagers[id].status.Processed? && AffectsBalance(db.wagers[id].order.kind) ==>
      Entered(db.ledger, id)
  }

  predicate IsOpening(wagers: map<Id, Wager>, e: LedgerEntry) {
    e.transactionId in wagers && wagers[e.transactionId].order.kind.Opening?
  }

  /** 1 plus the movements after opening. */
  predicate VersionFits(wagers: map<Id, Wager>, es: seq<LedgerEntry>, version: int) {
    && (forall i :: 0 < i < |es| ==> !IsOpening(wagers, es[i]))
    && version == 1 + |es| - (if es != [] && IsOpening(wagers, es[0]) then 1 else 0)
  }

  ghost predicate VersionsOk(db: Db) {
    forall w :: w in db.wallets ==> VersionFits(db.wagers, Entries(db.ledger, w), db.wallets[w].version)
  }

  // ---------- events ----------

  predicate IsAbout(d: EventData, t: Id) {
    !d.BalanceChanged? && d.transactionId == t
  }

  predicate IsBalanceOf(d: EventData, w: Id) {
    d.BalanceChanged? && d.walletId == w
  }

  function WagerData(outbox: seq<Event>, t: Id): seq<EventData> {
    if outbox == [] then []
    else
      var d := outbox[|outbox| - 1].data;
      WagerData(outbox[..|outbox| - 1], t) + (if IsAbout(d, t) then [d] else [])
  }

  function WalletData(outbox: seq<Event>, w: Id): seq<EventData> {
    if outbox == [] then []
    else
      var d := outbox[|outbox| - 1].data;
      WalletData(outbox[..|outbox| - 1], w) + (if IsBalanceOf(d, w) then [d] else [])
  }

  /** The event that settles a terminal row. */
  function TerminalData(t: Wager): seq<EventData> {
    match t.status
    case Processed => [ProcessedData(t, 0)]
    case Rejected | Failed => [RejectedData(t, 0)]
    case _ => []
  }

  /** Every event a row has ever caused: one while it waited, then one when it settled. */
  function Announced(t: Wager): seq<EventData> {
    (if t.expiresAt.Some? then [PendingReferenceData(t)] else []) + TerminalData(t)
  }

  /** One BalanceChanged per entry, the last one carrying the wallet's version. */
  function BalanceHistory(es: seq<LedgerEntry>, version: int): seq<EventData> {
    if es == [] then []
    else BalanceHistory(es[..|es| - 1], version - 1) + [BalanceData(es[|es| - 1], version)]
  }

  predicate WagerEventsOk(db: Db, t: Id) {
    WagerData(db.outbox, t) == if t in db.wagers then Announced(db.wagers[t]) else []
  }

  predicate WalletEventsOk(db: Db, w: Id) {
    WalletData(db.outbox, w) ==
    if w in db.wallets then BalanceHistory(Entries(db.ledger, w), db.wallets[w].version) else []
  }

  ghost predicate EventsOk(db: Db) {
    && (forall t :: WagerEventsOk(db, t))
    && (forall w :: WalletEventsOk(db, w))
    && (forall i, j :: 0 <= i < j < |db.outbox| ==> db.outbox[i].eventId != db.outbox[j].eventId)
  }

  // ---------- openings, clocks, inbox ----------

  function OpeningExternal(w: Id): string { "opening:" + IdText(w) }

  function OpeningKey(w: Id): string { INTERNAL_PROVIDER + ":opening:" + IdText(w) }

  predicate OpeningOk(wallets: map<Id, WalletRow>, o: Order) {
    && (o.kind.Opening? <==> o.providerId == INTERNAL_PROVIDER)
    && (o.kind.Opening? ==>
          o.walletId in wallets && o.externalId == OpeningExternal(o.walletId)
          && o.idempotencyKey == OpeningKey(o.walletId))
  }

  ghost predicate OpeningsOk(db: Db) {
    forall id :: id in db.wagers ==> OpeningOk(db.wallets, db.wagers[id].order)
  }

  predicate ClockOk(t: Wager) {
    && t.attempts <= Backoff.MOST_RESCHEDULES
    && (t.expiresAt.None? ==> t.attempts == 0 && !t.status.PendingReference?)
    && (t.expiresAt.Some? ==> RequiresReference(t.order.kind))
    && (t.status.PendingReference? ==>
          t.nextAttemptAt.Some? && t.expiresAt.Some? &&
          Backoff.Valid(Backoff.Clock(t.order.createdAt, t.attempts, t.nextAttemptAt.value, t.expiresAt.value)))
  }

  ghost predicate ClocksOk(db: Db) {
    forall id :: id in db.wagers ==> ClockOk(db.wagers[id])
  }

  ghost predicate InboxOk(db: Db) {
    forall k :: k in db.inbox ==>
      db.inbox[k].processedAt.Some? && db.inbox[k].processedAt.value >= db.inbox[k].receivedAt
  }

  // ---------- money ----------

  /** What an applied operation adds to its wallet: nothing once it is actively reversed. */
  ghost function Contribution(wagers: map<Id, Wager>, w: Id, id: Id): int {
    if id !in wagers || !wagers[id].status.Processed? || wagers[id].order.walletId != w then 0
    else
      var t := wagers[id];
      match t.order.kind
      case Opening => t.order.money.cents
      case Win => if HasActiveReversal(wagers, id) then 0 else t.order.money.cents
      case Bet => if HasActiveReversal(wagers, id) then 0 else -t.order.money.cents
      case _ => 0
  }

  ghost function Contributions(wagers: map<Id, Wager>, w: Id): Id -> int {
    id => Contribution(wagers, w, id)
  }

  ghost predicate NetOk(db: Db) {
    forall w :: w in db.wallets ==>
      db.wallets[w].balance.cents == Sum(db.wagers.Keys, Contributions(db.wagers, w))
  }

  predicate AppliesReversal(t: Wager) {
    t.status.Processed? && RequiresReference(t.order.kind) && t.referenceId.Some?
  }

  /** The BET or WIN at the root of the tree that t reverses: one link up, or two through a REFUND. */
  function RootOf(wagers: map<Id, Wager>, t: Wager): Option<Id> {
    if !AppliesReversal(t) || t.referenceId.value !in wagers then None
    else if wagers[t.referenceId.value].order.kind.Refund? then wagers[t.referenceId.value].referenceId
    else t.referenceId
  }

  /** What one row is worth to the wallet when it is applied. */
  function Signed(wagers: map<Id, Wager>, t: Wager): int {
    match DirectionOf(wagers, t)
    case Success(Credit) => t.order.money.cents
    case Success(Debit) => -t.order.money.cents
    case Failure(_) => 0
  }

  /** Whether t belongs to the tree of the BET or WIN b: b itself, or a reversal rooted at b. */
  predicate InTree(wagers: map<Id, Wager>, b: Id, t: Wager) {
    t.status.Processed? && (t.id == b || (AppliesReversal(t) && RootOf(wagers, t) == Some(b)))
  }

  ghost function TreeMoney(wagers: map<Id, Wager>, b: Id): Id -> int {
    id => if id in wagers && InTree(wagers, b, wagers[id]) then Signed(wagers, wagers[id]) else 0
  }

  /** Every tree nets to its root's money, or to nothing while the root is actively reversed. */
  ghost predicate TreeOk(wagers: map<Id, Wager>, b: Id)
    requires b in wagers
  {
    Sum(wagers.Keys, TreeMoney(wagers, b)) == if HasActiveReversal(wagers, b) then 0 else Signed(wagers, wagers[b])
  }

  predicate IsRoot(t: Wager) {
    t.status.Processed? && (t.order.kind.Bet? || t.order.kind.Win?)
  }

  ghost predicate TreesOk(wagers: map<Id, Wager>) {
    forall b :: b in wagers && IsRoot(wagers[b]) ==> TreeOk(wagers, b)
  }

  ghost predicate Inv(db: Db) {
    && WalletsOk(db) && RowsOk(db) && IdentitiesOk(db.wagers)
    && LinksOk(db.wagers) && SlotsOk(db.wagers)
    && ChainsOk(db) && LedgerOk(db) && AllEntered(db) && VersionsOk(db)
    && EventsOk(db) && OpeningsOk(db) && ClocksOk(db) && InboxOk(db) && NetOk(db) && TreesOk(db.wagers)
  }

  // ---------- what a commit must satisfy ----------

  /** A row is either inserted under a free identity, or it settles or reschedules a waiting one. */
  ghost predicate RowStep(db: Db, t: Wager, n: nat) {
    if t.id in db.wagers then
      && db.wagers[t.id].status.PendingReference?
      && t.order == db.wagers[t.id].order && t.expiresAt == db.wagers[t.id].expiresAt
    else
      && t.id == WagerId(n) && IdentityFree(db.wagers, t)
      && (t.expiresAt.Some? ==> t.status.PendingReference?)
  }

  predicate MoveOk(db: Db, t: Wager, m: Movement, n: nat) {
    && m.entry.id == EntryId(n)
    && m.entry.walletId == m.wallet.id == t.order.walletId
    && m.entry.transactionId == t.id && m.entry.money == t.order.money
    && DirectionOf(db.wagers, t) == Success(m.entry.direction)
    && LedgerChecks(m.entry) && WalletChecks(m.wallet)
    && m.entry.after == m.wallet.balance.cents && m.wallet.balance.currency == t.order.money.currency
    && t.resultBalance == Some(m.wallet.balance)
    && if m.wallet.id in db.wallets then
         var w := db.wallets[m.wallet.id];
         && m.entry.before == w.balance.cents && m.wallet.version == w.version + 1
         && m.wallet.playerId == w.playerId && m.wallet.balance.currency == w.balance.currency
         && !t.order.kind.Opening?
       else
         && m.entry.before == 0 && m.wallet.version == 1 && t.order.kind.Opening? && m.wallet.id == WalletId(n)
         && forall a :: a in db.wallets ==> !SameOwner(db.wallets[a], m.wallet)
  }

  /** What the commit announces about the row. */
  function News(db: Db, t: Wager): seq<EventData> {
    if t.status.PendingReference? then (if t.id in db.wagers then [] else [PendingReferenceData(t)])
    else TerminalData(t)
  }

  function MovementData(m: Option<Movement>): seq<EventData> {
    if m.Some? then [BalanceData(m.value.entry, m.value.wallet.version)] else []
  }

  predicate Announces(events: seq<Event>, data: seq<EventData>, n: nat) {
    && |events| == |data|
    && (forall i :: 0 <= i < |events| ==> events[i].data == data[i] && events[i].eventId.operation == n)
    && (forall i, j :: 0 <= i < j < |events| ==> events[i].eventId != events[j].eventId)
  }

  /** The row links to a processed reference whose reversal slot is free. */
  ghost predicate LinkStep(wagers: map<Id, Wager>, t: Wager) {
    && (t.referenceId.Some? ==> LinkOk(wagers, t))
    && (t.status.Processed? && RequiresReference(t.order.kind) ==>
          t.referenceId.Some? && !HasActiveReversal(wagers, t.referenceId.value))
  }

  /** Money moves exactly when a kind other than LOSS is processed, by one correct entry. */
  predicate MoveStep(db: Db, e: Effect, n: nat) {
    && (e.movement.Some? <==> e.row.status.Processed? && AffectsBalance(e.row.order.kind))
    && (e.movement.Some? ==> MoveOk(db, e.row, e.movement.value, n))
  }

  predicate NewsStep(db: Db, e: Effect, n: nat) {
    Announces(e.events, News(db, e.row) + MovementData(e.movement), n)
  }

  ghost predicate Admissible(db: Db, e: Effect, n: nat) {
    && Fresh(db, n)
    && RowStep(db, e.row, n)
    && WagerChecks(e.row) && !e.row.status.Pending? && WagerForeignKeys(Apply(db, e), e.row)
    && LinkStep(db.wagers, e.row)
    && MoveStep(db, e, n)
    && NewsStep(db, e, n)
    && OpeningOk(Apply(db, e).wallets, e.row.order)
    && ClockOk(e.row)
  }
}
