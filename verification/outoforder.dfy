/**
 * Out-of-order delivery: a BET, the REFUND of it and the ROLLBACK of that REFUND, delivered in
 * any order, repeatedly and with worker ticks in between, settle as they do in order.
 */
module OutOfOrder {
  import opened Wrappers
  import opened Domain
  import opened Store
  import opened Decisions
  import opened Invariants
  import opened Preservation
  import opened Conservation
  import opened Commits
  import opened Machine
  import opened Runs
  import opened Lookups
  import opened Idempotency
  import Backoff
  import Payload

  datatype Trio = Trio(bet: Command, refund: Command, rollback: Command) {
    function Wallet(): Id { bet.walletId }
    function Cents(): int { bet.money.cents }
    function All(): set<Command> { {bet, refund, rollback} }
  }

  predicate SameParty(a: Command, b: Command) {
    && a.providerId == b.providerId && a.playerId == b.playerId && a.walletId == b.walletId
    && a.roundId == b.roundId && a.money == b.money
    && a.externalId != b.externalId && a.idempotencyKey != b.idempotencyKey
  }

  predicate Shaped(k: Trio) {
    && SubmitFailure(k.bet).None? && SubmitFailure(k.refund).None? && SubmitFailure(k.rollback).None?
    && k.bet.kind.Bet? && k.refund.kind.Refund? && k.rollback.kind.Rollback?
    && k.refund.referenceExternalId == Some(k.bet.externalId)
    && k.rollback.referenceExternalId == Some(k.refund.externalId)
    && SameParty(k.bet, k.refund) && SameParty(k.refund, k.rollback) && SameParty(k.bet, k.rollback)
  }

  /** A redelivery may carry other tracing ids, nothing else. */
  predicate Equivalent(c: Command, k: Command) {
    c.(correlationId := k.correlationId, causationId := k.causationId) == k
  }

  function Essence(o: Order): Order {
    o.(correlationId := "", createdAt := 0)
  }

  function EssenceOf(c: Command): Order {
    Essence(OrderOf(c, 0))
  }

  ghost function RowOf(db: Db, k: Command): Option<Wager> {
    FindByExternalId(db.wagers, k.providerId, k.externalId)
  }

  predicate Done(r: Option<Wager>) {
    r.Some? && r.value.status.Processed?
  }

  predicate Waits(r: Option<Wager>, deadline: int) {
    && r.Some? && r.value.status.PendingReference?
    && r.value.expiresAt.Some? && deadline <= r.value.expiresAt.value
  }

  // ---------- the invariant of the three operations ----------

  ghost predicate StagesOk(db: Db, k: Trio, deadline: int) {
    var bet := RowOf(db, k.bet);
    var refund := RowOf(db, k.refund);
    var rollback := RowOf(db, k.rollback);
    && (bet.Some? ==> Done(bet))
    && (refund.Some? ==>
          Waits(refund, deadline) || (Done(refund) && Done(bet) && refund.value.referenceId == Some(bet.value.id)))
    && (rollback.Some? ==>
          Waits(rollback, deadline)
          || (Done(rollback) && Done(refund) && rollback.value.referenceId == Some(refund.value.id)))
  }

  ghost predicate TrioSlotsOk(db: Db, k: Trio) {
    && (RowOf(db, k.bet).Some? ==>
          (HasActiveReversal(db.wagers, RowOf(db, k.bet).value.id) <==>
           Done(RowOf(db, k.refund)) && !Done(RowOf(db, k.rollback))))
    && (RowOf(db, k.refund).Some? ==>
          (HasActiveReversal(db.wagers, RowOf(db, k.refund).value.id) <==> Done(RowOf(db, k.rollback))))
  }

  ghost function Expected(db: Db, k: Trio, start: int): int {
    start
    - (if Done(RowOf(db, k.bet)) then k.Cents() else 0)
    + (if Done(RowOf(db, k.refund)) then k.Cents() else 0)
    - (if Done(RowOf(db, k.rollback)) then k.Cents() else 0)
  }

  ghost predicate MoneyOk(db: Db, k: Trio, start: int) {
    && k.Wallet() in db.wallets
    && var w := db.wallets[k.Wallet()];
       && w.playerId == k.bet.playerId && w.balance.currency == k.bet.money.currency
       && w.balance.cents == Expected(db, k, start)
  }

  /** No other row carries one of the three identities, and no other row waits on the wallet. */
  ghost predicate AloneOk(db: Db, k: Trio) {
    && (forall id, c :: id in db.wagers && c in k.All() && Collide(db.wagers[id].order, OrderOf(c, 0)) ==>
          Essence(db.wagers[id].order) == EssenceOf(c))
    && (forall id :: id in db.wagers && db.wagers[id].order.walletId == k.Wallet() && db.wagers[id].status.PendingReference? ==>
          Essence(db.wagers[id].order) in {EssenceOf(k.refund), EssenceOf(k.rollback)})
  }

  ghost predicate TrioOk(db: Db, k: Trio, start: int, deadline: int) {
    StagesOk(db, k, deadline) && TrioSlotsOk(db, k) && MoneyOk(db, k, start) && AloneOk(db, k)
  }

  // ---------- how a commit moves the three rows ----------

  lemma RowFacts(db: Db, c: Command)
    requires RowsOk(db)
    ensures RowOf(db, c).Some? ==>
              && RowOf(db, c).value.id in db.wagers && db.wagers[RowOf(db, c).value.id] == RowOf(db, c).value
              && IsExternal(RowOf(db, c).value, c.providerId, c.externalId)
  {
  }

  lemma RowAfter(db: Db, e: Effect, n: nat, c: Command)
    requires RowsOk(db) && RowStep(db, e.row, n) && IdentitiesOk(Apply(db, e).wagers)
    ensures RowOf(Apply(db, e), c) ==
            if IsExternal(e.row, c.providerId, c.externalId) then Some(e.row) else RowOf(db, c)
  {
    var db' := Apply(db, e);
    RowFacts(db, c);
    var before := RowOf(db, c);
    hide IdentitiesOk, RowsOk, IdentityFree;
    if IsExternal(e.row, c.providerId, c.externalId) {
      ExternalIsUnique(db'.wagers, e.row.id, c.providerId, c.externalId);
    } else if before.Some? {
      assert before.value.id != e.row.id;
      ExternalIsUnique(db'.wagers, before.value.id, c.providerId, c.externalId);
    }
  }

  /** A row under one of the three identities is that operation's row. */
  lemma OwnRow(db: Db, k: Trio, c: Command)
    requires RowsOk(db) && AloneOk(db, k) && Shaped(k) && c in k.All() && RowOf(db, c).Some?
    ensures var t := RowOf(db, c).value;
            && t.id in db.wagers && db.wagers[t.id] == t
            && Essence(t.order) == EssenceOf(c) && t.order.walletId == k.Wallet()
  {
    RowFacts(db, c);
    assert Collide(RowOf(db, c).value.order, OrderOf(c, 0));
  }

  lemma AloneAfter(db: Db, e: Effect, n: nat, k: Trio)
    requires AloneOk(db, k)
    requires forall c :: c in k.All() && Collide(e.row.order, OrderOf(c, 0)) ==> Essence(e.row.order) == EssenceOf(c)
    requires e.row.order.walletId == k.Wallet() && e.row.status.PendingReference? ==>
               Essence(e.row.order) in {EssenceOf(k.refund), EssenceOf(k.rollback)}
    ensures AloneOk(Apply(db, e), k)
  {
    hide Essence, Collide, OrderOf;
  }

  lemma CommitParts(db: Db, e: Effect, n: nat)
    requires Inv(db) && Admissible(db, e, n)
    ensures RowsOk(db) && LinksOk(db.wagers) && SlotsOk(db.wagers)
    ensures RowStep(db, e.row, n) && MoveStep(db, e, n) && IdentitiesOk(Apply(db, e).wagers)
  {
    KeepsIdentities(db, e, n);
    hide RowStep, MoveStep, Apply, IdentitiesOk, RowsOk, LinksOk, SlotsOk;
  }

  // ---------- commits on other wallets ----------

  ghost predicate Elsewhere(e: Effect, k: Trio) {
    e.row.order.walletId != k.Wallet() && forall c :: c in k.All() ==> !Collide(e.row.order, OrderOf(c, 0))
  }

  lemma ElsewhereRows(db: Db, e: Effect, n: nat, k: Trio)
    requires RowsOk(db) && RowStep(db, e.row, n) && IdentitiesOk(Apply(db, e).wagers) && Elsewhere(e, k)
    ensures forall c :: c in k.All() ==> RowOf(Apply(db, e), c) == RowOf(db, c)
  {
    hide RowStep, RowsOk, IdentitiesOk, RowOf;
    forall c | c in k.All() ensures RowOf(Apply(db, e), c) == RowOf(db, c) {
      assert !Collide(e.row.order, OrderOf(c, 0));
      RowAfter(db, e, n, c);
    }
  }

  lemma ElsewhereSlot(db: Db, e: Effect, n: nat, k: Trio, c: Command)
    requires RowsOk(db) && LinksOk(db.wagers) && SlotsOk(db.wagers) && AloneOk(db, k) && Admissible(db, e, n)
    requires Elsewhere(e, k) && Shaped(k) && c in k.All() && RowOf(db, c).Some?
    ensures HasActiveReversal(Apply(db, e).wagers, RowOf(db, c).value.id) ==
            HasActiveReversal(db.wagers, RowOf(db, c).value.id)
  {
    hide Admissible, LinksOk, SlotsOk, HasActiveReversal, Shaped, AloneOk, RowsOk, RowOf, Apply, Essence, EssenceOf;
    OwnRow(db, k, c);
    SlotNeedsWallet(db, e, n, RowOf(db, c).value.id);
  }

  lemma ElsewhereMoney(db: Db, e: Effect, n: nat, k: Trio)
    requires MoveStep(db, e, n) && Elsewhere(e, k) && k.Wallet() in db.wallets
    ensures k.Wallet() in Apply(db, e).wallets && Apply(db, e).wallets[k.Wallet()] == db.wallets[k.Wallet()]
  {
  }

  lemma ElsewhereKeepsTrio(db: Db, e: Effect, n: nat, k: Trio, start: int, deadline: int)
    requires Inv(db) && Admissible(db, e, n) && Elsewhere(e, k) && Shaped(k) && TrioOk(db, k, start, deadline)
    ensures TrioOk(Apply(db, e), k, start, deadline)
  {
    hide Inv, Admissible, RowsOk, IdentitiesOk, LinksOk, SlotsOk, AloneOk, HasActiveReversal, RowOf, Apply, MoveStep;
    hide RowStep, Shaped, Essence, EssenceOf, Collide;
    CommitParts(db, e, n);
    AloneAfter(db, e, n, k);
    ElsewhereRows(db, e, n, k);
    ElsewhereMoney(db, e, n, k);
    if RowOf(db, k.bet).Some? {
      ElsewhereSlot(db, e, n, k, k.bet);
    }
    if RowOf(db, k.refund).Some? {
      ElsewhereSlot(db, e, n, k, k.refund);
    }
  }

  // ---------- commits of the three operations themselves ----------

  /** The commit writes the row of c, which was missing or waiting. */
  lemma OwnRows(db: Db, e: Effect, n: nat, k: Trio, c: Command)
    requires RowsOk(db) && RowStep(db, e.row, n) && IdentitiesOk(Apply(db, e).wagers)
    requires Shaped(k) && c in k.All() && Essence(e.row.order) == EssenceOf(c)
    ensures RowOf(Apply(db, e), c) == Some(e.row)
    ensures forall d :: d in k.All() && d != c ==> RowOf(Apply(db, e), d) == RowOf(db, d)
    ensures RowOf(db, c).Some? ==> RowOf(db, c).value.status.PendingReference?
  {
    RowFacts(db, c);
    if RowOf(db, c).Some? {
      assert Collide(Apply(db, e).wagers[RowOf(db, c).value.id].order, Apply(db, e).wagers[e.row.id].order);
    }
    RowAfter(db, e, n, c);
    forall d | d in k.All() && d != c ensures RowOf(Apply(db, e), d) == RowOf(db, d) {
      hide RowStep, RowsOk, IdentitiesOk, RowOf, Apply;
      assert d.externalId != c.externalId;
      RowAfter(db, e, n, d);
    }
  }

  lemma OwnMoney(db: Db, e: Effect, n: nat, k: Trio, c: Command)
    requires MoveStep(db, e, n) && e.row.status.Processed? && !e.row.order.kind.Loss? && !e.row.order.kind.Opening?
    requires Shaped(k) && c in k.All() && Essence(e.row.order) == EssenceOf(c) && k.Wallet() in db.wallets
    ensures k.Wallet() in Apply(db, e).wallets
    ensures var w := db.wallets[k.Wallet()]; var w' := Apply(db, e).wallets[k.Wallet()];
            && w'.playerId == w.playerId && w'.balance.currency == w.balance.currency
            && w'.balance.cents == w.balance.cents + Signed(db.wagers, e.row)
  {
  }

  lemma OwnAlone(db: Db, e: Effect, n: nat, k: Trio, c: Command)
    requires AloneOk(db, k) && Shaped(k) && c in k.All() && Essence(e.row.order) == EssenceOf(c)
    requires e.row.status.PendingReference? ==> c != k.bet
    ensures AloneOk(Apply(db, e), k)
  {
    forall d | d in k.All() && Collide(e.row.order, OrderOf(d, 0)) ensures Essence(e.row.order) == EssenceOf(d) {
      assert d == c || (d.externalId != c.externalId && d.idempotencyKey != c.idempotencyKey);
    }
    hide AloneOk, Shaped;
    AloneAfter(db, e, n, k);
  }

  lemma StillSlot(db: Db, e: Effect, n: nat, r: Id)
    requires LinksOk(db.wagers) && SlotsOk(db.wagers) && Admissible(db, e, n) && r in db.wagers && e.movement.None?
    ensures HasActiveReversal(Apply(db, e).wagers, r) == HasActiveReversal(db.wagers, r)
  {
    SlotNeedsWallet(db, e, n, r);
  }

  /** A reversal that waits, for the first time or once more. */
  lemma WaitingKeepsTrio(db: Db, e: Effect, n: nat, k: Trio, c: Command, start: int, deadline: int)
    requires Inv(db) && Admissible(db, e, n) && Shaped(k) && TrioOk(db, k, start, deadline)
    requires c in {k.refund, k.rollback} && Essence(e.row.order) == EssenceOf(c)
    requires Waits(Some(e.row), deadline)
    ensures TrioOk(Apply(db, e), k, start, deadline) && RowOf(Apply(db, e), c).Some?
  {
    hide Inv, Admissible, RowsOk, IdentitiesOk, LinksOk, SlotsOk, AloneOk, HasActiveReversal, RowOf, Apply;
    hide RowStep, Shaped, Essence, EssenceOf;
    CommitParts(db, e, n);
    ShapedApart(k);
    OwnAlone(db, e, n, k, c);
    OwnRows(db, e, n, k, c);
    BalanceStays(db, e, n);
    assert e.movement.None?;
    RowFacts(db, k.bet);
    RowFacts(db, k.refund);
    if RowOf(db, k.bet).Some? {
      StillSlot(db, e, n, RowOf(db, k.bet).value.id);
    }
    if c == k.refund {
      WrittenRowUnreversed(db, e, n);
    } else if RowOf(db, k.refund).Some? {
      StillSlot(db, e, n, RowOf(db, k.refund).value.id);
    }
  }

  lemma ShapedApart(k: Trio)
    requires Shaped(k)
    ensures k.bet != k.refund && k.bet != k.rollback && k.refund != k.rollback
  {
  }

  lemma BetKeepsTrio(db: Db, e: Effect, n: nat, k: Trio, start: int, deadline: int)
    requires Inv(db) && Admissible(db, e, n) && Shaped(k) && TrioOk(db, k, start, deadline)
    requires RowOf(db, k.bet).None? && Essence(e.row.order) == EssenceOf(k.bet) && e.row.status.Processed?
    ensures TrioOk(Apply(db, e), k, start, deadline) && RowOf(Apply(db, e), k.bet).Some?
  {
    hide Inv, Admissible, RowsOk, IdentitiesOk, LinksOk, SlotsOk, AloneOk, HasActiveReversal, RowOf, Apply;
    hide RowStep, Shaped, Essence, EssenceOf, MoveStep, Signed;
    BetWorth(db, e, k);
    CommitParts(db, e, n);
    OwnAlone(db, e, n, k, k.bet);
    OwnRows(db, e, n, k, k.bet);
    OwnMoney(db, e, n, k, k.bet);
    ShapedApart(k);
    WrittenRowUnreversed(db, e, n);
    RowFacts(db, k.refund);
    if RowOf(db, k.refund).Some? {
      BetTouchesNoSlot(db, e, n, RowOf(db, k.refund).value.id);
    }
  }

  lemma BetWorth(db: Db, e: Effect, k: Trio)
    requires Essence(e.row.order) == EssenceOf(k.bet) && Shaped(k)
    ensures Signed(db.wagers, e.row) == -k.Cents() && e.row.order.kind.Bet?
  {
  }

  lemma BetTouchesNoSlot(db: Db, e: Effect, n: nat, r: Id)
    requires LinksOk(db.wagers) && SlotsOk(db.wagers) && Admissible(db, e, n) && e.row.order.kind.Bet?
    ensures HasActiveReversal(Apply(db, e).wagers, r) == HasActiveReversal(db.wagers, r)
  {
    SlotAfter(db, e, n, r);
  }

  lemma RefundKeepsTrio(db: Db, e: Effect, n: nat, k: Trio, start: int, deadline: int)
    requires Inv(db) && Admissible(db, e, n) && Shaped(k) && TrioOk(db, k, start, deadline)
    requires Essence(e.row.order) == EssenceOf(k.refund) && e.row.status.Processed?
    requires Done(RowOf(db, k.bet)) && e.row.referenceId == Some(RowOf(db, k.bet).value.id)
    ensures TrioOk(Apply(db, e), k, start, deadline) && RowOf(Apply(db, e), k.refund).Some?
  {
    hide Inv, Admissible, RowsOk, IdentitiesOk, LinksOk, SlotsOk, AloneOk, HasActiveReversal, RowOf, Apply;
    hide RowStep, Shaped, Essence, EssenceOf, MoveStep, Signed;
    RefundWorth(db, e, k);
    CommitParts(db, e, n);
    OwnAlone(db, e, n, k, k.refund);
    OwnRows(db, e, n, k, k.refund);
    OwnMoney(db, e, n, k, k.refund);
    ShapedApart(k);
    WrittenRowUnreversed(db, e, n);
    RowFacts(db, k.bet);
    SlotFilled(db, e, n, RowOf(db, k.bet).value.id);
  }

  lemma RefundWorth(db: Db, e: Effect, k: Trio)
    requires Essence(e.row.order) == EssenceOf(k.refund) && Shaped(k)
    ensures Signed(db.wagers, e.row) == k.Cents() && e.row.order.kind.Refund?
  {
  }

  lemma SlotFilled(db: Db, e: Effect, n: nat, r: Id)
    requires LinksOk(db.wagers) && SlotsOk(db.wagers) && Admissible(db, e, n) && Reverses(e.row, r)
    ensures HasActiveReversal(Apply(db, e).wagers, r)
  {
    SlotAfter(db, e, n, r);
  }

  lemma RollbackKeepsTrio(db: Db, e: Effect, n: nat, k: Trio, start: int, deadline: int)
    requires Inv(db) && Admissible(db, e, n) && Shaped(k) && TrioOk(db, k, start, deadline)
    requires Essence(e.row.order) == EssenceOf(k.rollback) && e.row.status.Processed?
    requires Done(RowOf(db, k.refund)) && e.row.referenceId == Some(RowOf(db, k.refund).value.id)
    ensures TrioOk(Apply(db, e), k, start, deadline) && RowOf(Apply(db, e), k.rollback).Some?
  {
    hide Inv, Admissible, RowsOk, IdentitiesOk, LinksOk, SlotsOk, AloneOk, HasActiveReversal, RowOf, Apply;
    hide RowStep, Shaped, Essence, EssenceOf, MoveStep, Signed;
    CommitParts(db, e, n);
    OwnRow(db, k, k.bet);
    OwnRow(db, k, k.refund);
    RollbackWorth(db, e, k);
    OwnAlone(db, e, n, k, k.rollback);
    OwnRows(db, e, n, k, k.rollback);
    OwnMoney(db, e, n, k, k.rollback);
    ShapedApart(k);
    SlotFilled(db, e, n, RowOf(db, k.refund).value.id);
    SlotReopened(db, e, n, k);
  }

  lemma RollbackWorth(db: Db, e: Effect, k: Trio)
    requires Essence(e.row.order) == EssenceOf(k.rollback) && Shaped(k)
    requires e.row.referenceId.Some? && e.row.referenceId.value in db.wagers
    requires Essence(db.wagers[e.row.referenceId.value].order) == EssenceOf(k.refund)
    ensures Signed(db.wagers, e.row) == -k.Cents() && e.row.order.kind.Rollback?
  {
  }

  /** Undoing the REFUND frees the BET again. */
  lemma SlotReopened(db: Db, e: Effect, n: nat, k: Trio)
    requires LinksOk(db.wagers) && SlotsOk(db.wagers) && Admissible(db, e, n) && RowsOk(db)
    requires AloneOk(db, k) && Shaped(k) && Essence(e.row.order) == EssenceOf(k.rollback) && e.row.status.Processed?
    requires Done(RowOf(db, k.bet)) && Done(RowOf(db, k.refund))
    requires RowOf(db, k.refund).value.referenceId == Some(RowOf(db, k.bet).value.id)
    requires e.row.referenceId == Some(RowOf(db, k.refund).value.id)
    requires HasActiveReversal(db.wagers, RowOf(db, k.bet).value.id)
    ensures !HasActiveReversal(Apply(db, e).wagers, RowOf(db, k.bet).value.id)
  {
    hide Admissible, LinksOk, SlotsOk, RowsOk, AloneOk, HasActiveReversal, RowOf, Apply;
    OwnRow(db, k, k.bet);
    OwnRow(db, k, k.refund);
    SlotFlips(db, e, n, RowOf(db, k.bet).value.id);
  }

  // ---------- what the three operations decide ----------

  /** The starting balance covers the BET, and is one a wallet can hold. */
  predicate Covers(k: Trio, start: int) {
    k.Cents() <= start <= MAX_CENTS
  }

  /** What a reversal refers to. */
  function Target(k: Trio, c: Command): Command {
    if c == k.refund then k.bet else k.refund
  }

  /** A reversal either waits, or is processed against its target. */
  ghost predicate Lands(db: Db, k: Trio, c: Command, row: Wager, deadline: int) {
    && Essence(row.order) == EssenceOf(c)
    && (Waits(Some(row), deadline)
        || (row.status.Processed? && Done(RowOf(db, Target(k, c)))
            && row.referenceId == Some(RowOf(db, Target(k, c)).value.id)))
  }

  lemma LandsKeepsTrio(db: Db, e: Effect, n: nat, k: Trio, c: Command, start: int, deadline: int)
    requires Inv(db) && Admissible(db, e, n) && Shaped(k) && TrioOk(db, k, start, deadline)
    requires c in {k.refund, k.rollback} && Lands(db, k, c, e.row, deadline)
    ensures TrioOk(Apply(db, e), k, start, deadline) && RowOf(Apply(db, e), c).Some?
  {
    hide Inv, Admissible, TrioOk, RowOf, Apply, Essence, EssenceOf, Shaped;
    ShapedApart(k);
    if Waits(Some(e.row), deadline) {
      WaitingKeepsTrio(db, e, n, k, c, start, deadline);
    } else if c == k.refund {
      RefundKeepsTrio(db, e, n, k, start, deadline);
    } else {
      RollbackKeepsTrio(db, e, n, k, start, deadline);
    }
  }

  /** The row's reference is the row of the target, seen through the transaction's own insert. */
  lemma ReferenceSeen(db: Db, t: Wager, k: Trio, c: Command)
    requires RowsOk(db) && IdentitiesOk(db.wagers) && Shaped(k) && c in {k.refund, k.rollback}
    requires Essence(t.order) == EssenceOf(c)
    requires IdentityFree(db.wagers, t) || (t.id in db.wagers && db.wagers[t.id] == t)
    ensures ReferenceOf(db, t) == RowOf(db, Target(k, c))
  {
    var target := Target(k, c);
    RowFacts(db, target);
    if IdentityFree(db.wagers, t) {
      ReservedIdentities(db, t);
      if RowOf(db, target).Some? {
        ExternalIsUnique(Visible(db, t), RowOf(db, target).value.id, target.providerId, target.externalId);
      }
    } else {
      assert Visible(db, t) == db.wagers;
    }
  }

  /** Against a processed target with a free slot the reversal always goes through. */
  lemma ReversalGoesThrough(
    t: Wager, target: Wager, w: WalletRow, k: Trio, c: Command, start: int, now: int, context: Context, n: nat)
    requires Shaped(k) && c in {k.refund, k.rollback} && Covers(k, start)
    requires Essence(t.order) == EssenceOf(c) && Essence(target.order) == EssenceOf(Target(k, c))
    requires target.status.Processed?
    requires w.balance.cents == if c == k.refund then start - k.Cents() else start
    ensures var row := DecideResolved(t, target, w, false, now, context, n).row;
            row.status.Processed? && row.order == t.order && row.referenceId == Some(target.id)
  {
  }

  /** While the reversal is not done, its target's slot is free and the balance is the one it needs. */
  lemma TargetReady(db: Db, k: Trio, c: Command, start: int, deadline: int)
    requires Shaped(k) && c in {k.refund, k.rollback} && TrioOk(db, k, start, deadline)
    requires !Done(RowOf(db, c)) && Done(RowOf(db, Target(k, c)))
    ensures !HasActiveReversal(db.wagers, RowOf(db, Target(k, c)).value.id)
    ensures db.wallets[k.Wallet()].balance.cents == if c == k.refund then start - k.Cents() else start
  {
    ShapedApart(k);
    hide AloneOk, RowOf, HasActiveReversal, Shaped;
  }

  lemma TargetStages(db: Db, k: Trio, c: Command, start: int, deadline: int)
    requires Shaped(k) && c in {k.refund, k.rollback} && TrioOk(db, k, start, deadline)
    ensures var target := RowOf(db, Target(k, c));
            target.Some? ==> target.value.status.PendingReference? || target.value.status.Processed?
  {
    ShapedApart(k);
    hide AloneOk, RowOf, HasActiveReversal, Shaped;
  }

  /** What a submission or a settling tick of a reversal reads. */
  lemma ReversalReads(db: Db, t: Wager, k: Trio, c: Command, start: int, deadline: int)
    requires RowsOk(db) && IdentitiesOk(db.wagers) && Shaped(k) && c in {k.refund, k.rollback}
    requires TrioOk(db, k, start, deadline) && Essence(t.order) == EssenceOf(c) && !Done(RowOf(db, c))
    requires !t.status.Processed?
    requires IdentityFree(db.wagers, t) || (t.id in db.wagers && db.wagers[t.id] == t)
    ensures ReadsFor(db, t).wallet == Some(db.wallets[k.Wallet()])
    ensures ReadsFor(db, t).reference == RowOf(db, Target(k, c))
    ensures Done(RowOf(db, Target(k, c))) ==> !ReadsFor(db, t).active
    ensures RowOf(db, Target(k, c)).Some? ==> RowOf(db, Target(k, c)).value.id != t.id
  {
    ReferenceSeen(db, t, k, c);
    assert t.order.walletId == k.Wallet();
    ShapedApart(k);
    assert k.Wallet() in db.wallets;
    TargetIsAnother(db, t, k, c);
    hide Shaped, AloneOk, IdentitiesOk, RowsOk, RowOf, IdentityFree, Essence, EssenceOf;
    if Done(RowOf(db, Target(k, c))) {
      TargetReady(db, k, c, start, deadline);
      VisibleSlots(db, t, RowOf(db, Target(k, c)).value.id);
    }
  }

  lemma TargetIsAnother(db: Db, t: Wager, k: Trio, c: Command)
    requires RowsOk(db) && Shaped(k) && c in {k.refund, k.rollback} && Essence(t.order) == EssenceOf(c)
    requires IdentityFree(db.wagers, t) || (t.id in db.wagers && db.wagers[t.id] == t)
    ensures RowOf(db, Target(k, c)).Some? ==> RowOf(db, Target(k, c)).value.id != t.id
  {
    RowFacts(db, Target(k, c));
  }

  // ---------- submissions ----------

  lemma EquivalentEssence(c: Command, kc: Command, now: int, n: nat)
    requires Equivalent(c, kc)
    ensures Essence(OrderOf(c, now)) == EssenceOf(kc) && SubmitFailure(c) == SubmitFailure(kc)
    ensures c.providerId == kc.providerId && c.externalId == kc.externalId && c.idempotencyKey == kc.idempotencyKey
    ensures c.kind == kc.kind && c.walletId == kc.walletId && c.playerId == kc.playerId && c.money == kc.money
  {
  }

  lemma BetLands(db: Db, k: Trio, c: Command, now: int, n: nat, start: int, deadline: int)
    requires Shaped(k) && Covers(k, start) && TrioOk(db, k, start, deadline) && Equivalent(c, k.bet)
    requires RowOf(db, k.bet).None?
    ensures var row := SubmissionEffect(db, c, now, n).row;
            Essence(row.order) == EssenceOf(k.bet) && row.status.Processed?
  {
    EquivalentEssence(c, k.bet, now, n);
    var w := db.wallets[k.Wallet()];
    assert w.balance.cents == start by {
      hide RowOf, HasActiveReversal;
    }
    hide TrioOk, RowOf, Essence, EssenceOf, HasActiveReversal;
    var t := Candidate(c, now, n);
    assert ReadsFor(db, t).wallet == Some(w);
  }

  lemma ReversalLands(db: Db, k: Trio, kc: Command, c: Command, now: int, n: nat, start: int, deadline: int)
    requires RowsOk(db) && IdentitiesOk(db.wagers) && Shaped(k) && Covers(k, start) && TrioOk(db, k, start, deadline)
    requires kc in {k.refund, k.rollback} && Equivalent(c, kc) && RowOf(db, kc).None?
    requires IdentityFree(db.wagers, Candidate(c, now, n)) && now + Backoff.TTL_MS >= deadline
    ensures Lands(db, k, kc, SubmissionEffect(db, c, now, n).row, deadline)
  {
    hide TrioOk, RowOf, EssenceOf, Essence, ReadsFor, IdentityFree, RowsOk, IdentitiesOk, DecideResolved;
    hide Payload.PayloadHash, SubmitFailure;
    var t := Candidate(c, now, n);
    var context := ContextOf(c, now, n);
    EquivalentEssence(c, kc, now, n);
    ReversalReads(db, t, k, kc, start, deadline);
    TargetStages(db, k, kc, start, deadline);
    TrioWallet(db, k, start, deadline);
    var w := db.wallets[k.Wallet()];
    var target := RowOf(db, Target(k, kc));
    if Done(target) {
      TrioIsAlone(db, k, start, deadline);
      TargetReady(db, k, kc, start, deadline);
      TargetEssence(db, k, kc);
      ReversalGoesThrough(t, target.value, w, k, kc, start, now, context, n);
    }
  }

  lemma TargetEssence(db: Db, k: Trio, c: Command)
    requires RowsOk(db) && AloneOk(db, k) && Shaped(k) && c in {k.refund, k.rollback}
    requires RowOf(db, Target(k, c)).Some?
    ensures Essence(RowOf(db, Target(k, c)).value.order) == EssenceOf(Target(k, c))
  {
    OwnRow(db, k, Target(k, c));
  }

  /** A free identity means no row yet; a taken one is the operation's own row. */
  lemma FreeMeansMissing(db: Db, k: Trio, kc: Command, c: Command, now: int, n: nat)
    requires RowsOk(db) && IdentitiesOk(db.wagers) && AloneOk(db, k) && kc in k.All() && Equivalent(c, kc) && Fresh(db, n)
    ensures IdentityFree(db.wagers, Candidate(c, now, n)) <==> RowOf(db, kc).None?
  {
    hide Payload.PayloadHash;
    var t := Candidate(c, now, n);
    RowFacts(db, kc);
    if RowOf(db, kc).Some? {
      assert SameExternal(RowOf(db, kc).value.order, t.order);
    }
    forall id | id in db.wagers && (SameKey(db.wagers[id].order, t.order) || SameExternal(db.wagers[id].order, t.order))
      ensures RowOf(db, kc).Some?
    {
      assert Collide(db.wagers[id].order, OrderOf(kc, 0));
      assert IsExternal(db.wagers[id], kc.providerId, kc.externalId);
    }
  }

  lemma OwnSubmitKeepsTrio(db: Db, k: Trio, kc: Command, c: Command, now: int, n: nat, start: int, deadline: int)
    requires Inv(db) && Fresh(db, n) && Shaped(k) && Covers(k, start) && TrioOk(db, k, start, deadline)
    requires kc in k.All() && Equivalent(c, kc) && now + Backoff.TTL_MS >= deadline
    ensures TrioOk(Submit(db, c, now, n).0, k, start, deadline) && RowOf(Submit(db, c, now, n).0, kc).Some?
  {
    hide Inv, Fresh, TrioOk, IdentityFree, SubmissionEffect, RowOf, Admissible, Apply, ResolveExisting, RowsOk, IdentitiesOk;
    InvParts(db);
    assert AloneOk(db, k) by {
      TrioIsAlone(db, k, start, deadline);
    }
    EquivalentEssence(c, kc, now, n);
    FreeMeansMissing(db, k, kc, c, now, n);
    if RowOf(db, kc).None? {
      var e := SubmissionEffect(db, c, now, n);
      SubmitAdmissible(db, c, now, n);
      if kc == k.bet {
        BetLands(db, k, c, now, n, start, deadline);
        BetKeepsTrio(db, e, n, k, start, deadline);
      } else {
        ReversalLands(db, k, kc, c, now, n, start, deadline);
        LandsKeepsTrio(db, e, n, k, kc, start, deadline);
      }
    }
  }

  lemma InvParts(db: Db)
    requires Inv(db)
    ensures RowsOk(db) && IdentitiesOk(db.wagers) && ClocksOk(db) && OpeningsOk(db)
  {
  }

  lemma TrioIsAlone(db: Db, k: Trio, start: int, deadline: int)
    requires TrioOk(db, k, start, deadline)
    ensures AloneOk(db, k)
  {
  }

  // ---------- ticks ----------

  lemma TickLands(db: Db, k: Trio, kc: Command, id: Id, now: int, jitter: Backoff.Jitter, n: nat, start: int, deadline: int)
    requires RowsOk(db) && IdentitiesOk(db.wagers) && ClocksOk(db)
    requires Shaped(k) && Covers(k, start) && TrioOk(db, k, start, deadline)
    requires Due(db, id, now) && kc in {k.refund, k.rollback} && Essence(db.wagers[id].order) == EssenceOf(kc)
    requires now < deadline || Done(RowOf(db, Target(k, kc)))
    ensures Lands(db, k, kc, TickEffect(db, id, now, jitter, n).row, deadline)
  {
    hide RowsOk, IdentitiesOk, ClocksOk, TrioOk, RowOf, Shaped, Covers, Essence, EssenceOf, TickEffect;
    if Done(RowOf(db, Target(k, kc))) {
      SettlingTickLands(db, k, kc, id, now, jitter, n, start, deadline);
    } else {
      EarlyTickLands(db, k, kc, id, now, jitter, n, start, deadline);
    }
  }

  /** Before the deadline a tick that finds its target undecided reschedules, within the same lifetime. */
  lemma EarlyTickLands(
    db: Db, k: Trio, kc: Command, id: Id, now: int, jitter: Backoff.Jitter, n: nat, start: int, deadline: int)
    requires RowsOk(db) && IdentitiesOk(db.wagers) && ClocksOk(db)
    requires Shaped(k) && TrioOk(db, k, start, deadline)
    requires Due(db, id, now) && kc in {k.refund, k.rollback} && Essence(db.wagers[id].order) == EssenceOf(kc)
    requires now < deadline && !Done(RowOf(db, Target(k, kc)))
    ensures Lands(db, k, kc, TickEffect(db, id, now, jitter, n).row, deadline)
  {
    var t := db.wagers[id];
    assert t.id == id && ClockOk(t);
    WaitingIs(db, k, kc, id, start, deadline);
    hide TrioOk, RowOf, ReadsFor, RowsOk, IdentitiesOk, ClocksOk, Shaped, DecideSettlement, Essence, EssenceOf;
    ReferenceSeen(db, t, k, kc);
    TargetStages(db, k, kc, start, deadline);
    hide ReferenceOf;
  }

  /** A tick that finds its target processed settles against it. */
  lemma SettlingTickLands(
    db: Db, k: Trio, kc: Command, id: Id, now: int, jitter: Backoff.Jitter, n: nat, start: int, deadline: int)
    requires RowsOk(db) && IdentitiesOk(db.wagers)
    requires Shaped(k) && Covers(k, start) && TrioOk(db, k, start, deadline)
    requires Due(db, id, now) && kc in {k.refund, k.rollback} && Essence(db.wagers[id].order) == EssenceOf(kc)
    requires Done(RowOf(db, Target(k, kc)))
    ensures Lands(db, k, kc, TickEffect(db, id, now, jitter, n).row, deadline)
    ensures TickEffect(db, id, now, jitter, n).row.status.Processed?
  {
    hide TrioOk, RowOf, EssenceOf, Essence, ReadsFor, ReferenceOf, RowsOk, IdentitiesOk, Shaped, DecideResolved, Covers;
    var t := db.wagers[id];
    RowIsNamed(db, id);
    TrioIsAlone(db, k, start, deadline);
    WaitingIs(db, k, kc, id, start, deadline);
    ReferenceSeen(db, t, k, kc);
    ReversalReads(db, t, k, kc, start, deadline);
    TargetReady(db, k, kc, start, deadline);
    TargetEssence(db, k, kc);
    TrioWallet(db, k, start, deadline);
    ReversalGoesThrough(t, RowOf(db, Target(k, kc)).value, db.wallets[k.Wallet()], k, kc, start, now,
                        WorkerContext(t, now, n), n);
  }

  lemma WaitingIs(db: Db, k: Trio, kc: Command, id: Id, start: int, deadline: int)
    requires RowsOk(db) && IdentitiesOk(db.wagers) && Shaped(k) && TrioOk(db, k, start, deadline)
    requires id in db.wagers && db.wagers[id].status.PendingReference?
    requires kc in {k.refund, k.rollback} && Essence(db.wagers[id].order) == EssenceOf(kc)
    ensures RowOf(db, kc) == Some(db.wagers[id]) && Waits(Some(db.wagers[id]), deadline)
  {
    ExternalIsUnique(db.wagers, id, kc.providerId, kc.externalId);
    hide AloneOk, TrioSlotsOk, MoneyOk, RowsOk, IdentitiesOk;
  }

  ghost predicate OnWallet(db: Db, k: Trio, id: Id) {
    id in db.wagers && db.wagers[id].order.walletId == k.Wallet()
  }

  lemma OwnTickKeepsTrio(db: Db, k: Trio, id: Id, now: int, jitter: Backoff.Jitter, n: nat, start: int, deadline: int)
    requires Inv(db) && Fresh(db, n) && Shaped(k) && Covers(k, start) && TrioOk(db, k, start, deadline)
    requires Due(db, id, now) && OnWallet(db, k, id)
    requires now < deadline
             || (Essence(db.wagers[id].order) == EssenceOf(k.refund) && Done(RowOf(db, k.bet)))
             || (Essence(db.wagers[id].order) == EssenceOf(k.rollback) && Done(RowOf(db, k.refund)))
    ensures TrioOk(Tick(db, id, now, jitter, n), k, start, deadline)
  {
    hide Inv, Fresh, TrioOk, TickEffect, RowOf, Admissible, Apply, RowsOk, IdentitiesOk, ClocksOk, Shaped;
    InvParts(db);
    ShapedApart(k);
    TickEffectAdmissible(db, id, now, jitter, n);
    TrioIsAlone(db, k, start, deadline);
    assert Essence(db.wagers[id].order) in {EssenceOf(k.refund), EssenceOf(k.rollback)};
    var kc := if Essence(db.wagers[id].order) == EssenceOf(k.refund) then k.refund else k.rollback;
    EssencesApart(k);
    TickLands(db, k, kc, id, now, jitter, n, start, deadline);
    LandsKeepsTrio(db, TickEffect(db, id, now, jitter, n), n, k, kc, start, deadline);
  }

  lemma EssencesApart(k: Trio)
    requires Shaped(k)
    ensures EssenceOf(k.refund) != EssenceOf(k.rollback)
  {
  }

  // ---------- every allowed step ----------

  predicate Foreign(c: Command, k: Trio) {
    c.walletId != k.Wallet() && forall d :: d in k.All() ==> !Collide(OrderOf(c, 0), OrderOf(d, 0))
  }

  /** One of the three, possibly redelivered; or an operation on another wallet. */
  predicate AllowedCommand(c: Command, now: int, k: Trio, deadline: int) {
    || Foreign(c, k)
    || (now + Backoff.TTL_MS >= deadline && exists kc :: kc in k.All() && Equivalent(c, kc))
  }

  /** Nothing else happens on the wallet, and its waiting rows are not looked at after the deadline. */
  ghost predicate Allowed(db: Db, k: Trio, deadline: int, op: Op) {
    match op.action
    case Creates(_, _) => true
    case Submits(c, now) => AllowedCommand(c, now, k, deadline)
    case Consumes(_, c, at) => AllowedCommand(c, at.now, k, deadline)
    case Ticks(id, now, _) => OnWallet(db, k, id) ==> now < deadline
    case Fails(id, _) => !OnWallet(db, k, id)
  }

  lemma ForeignRowElsewhere(e: Effect, c: Command, now: int, k: Trio)
    requires Foreign(c, k) && e.row.order == OrderOf(c, now)
    ensures Elsewhere(e, k)
  {
    assert forall d :: d in k.All() ==> !Collide(OrderOf(c, 0), OrderOf(d, 0));
  }

  lemma OldRowElsewhere(db: Db, e: Effect, k: Trio, id: Id)
    requires AloneOk(db, k) && Shaped(k) && id in db.wagers && !OnWallet(db, k, id) && e.row.order == db.wagers[id].order
    ensures Elsewhere(e, k)
  {
    hide Payload.PayloadHash;
  }

  lemma SubmitKeepsTrio(db: Db, k: Trio, c: Command, now: int, n: nat, start: int, deadline: int)
    requires Inv(db) && Fresh(db, n) && Shaped(k) && Covers(k, start) && TrioOk(db, k, start, deadline)
    requires AllowedCommand(c, now, k, deadline)
    ensures TrioOk(Submit(db, c, now, n).0, k, start, deadline)
  {
    hide Inv, Fresh, TrioOk, IdentityFree, SubmissionEffect, Admissible, Apply, ResolveExisting, Foreign, Shaped;
    if Foreign(c, k) {
      if SubmitFailure(c).None? && IdentityFree(db.wagers, Candidate(c, now, n)) {
        SubmitAdmissible(db, c, now, n);
        SubmissionRow(db, c, now, n);
        ForeignRowElsewhere(SubmissionEffect(db, c, now, n), c, now, k);
        ElsewhereKeepsTrio(db, SubmissionEffect(db, c, now, n), n, k, start, deadline);
      }
    } else {
      var kc :| kc in k.All() && Equivalent(c, kc);
      OwnSubmitKeepsTrio(db, k, kc, c, now, n, start, deadline);
    }
  }

  /** The three operations have nothing to do with the inbox. */
  lemma TrioIgnoresInbox(db: Db, inbox: map<InboxKey, InboxRow>, k: Trio, start: int, deadline: int)
    requires TrioOk(db, k, start, deadline)
    ensures TrioOk(db.(inbox := inbox), k, start, deadline)
  {
    hide HasActiveReversal, Essence, EssenceOf, Collide;
  }

  lemma EmptyWalletKeepsTrio(db: Db, k: Trio, w: WalletRow, start: int, deadline: int)
    requires TrioOk(db, k, start, deadline) && w.id !in db.wallets
    ensures TrioOk(WithWallet(db, w), k, start, deadline)
  {
    hide HasActiveReversal, Essence, EssenceOf, Collide;
  }

  lemma OpeningElsewhere(db: Db, k: Trio, c: CreateCommand, now: int, n: nat)
    requires Fresh(db, n) && Shaped(k) && k.Wallet() in db.wallets
    ensures Elsewhere(OpeningEffect(c, now, n), k)
  {
  }

  lemma CreateKeepsTrio(db: Db, k: Trio, c: CreateCommand, now: int, n: nat, start: int, deadline: int)
    requires Inv(db) && Fresh(db, n) && Shaped(k) && TrioOk(db, k, start, deadline)
    ensures TrioOk(CreateWallet(db, c, now, n).0, k, start, deadline)
  {
    hide Inv, Fresh, TrioOk, Admissible, Elsewhere, Shaped, Apply, OpeningEffect, OpeningsOk;
    var money := c.initialBalance;
    var w := NewWallet(c, now, n);
    if 0 <= money.cents <= MAX_CENTS && IsCurrency(money.currency) && WalletFree(db, w) {
      if money.cents == 0 {
        EmptyWalletKeepsTrio(db, k, w, start, deadline);
      } else {
        TrioWallet(db, k, start, deadline);
        InvParts(db);
        OpeningElsewhere(db, k, c, now, n);
        OpeningAdmissible(db, c, now, n);
        ElsewhereKeepsTrio(db, OpeningEffect(c, now, n), n, k, start, deadline);
      }
    }
  }

  lemma TrioWallet(db: Db, k: Trio, start: int, deadline: int)
    requires TrioOk(db, k, start, deadline)
    ensures k.Wallet() in db.wallets
    ensures db.wallets[k.Wallet()].playerId == k.bet.playerId
    ensures db.wallets[k.Wallet()].balance.currency == k.bet.money.currency
  {
  }

  lemma StepKeepsTrio(db: Db, k: Trio, op: Op, start: int, deadline: int)
    requires Inv(db) && Fresh(db, op.n) && Shaped(k) && Covers(k, start) && TrioOk(db, k, start, deadline)
    requires Allowed(db, k, deadline, op)
    ensures TrioOk(Step(db, op), k, start, deadline)
  {
    hide Inv, Fresh, TrioOk, Submit, CreateWallet, TickEffect, DecideFailure, Admissible, Apply, Shaped, AllowedCommand;
    match op.action
    case Creates(c, now) => CreateKeepsTrio(db, k, c, now, op.n, start, deadline);
    case Submits(c, now) => SubmitKeepsTrio(db, k, c, now, op.n, start, deadline);
    case Consumes(d, c, at) =>
      hide Consume;
      ConsumeIsSubmit(db, d, c, at, op.n);
      SubmitKeepsTrio(db, k, c, at.now, op.n, start, deadline);
      var after := Submit(db, c, at.now, op.n).0;
      var row := InboxRow(d.payloadHash, at.receivedAt, Some(at.processedAt));
      TrioIgnoresInbox(after, after.inbox[d.key := row], k, start, deadline);
    case Ticks(id, now, jitter) =>
      if Due(db, id, now) {
        if OnWallet(db, k, id) {
          OwnTickKeepsTrio(db, k, id, now, jitter, op.n, start, deadline);
        } else {
          OtherTickKeepsTrio(db, k, id, now, jitter, op.n, start, deadline);
        }
      }
    case Fails(id, now) =>
      if id in db.wagers && db.wagers[id].status.PendingReference? {
        OtherFailureKeepsTrio(db, k, id, now, op.n, start, deadline);
      }
  }

  lemma OtherTickKeepsTrio(db: Db, k: Trio, id: Id, now: int, jitter: Backoff.Jitter, n: nat, start: int, deadline: int)
    requires Inv(db) && Fresh(db, n) && Shaped(k) && TrioOk(db, k, start, deadline)
    requires Due(db, id, now) && !OnWallet(db, k, id)
    ensures TrioOk(Tick(db, id, now, jitter, n), k, start, deadline)
  {
    hide Inv, Fresh, TrioOk, TickEffect, Admissible, Apply, Shaped, AloneOk;
    TickEffectAdmissible(db, id, now, jitter, n);
    TickRow(db, id, now, jitter, n);
    TrioIsAlone(db, k, start, deadline);
    OldRowElsewhere(db, TickEffect(db, id, now, jitter, n), k, id);
    ElsewhereKeepsTrio(db, TickEffect(db, id, now, jitter, n), n, k, start, deadline);
  }

  lemma OtherFailureKeepsTrio(db: Db, k: Trio, id: Id, now: int, n: nat, start: int, deadline: int)
    requires Inv(db) && Fresh(db, n) && Shaped(k) && TrioOk(db, k, start, deadline)
    requires id in db.wagers && db.wagers[id].status.PendingReference? && !OnWallet(db, k, id)
    ensures db.wagers[id].order.walletId in db.wallets
    ensures TrioOk(RecordFailure(db, id, now, n), k, start, deadline)
  {
    hide Inv, Fresh, TrioOk, Admissible, Apply, Shaped, AloneOk;
    FailEffectAdmissible(db, id, now, n);
    TrioIsAlone(db, k, start, deadline);
    var e := DecideFailure(db.wagers[id], db.wallets[db.wagers[id].order.walletId], now, n);
    OldRowElsewhere(db, e, k, id);
    ElsewhereKeepsTrio(db, e, n, k, start, deadline);
  }

  // ---------- whole runs ----------

  ghost predicate RunAllowed(db: Db, k: Trio, deadline: int, ops: seq<Op>)
    decreases |ops|
  {
    ops != [] ==> Allowed(db, k, deadline, ops[0]) && RunAllowed(Step(db, ops[0]), k, deadline, ops[1..])
  }

  /** The operation arrives: over HTTP, or in a message the consumer has not seen and can record. */
  predicate Delivers(db: Db, op: Op, kc: Command) {
    match op.action
    case Submits(c, _) => Equivalent(c, kc)
    case Consumes(d, c, at) => Equivalent(c, kc) && d.key !in db.inbox && at.processedAt >= at.receivedAt
    case _ => false
  }

  ghost predicate Delivered(db: Db, ops: seq<Op>, kc: Command)
    decreases |ops|
  {
    ops != [] && (Delivers(db, ops[0], kc) || Delivered(Step(db, ops[0]), ops[1..], kc))
  }

  /** Rows are never removed, so an operation once delivered stays delivered. */
  lemma RowStays(db: Db, op: Op, kc: Command)
    requires Inv(db) && Fresh(db, op.n) && RowOf(db, kc).Some?
    ensures RowOf(Step(db, op), kc).Some?
  {
    hide Inv, Fresh, Step;
    InvParts(db);
    RowFacts(db, kc);
    StepExtends(db, op);
    StepKeepsInv(db, op);
    var id := RowOf(db, kc).value.id;
    assert id in Step(db, op).wagers && IsExternal(Step(db, op).wagers[id], kc.providerId, kc.externalId);
  }

  lemma {:induction false} RunKeepsTrio(db: Db, k: Trio, ops: seq<Op>, start: int, deadline: int)
    requires Inv(db) && Numbered(db, ops) && Shaped(k) && Covers(k, start) && TrioOk(db, k, start, deadline)
    requires RunAllowed(db, k, deadline, ops)
    ensures TrioOk(Run(db, ops), k, start, deadline)
    ensures forall kc :: kc in k.All() && (RowOf(db, kc).Some? || Delivered(db, ops, kc)) ==> RowOf(Run(db, ops), kc).Some?
    decreases |ops|
  {
    hide Inv, TrioOk, Shaped, Step, Allowed, RowOf, Delivers;
    if ops != [] {
      var op := ops[0];
      assert Fresh(db, op.n);
      assert Allowed(db, k, deadline, op) && RunAllowed(Step(db, op), k, deadline, ops[1..]);
      hide Fresh;
      StepKeepsTrio(db, k, op, start, deadline);
      StepKeepsInv(db, op);
      StepKeepsNumbered(db, ops);
      forall kc | kc in k.All() && (RowOf(db, kc).Some? || Delivered(db, ops, kc))
        ensures RowOf(Step(db, op), kc).Some? || Delivered(Step(db, op), ops[1..], kc)
      {
        if RowOf(db, kc).Some? {
          RowStays(db, op, kc);
        } else if Delivers(db, op, kc) {
          DeliveryLands(db, k, kc, op, start, deadline);
        }
      }
      RunKeepsTrio(Step(db, op), k, ops[1..], start, deadline);
    }
  }

  lemma DeliveryLands(db: Db, k: Trio, kc: Command, op: Op, start: int, deadline: int)
    requires Inv(db) && Fresh(db, op.n) && Shaped(k) && Covers(k, start) && TrioOk(db, k, start, deadline)
    requires Allowed(db, k, deadline, op) && kc in k.All() && Delivers(db, op, kc)
    ensures RowOf(Step(db, op), kc).Some?
  {
    hide Inv, Fresh, TrioOk, Shaped, RowOf, Submit, Consume;
    if op.action.Submits? {
      var c := op.action.command;
      NotForeign(c, k, kc);
      OwnSubmitKeepsTrio(db, k, kc, c, op.action.now, op.n, start, deadline);
    } else {
      var c := op.action.command;
      NotForeign(c, k, kc);
      OwnSubmitKeepsTrio(db, k, kc, c, op.action.at.now, op.n, start, deadline);
      ConsumeIsSubmit(db, op.action.delivery, c, op.action.at, op.n);
      FailedSubmitChangesNothing(db, c, op.action.at.now, op.n);
      SameRowAnyInbox(Submit(db, c, op.action.at.now, op.n).0, Step(db, op), kc);
    }
  }

  lemma FailedSubmitChangesNothing(db: Db, c: Command, now: int, n: nat)
    ensures Submit(db, c, now, n).1.Failure? ==> Submit(db, c, now, n).0 == db
  {
  }

  lemma SameRowAnyInbox(a: Db, b: Db, kc: Command)
    ensures a.wagers == b.wagers ==> RowOf(a, kc) == RowOf(b, kc)
  {
  }

  lemma NotForeign(c: Command, k: Trio, kc: Command)
    requires kc in k.All() && Equivalent(c, kc)
    ensures !Foreign(c, k)
  {
    assert Collide(OrderOf(c, 0), OrderOf(kc, 0));
  }

  /** The wallet is there, covers the BET, has nothing waiting, and the three identities are unused. */
  ghost predicate Begins(db: Db, k: Trio) {
    && Shaped(k) && k.Wallet() in db.wallets
    && db.wallets[k.Wallet()].playerId == k.bet.playerId
    && db.wallets[k.Wallet()].balance.currency == k.bet.money.currency
    && k.Cents() <= db.wallets[k.Wallet()].balance.cents
    && (forall id, c :: id in db.wagers && c in k.All() ==> !Collide(db.wagers[id].order, OrderOf(c, 0)))
    && (forall id :: OnWallet(db, k, id) ==> !db.wagers[id].status.PendingReference?)
  }

  lemma NoRowsYet(db: Db, k: Trio)
    requires Begins(db, k)
    ensures RowOf(db, k.bet).None? && RowOf(db, k.refund).None? && RowOf(db, k.rollback).None?
  {
    forall c | c in k.All() ensures RowOf(db, c).None? {
      if RowOf(db, c).Some? {
        var id :| id in db.wagers && db.wagers[id] == RowOf(db, c).value
                  && IsExternal(RowOf(db, c).value, c.providerId, c.externalId);
        assert Collide(db.wagers[id].order, OrderOf(c, 0));
      }
    }
  }

  lemma BeginsTrio(db: Db, k: Trio, deadline: int)
    requires WalletsOk(db) && Begins(db, k)
    ensures TrioOk(db, k, db.wallets[k.Wallet()].balance.cents, deadline)
    ensures Covers(k, db.wallets[k.Wallet()].balance.cents)
  {
    NoRowsYet(db, k);
    assert WalletChecks(db.wallets[k.Wallet()]);
    hide RowOf, HasActiveReversal, Essence, EssenceOf, Shaped, WalletsOk, Collide;
  }

  ghost predicate Drained(db: Db, k: Trio) {
    forall id :: OnWallet(db, k, id) ==> !db.wagers[id].status.PendingReference?
  }

  /** How the three operations end: all PROCESSED, the BET paid once, its slot open again. */
  ghost predicate PaidOnce(db: Db, k: Trio, start: int) {
    && (forall kc :: kc in k.All() ==> Done(RowOf(db, kc)))
    && k.Wallet() in db.wallets && db.wallets[k.Wallet()].balance.cents == start - k.Cents()
    && !HasActiveReversal(db.wagers, RowOf(db, k.bet).value.id)
  }

  /**
   * Every order of arrival settles alike: once the three operations have arrived, by whichever
   * channel, and nothing waits any more, all three are PROCESSED, the BET is paid exactly once, and its slot
   * is open again; whatever duplicates, ticks and traffic on other wallets came in between.
   */
  lemma AnyOrderSettlesAlike(db: Db, k: Trio, ops: seq<Op>, deadline: int)
    requires Inv(db) && Numbered(db, ops) && Begins(db, k) && RunAllowed(db, k, deadline, ops)
    requires forall kc :: kc in k.All() ==> RowOf(Run(db, ops), kc).Some?
    requires Drained(Run(db, ops), k)
    ensures PaidOnce(Run(db, ops), k, db.wallets[k.Wallet()].balance.cents)
  {
    var start := db.wallets[k.Wallet()].balance.cents;
    var end := Run(db, ops);
    assert Shaped(k);
    hide Inv, Begins, RunAllowed, Numbered, HasActiveReversal, RowOf, Run, TrioOk, Shaped;
    assert WalletsOk(db) by {
      GoodWallets(db);
    }
    BeginsTrio(db, k, deadline);
    RunKeepsTrio(db, k, ops, start, deadline);
    RunKeepsInv(db, ops);
    forall kc | kc in k.All() ensures Done(RowOf(end, kc)) {
      NotWaiting(end, k, kc, start, deadline);
    }
    TrioEnds(end, k, start, deadline);
  }

  lemma GoodWallets(db: Db)
    requires Inv(db)
    ensures WalletsOk(db)
  {
  }

  lemma NotWaiting(db: Db, k: Trio, kc: Command, start: int, deadline: int)
    requires Inv(db) && Shaped(k) && TrioOk(db, k, start, deadline) && Drained(db, k) && kc in k.All()
    requires RowOf(db, kc).Some?
    ensures Done(RowOf(db, kc))
  {
    hide Inv, RowOf, HasActiveReversal, Essence, EssenceOf, Shaped;
    InvParts(db);
    OwnRow(db, k, kc);
  }

  lemma TrioEnds(db: Db, k: Trio, start: int, deadline: int)
    requires TrioOk(db, k, start, deadline) && forall kc :: kc in k.All() ==> Done(RowOf(db, kc))
    ensures PaidOnce(db, k, start)
  {
    hide RowOf, HasActiveReversal, AloneOk;
    assert Done(RowOf(db, k.bet)) && Done(RowOf(db, k.refund)) && Done(RowOf(db, k.rollback));
  }

  /** One tick on a waiting row, at any instant it is due; nothing if the row no longer waits. */
  ghost function TickIfWaiting(db: Db, k: Trio, kc: Command, now: int, jitter: Backoff.Jitter, n: nat): Db {
    if RowOf(db, kc).Some? then Tick(db, RowOf(db, kc).value.id, now, jitter, n) else db
  }

  ghost predicate StillWaits(db: Db, kc: Command) {
    RowOf(db, kc).Some? && RowOf(db, kc).value.status.PendingReference?
  }

  predicate DueAt(r: Option<Wager>, now: int) {
    r.Some? && r.value.nextAttemptAt.Some? && r.value.nextAttemptAt.value <= now
  }

  lemma ReversalTickSettles(
    db: Db, k: Trio, kc: Command, now: int, jitter: Backoff.Jitter, n: nat, start: int, deadline: int)
    requires Inv(db) && Fresh(db, n) && Shaped(k) && Covers(k, start) && TrioOk(db, k, start, deadline)
    requires kc in {k.refund, k.rollback} && Done(RowOf(db, Target(k, kc))) && RowOf(db, kc).Some?
    requires RowOf(db, kc).value.status.PendingReference? ==> DueAt(RowOf(db, kc), now)
    ensures var after := TickIfWaiting(db, k, kc, now, jitter, n);
            && TrioOk(after, k, start, deadline) && Done(RowOf(after, kc))
            && (forall d :: d in k.All() && d != kc ==> RowOf(after, d) == RowOf(db, d))
  {
    hide Inv, Fresh, TrioOk, Shaped, RowOf, TickEffect, Admissible, RowsOk, IdentitiesOk, ClocksOk;
    hide RowStep, MoveStep, LinksOk, SlotsOk, Apply, Essence, EssenceOf;
    InvParts(db);
    TrioIsAlone(db, k, start, deadline);
    OwnRow(db, k, kc);
    var t := RowOf(db, kc).value;
    if t.status.PendingReference? {
      assert Due(db, t.id, now);
      TickEffectAdmissible(db, t.id, now, jitter, n);
      var e := TickEffect(db, t.id, now, jitter, n);
      TickLands(db, k, kc, t.id, now, jitter, n, start, deadline);
      LandsKeepsTrio(db, e, n, k, kc, start, deadline);
      CommitParts(db, e, n);
      OwnRows(db, e, n, k, kc);
      SettlingTickLands(db, k, kc, t.id, now, jitter, n, start, deadline);
    } else {
      StageIsDone(db, k, kc, start, deadline);
      assert !Due(db, t.id, now);
    }
  }

  lemma StageIsDone(db: Db, k: Trio, kc: Command, start: int, deadline: int)
    requires TrioOk(db, k, start, deadline) && kc in {k.refund, k.rollback}
    requires RowOf(db, kc).Some? && !RowOf(db, kc).value.status.PendingReference?
    ensures Done(RowOf(db, kc))
  {
    hide RowOf, HasActiveReversal, AloneOk;
  }

  ghost function AfterTwoTicks(
    db: Db, k: Trio, first: int, second: int, jitter: Backoff.Jitter, m: nat, n: nat): Db
  {
    TickIfWaiting(TickIfWaiting(db, k, k.refund, first, jitter, m), k, k.rollback, second, jitter, n)
  }

  /** Draining always succeeds, even after the lifetime is over: one due tick on each reversal, older first. */
  lemma TwoTicksDrain(
    db: Db, k: Trio, first: int, second: int, jitter: Backoff.Jitter, m: nat, n: nat, start: int, deadline: int)
    requires Inv(db) && Fresh(db, m) && Fresh(db, n) && m != n
    requires Shaped(k) && Covers(k, start) && TrioOk(db, k, start, deadline)
    requires forall kc :: kc in k.All() ==> RowOf(db, kc).Some?
    requires RowOf(db, k.refund).value.status.PendingReference? ==> DueAt(RowOf(db, k.refund), first)
    requires RowOf(db, k.rollback).value.status.PendingReference? ==> DueAt(RowOf(db, k.rollback), second)
    ensures PaidOnce(AfterTwoTicks(db, k, first, second, jitter, m, n), k, start)
  {
    hide Inv, Fresh, TrioOk, Shaped, RowOf, TickIfWaiting, PaidOnce, Covers, Done, DueAt, HasActiveReversal;
    assert RowOf(db, k.bet).Some? && RowOf(db, k.refund).Some? && RowOf(db, k.rollback).Some?;
    BetIsDone(db, k, start, deadline);
    ShapedApart(k);
    ReversalTickSettles(db, k, k.refund, first, jitter, m, start, deadline);
    var mid := TickIfWaiting(db, k, k.refund, first, jitter, m);
    TickIfWaitingKeeps(db, k, k.refund, first, jitter, m, n);
    ReversalTickSettles(mid, k, k.rollback, second, jitter, n, start, deadline);
    var end := TickIfWaiting(mid, k, k.rollback, second, jitter, n);
    forall kc | kc in k.All() ensures Done(RowOf(end, kc)) {
      assert kc == k.bet || kc == k.refund || kc == k.rollback;
    }
    TrioEnds(end, k, start, deadline);
  }

  /**
   * The whole story: from the moment the three operations have been delivered, over HTTP or the
   * queue, in any order and with anything in between, two due ticks settle them as in order.
   */
  lemma DeliveredThenDrained(
    db: Db, k: Trio, ops: seq<Op>, deadline: int, first: int, second: int, jitter: Backoff.Jitter, m: nat, n: nat)
    requires Inv(db) && Numbered(db, ops) && Begins(db, k) && RunAllowed(db, k, deadline, ops)
    requires forall kc :: kc in k.All() ==> Delivered(db, ops, kc)
    requires Fresh(Run(db, ops), m) && Fresh(Run(db, ops), n) && m != n
    requires StillWaits(Run(db, ops), k.refund) ==> DueAt(RowOf(Run(db, ops), k.refund), first)
    requires StillWaits(Run(db, ops), k.rollback) ==> DueAt(RowOf(Run(db, ops), k.rollback), second)
    ensures PaidOnce(AfterTwoTicks(Run(db, ops), k, first, second, jitter, m, n), k, db.wallets[k.Wallet()].balance.cents)
  {
    var start := db.wallets[k.Wallet()].balance.cents;
    assert Shaped(k);
    hide Inv, Begins, RunAllowed, Numbered, HasActiveReversal, RowOf, Run, TrioOk, Shaped, Delivered, Fresh, DueAt;
    hide PaidOnce, AfterTwoTicks;
    GoodWallets(db);
    BeginsTrio(db, k, deadline);
    RunKeepsTrio(db, k, ops, start, deadline);
    RunKeepsInv(db, ops);
    assert k.refund in k.All() && k.rollback in k.All();
    TwoTicksDrain(Run(db, ops), k, first, second, jitter, m, n, start, deadline);
  }

  lemma TickIfWaitingKeeps(db: Db, k: Trio, kc: Command, now: int, jitter: Backoff.Jitter, m: nat, n: nat)
    requires Inv(db) && Fresh(db, m) && Fresh(db, n) && m != n
    ensures Inv(TickIfWaiting(db, k, kc, now, jitter, m)) && Fresh(TickIfWaiting(db, k, kc, now, jitter, m), n)
  {
    hide Inv, Fresh, RowOf, Tick;
    if RowOf(db, kc).Some? {
      var op := Op(m, Ticks(RowOf(db, kc).value.id, now, jitter));
      assert TickIfWaiting(db, k, kc, now, jitter, m) == Step(db, op);
      StepKeepsInv(db, op);
      StepKeepsFresh(db, op, n);
    }
  }

  lemma BetIsDone(db: Db, k: Trio, start: int, deadline: int)
    requires TrioOk(db, k, start, deadline) && RowOf(db, k.bet).Some?
    ensures Done(RowOf(db, k.bet))
  {
    hide RowOf, HasActiveReversal, AloneOk;
  }
}
