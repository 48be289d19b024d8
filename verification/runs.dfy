/** Every run of the service, from the empty database on, keeps the invariant. */
module Runs {
  import opened Wrappers
  import opened Domain
  import opened Store
  import opened Decisions
  import opened Invariants
  import opened Preservation
  import opened Conservation
  import opened Commits
  import opened Machine
  import opened Sums
  import Backoff

  // ---------- atomic reads are coherent ----------

  lemma VisibleSlots(db: Db, t: Wager, r: Id)
    requires !t.status.Processed? && (t.id in db.wagers ==> !db.wagers[t.id].status.Processed?)
    ensures HasActiveReversal(Visible(db, t), r) == HasActiveReversal(db.wagers, r)
  {
    var v := Visible(db, t);
    forall a ensures Undone(v, a) == Undone(db.wagers, a) {
      if Undone(v, a) {
        var u :| u in v && Undoes(v[u], a);
        assert u in db.wagers && Undoes(db.wagers[u], a);
      }
      if Undone(db.wagers, a) {
        var u :| u in db.wagers && Undoes(db.wagers[u], a);
        assert u in v && Undoes(v[u], a);
      }
    }
    if HasActiveReversal(v, r) {
      var a :| a in v && ActivelyReverses(v, a, r);
      assert a in db.wagers && ActivelyReverses(db.wagers, a, r);
    }
    if HasActiveReversal(db.wagers, r) {
      var a :| a in db.wagers && ActivelyReverses(db.wagers, a, r);
      assert a in v && ActivelyReverses(v, a, r);
    }
  }

  lemma ReadsAreCoherent(db: Db, t: Wager)
    requires RowsOk(db) && WalletsOk(db)
    requires t.status.Pending? || t.status.PendingReference?
    requires t.id in db.wagers ==> db.wagers[t.id] == t
    ensures Coherent(db, t, ReadsFor(db, t))
  {
    var reference := ReferenceOf(db, t);
    if reference.Some? {
      VisibleSlots(db, t, reference.value.id);
      var id :| id in Visible(db, t) && Visible(db, t)[id] == reference.value
                && IsExternal(reference.value, t.order.providerId, t.order.referenceExternalId.value);
      assert reference.value.id == id;
    }
  }

  lemma SubmittableOrder(c: Command, now: int)
    requires SubmitFailure(c).None?
    ensures Submittable(OrderOf(c, now))
  {
  }

  lemma SubmitAdmissible(db: Db, c: Command, now: int, n: nat)
    requires Inv(db) && Fresh(db, n) && SubmitFailure(c).None? && IdentityFree(db.wagers, Candidate(c, now, n))
    ensures Admissible(db, SubmissionEffect(db, c, now, n), n)
  {
    var t := Candidate(c, now, n);
    SubmittableOrder(c, now);
    ReadsAreCoherent(db, t);
    SubmissionAdmissible(db, t, ReadsFor(db, t), now, ContextOf(c, now, n), n);
  }

  lemma TickEffectAdmissible(db: Db, id: Id, now: int, jitter: Backoff.Jitter, n: nat)
    requires Inv(db) && Fresh(db, n) && Due(db, id, now)
    ensures Admissible(db, TickEffect(db, id, now, jitter, n), n)
  {
    var t := db.wagers[id];
    assert t.id == id by {
      assert RowsOk(db);
    }
    ReadsAreCoherent(db, t);
    TickAdmissible(db, t, ReferenceOf(db, t), ReadsFor(db, t), now, jitter, n);
  }

  lemma FailEffectAdmissible(db: Db, id: Id, now: int, n: nat)
    requires Inv(db) && Fresh(db, n)
    requires id in db.wagers && db.wagers[id].status.PendingReference?
    ensures db.wagers[id].order.walletId in db.wallets
    ensures Admissible(db, DecideFailure(db.wagers[id], db.wallets[db.wagers[id].order.walletId], now, n), n)
  {
    var t := db.wagers[id];
    assert t.id == id by {
      assert RowsOk(db);
    }
    WaitingWallet(db, t);
    OwnsIsReady(db, t, n);
    assert HoldsSameCurrency(db, t, db.wallets[t.order.walletId]) by {
      assert WalletsOk(db);
    }
    FailureAdmissible(db, t, db.wallets[t.order.walletId], now, n);
  }

  // ---------- creating a wallet ----------

  lemma OpeningNamesInjective(a: Id, b: Id)
    ensures OpeningExternal(a) == OpeningExternal(b) ==> a == b
    ensures OpeningKey(a) == OpeningKey(b) ==> a == b
  {
    if OpeningExternal(a) == OpeningExternal(b) {
      assert IdText(a) == OpeningExternal(a)[8..] && IdText(b) == OpeningExternal(b)[8..];
      IdTextInjective(a, b);
    }
    if OpeningKey(a) == OpeningKey(b) {
      assert IdText(a) == OpeningKey(a)[17..] && IdText(b) == OpeningKey(b)[17..];
      IdTextInjective(a, b);
    }
  }

  /** The OPENING reservation never loses: no other row can carry the wallet's opening identity. */
  lemma OpeningNeverLoses(db: Db, c: CreateCommand, now: int, n: nat)
    requires OpeningsOk(db) && Fresh(db, n)
    ensures IdentityFree(db.wagers, Reserved(WagerId(n), OpeningOrder(c, WalletId(n), now)))
  {
    forall id | id in db.wagers
      ensures !SameKey(db.wagers[id].order, OpeningOrder(c, WalletId(n), now))
      ensures !SameExternal(db.wagers[id].order, OpeningOrder(c, WalletId(n), now))
    {
      OpeningNamesInjective(db.wagers[id].order.walletId, WalletId(n));
    }
  }

  lemma OpeningAdmissible(db: Db, c: CreateCommand, now: int, n: nat)
    requires OpeningsOk(db) && Fresh(db, n)
    requires 0 < c.initialBalance.cents <= MAX_CENTS && IsCurrency(c.initialBalance.currency)
    requires WalletFree(db, NewWallet(c, now, n))
    ensures Admissible(db, OpeningEffect(c, now, n), n)
  {
    OpeningNeverLoses(db, c, now, n);
  }

  /** A wallet opened with nothing has no row, no entry and no event yet. */
  ghost predicate OpensEmpty(db: Db, w: WalletRow) {
    WalletFree(db, w) && WalletChecks(w) && w.balance.cents == 0 && w.version == 1
  }

  function WithWallet(db: Db, w: WalletRow): Db {
    db.(wallets := db.wallets[w.id := w])
  }

  lemma EmptyWalletRows(db: Db, w: WalletRow)
    requires WalletsOk(db) && RowsOk(db) && OpeningsOk(db) && OpensEmpty(db, w)
    ensures WalletsOk(WithWallet(db, w)) && RowsOk(WithWallet(db, w)) && OpeningsOk(WithWallet(db, w))
  {
  }

  lemma EmptyWalletBooks(db: Db, w: WalletRow)
    requires ChainsOk(db) && LedgerOk(db) && AllEntered(db) && VersionsOk(db) && OpensEmpty(db, w)
    ensures ChainsOk(WithWallet(db, w)) && LedgerOk(WithWallet(db, w))
    ensures AllEntered(WithWallet(db, w)) && VersionsOk(WithWallet(db, w))
  {
  }

  lemma EmptyWalletEvents(db: Db, w: WalletRow)
    requires ChainsOk(db) && EventsOk(db) && OpensEmpty(db, w)
    ensures EventsOk(WithWallet(db, w))
  {
    var db' := WithWallet(db, w);
    forall x: Id ensures WalletEventsOk(db', x) {
      assert WalletEventsOk(db, x);
    }
    forall t: Id ensures WagerEventsOk(db', t) {
      assert WagerEventsOk(db, t);
    }
  }

  lemma EmptyWalletNet(db: Db, w: WalletRow)
    requires RowsOk(db) && NetOk(db) && OpensEmpty(db, w)
    ensures NetOk(WithWallet(db, w))
  {
    NothingBeforeOpening(db, w.id);
  }

  lemma EmptyWalletKeepsInv(db: Db, w: WalletRow)
    requires Inv(db) && OpensEmpty(db, w)
    ensures Inv(WithWallet(db, w))
  {
    EmptyWalletRows(db, w);
    EmptyWalletBooks(db, w);
    EmptyWalletEvents(db, w);
    EmptyWalletNet(db, w);
  }

  // ---------- every step ----------

  lemma SubmitKeepsInv(db: Db, c: Command, now: int, n: nat)
    requires Inv(db) && Fresh(db, n)
    ensures Inv(Submit(db, c, now, n).0)
  {
    if SubmitFailure(c).None? && IdentityFree(db.wagers, Candidate(c, now, n)) {
      SubmitAdmissible(db, c, now, n);
      AdmissibleKeepsInv(db, SubmissionEffect(db, c, now, n), n);
    }
  }

  lemma CreateKeepsInv(db: Db, c: CreateCommand, now: int, n: nat)
    requires Inv(db) && Fresh(db, n)
    ensures Inv(CreateWallet(db, c, now, n).0)
  {
    var w := NewWallet(c, now, n);
    var money := c.initialBalance;
    if 0 <= money.cents <= MAX_CENTS && IsCurrency(money.currency) && WalletFree(db, w) {
      if money.cents == 0 {
        EmptyWalletKeepsInv(db, w);
      } else {
        OpeningAdmissible(db, c, now, n);
        AdmissibleKeepsInv(db, OpeningEffect(c, now, n), n);
      }
    }
  }

  /** Neither table of money reads the inbox. */
  lemma InboxFrame(db: Db, inbox: map<InboxKey, InboxRow>)
    requires Inv(db)
    requires forall k :: k in inbox ==>
               inbox[k].processedAt.Some? && inbox[k].processedAt.value >= inbox[k].receivedAt
    ensures Inv(db.(inbox := inbox))
  {
    var db' := db.(inbox := inbox);
    forall x: Id ensures WalletEventsOk(db', x) && WagerEventsOk(db', x) {
      assert WalletEventsOk(db, x) && WagerEventsOk(db, x);
    }
  }

  /** A submission reads and writes nothing of the inbox. */
  lemma SubmitIgnoresInbox(db: Db, inbox: map<InboxKey, InboxRow>, c: Command, now: int, n: nat)
    ensures Submit(db.(inbox := inbox), c, now, n).0 == Submit(db, c, now, n).0.(inbox := inbox)
    ensures Submit(db.(inbox := inbox), c, now, n).1 == Submit(db, c, now, n).1
    ensures Submit(db, c, now, n).0.inbox == db.inbox
  {
    var db' := db.(inbox := inbox);
    var t := Candidate(c, now, n);
    assert ReadsFor(db', t) == ReadsFor(db, t);
  }

  lemma ConsumeKeepsInv(db: Db, d: Delivery, c: Command, at: Instants, n: nat)
    requires Inv(db) && Fresh(db, n)
    ensures Inv(Consume(db, d, c, at, n).0)
  {
    hide Fresh, Submit;
    var inbox := db.inbox[d.key := InboxRow(d.payloadHash, at.receivedAt, None)];
    SubmitIgnoresInbox(db, inbox, c, at.now, n);
    SubmitKeepsInv(db, c, at.now, n);
    var after := Submit(db, c, at.now, n).0;
    if at.processedAt >= at.receivedAt {
      InboxFrame(after, inbox[d.key := InboxRow(d.payloadHash, at.receivedAt, Some(at.processedAt))]);
    }
  }

  /** No step of the service leaves the invariant. */
  lemma StepKeepsInv(db: Db, op: Op)
    requires Inv(db) && Fresh(db, op.n)
    ensures Inv(Step(db, op))
  {
    hide Inv, Admissible, Fresh, Submit, Consume, CreateWallet, TickEffect, DecideFailure;
    match op.action
    case Creates(c, now) => CreateKeepsInv(db, c, now, op.n);
    case Submits(c, now) => SubmitKeepsInv(db, c, now, op.n);
    case Consumes(d, c, at) => ConsumeKeepsInv(db, d, c, at, op.n);
    case Ticks(id, now, jitter) =>
      if Due(db, id, now) {
        TickEffectAdmissible(db, id, now, jitter, op.n);
        AdmissibleKeepsInv(db, TickEffect(db, id, now, jitter, op.n), op.n);
      }
    case Fails(id, now) =>
      if id in db.wagers && db.wagers[id].status.PendingReference? {
        FailEffectAdmissible(db, id, now, op.n);
        AdmissibleKeepsInv(db, DecideFailure(db.wagers[id], db.wallets[db.wagers[id].order.walletId], now, op.n), op.n);
      }
  }

  lemma ApplyKeepsFresh(db: Db, e: Effect, n: nat, m: nat)
    requires Admissible(db, e, n) && Fresh(db, m) && m != n
    ensures Fresh(Apply(db, e), m)
  {
  }

  lemma SubmitKeepsFresh(db: Db, c: Command, now: int, n: nat, m: nat)
    requires Inv(db) && Fresh(db, n) && Fresh(db, m) && m != n
    ensures Fresh(Submit(db, c, now, n).0, m)
  {
    hide Inv, Admissible, Fresh, SubmissionEffect, IdentityFree;
    if SubmitFailure(c).None? && IdentityFree(db.wagers, Candidate(c, now, n)) {
      SubmitAdmissible(db, c, now, n);
      ApplyKeepsFresh(db, SubmissionEffect(db, c, now, n), n, m);
    }
  }

  lemma CreateKeepsFresh(db: Db, c: CreateCommand, now: int, n: nat, m: nat)
    requires Inv(db) && Fresh(db, n) && Fresh(db, m) && m != n
    ensures Fresh(CreateWallet(db, c, now, n).0, m)
  {
    hide Admissible, OpeningEffect;
    var money := c.initialBalance;
    if 0 < money.cents <= MAX_CENTS && IsCurrency(money.currency) && WalletFree(db, NewWallet(c, now, n)) {
      OpeningAdmissible(db, c, now, n);
      ApplyKeepsFresh(db, OpeningEffect(c, now, n), n, m);
    }
  }

  /** A step uses up its own number only. */
  lemma StepKeepsFresh(db: Db, op: Op, m: nat)
    requires Inv(db) && Fresh(db, op.n) && Fresh(db, m) && m != op.n
    ensures Fresh(Step(db, op), m)
  {
    hide Inv, Admissible, Submit, CreateWallet, TickEffect, DecideFailure;
    match op.action
    case Creates(c, now) => CreateKeepsFresh(db, c, now, op.n, m);
    case Submits(c, now) => SubmitKeepsFresh(db, c, now, op.n, m);
    case Consumes(d, c, at) =>
      SubmitIgnoresInbox(db, db.inbox[d.key := InboxRow(d.payloadHash, at.receivedAt, None)], c, at.now, op.n);
      SubmitKeepsFresh(db, c, at.now, op.n, m);
    case Ticks(id, now, jitter) =>
      if Due(db, id, now) {
        TickEffectAdmissible(db, id, now, jitter, op.n);
        ApplyKeepsFresh(db, TickEffect(db, id, now, jitter, op.n), op.n, m);
      }
    case Fails(id, now) =>
      if id in db.wagers && db.wagers[id].status.PendingReference? {
        FailEffectAdmissible(db, id, now, op.n);
        ApplyKeepsFresh(db, DecideFailure(db.wagers[id], db.wallets[db.wagers[id].order.walletId], now, op.n), op.n, m);
      }
  }

  lemma StepKeepsNumbered(db: Db, ops: seq<Op>)
    requires Inv(db) && ops != [] && Numbered(db, ops)
    ensures Numbered(Step(db, ops[0]), ops[1..])
  {
    forall i | 0 <= i < |ops[1..]| ensures Fresh(Step(db, ops[0]), ops[1..][i].n) {
      StepKeepsFresh(db, ops[0], ops[i + 1].n);
    }
  }

  /** Every state of every run satisfies the invariant. */
  lemma {:induction false} RunKeepsInv(db: Db, ops: seq<Op>)
    requires Inv(db) && Numbered(db, ops)
    ensures Inv(Run(db, ops))
    decreases |ops|
  {
    if ops != [] {
      StepKeepsInv(db, ops[0]);
      StepKeepsNumbered(db, ops);
      RunKeepsInv(Step(db, ops[0]), ops[1..]);
    }
  }

  lemma EmptyIsGood()
    ensures Inv(Empty())
  {
  }

  /** The states of a run that starts with empty tables. */
  ghost predicate Reachable(db: Db) {
    exists ops: seq<Op> :: Numbered(Empty(), ops) && Run(Empty(), ops) == db
  }

  lemma ReachableIsGood(db: Db)
    requires Reachable(db)
    ensures Inv(db)
  {
    var ops: seq<Op> :| Numbered(Empty(), ops) && Run(Empty(), ops) == db;
    EmptyIsGood();
    RunKeepsInv(Empty(), ops);
  }
}
