/**
 * When a commit is the atomic operation on the state it commits to, exactly: a transaction that
 * holds its wallet can only have missed what settled on another wallet, or what found no wallet.
 */
module Staleness {
  import opened Wrappers
  import opened Domain
  import opened Store
  import opened Decisions
  import opened Invariants
  import opened Commits
  import opened Machine
  import opened Lookups
  import opened Idempotency
  import opened Interleaving
  import opened Serialization
  import opened Settling
  import Backoff
  import Payload

  // ---------- submissions, exactly ----------

  /** A stale WIN is turned down for the same reason, whether it is linked to its BET or not. */
  ghost predicate TurnedDownAlike(db: Db, t: Tx)
    requires t.row.Some? && t.wallet.Some? && t.wallet.value.Some?
  {
    var order := t.row.value.order;
    && order.kind.Win? && ReferenceOf(db, t.row.value).Some?
    && WinReferenceFailure(order, ReferenceOf(db, t.row.value).value).None?
    && MovementFailure(t.wallet.value.value, Win, order.money.cents, Credit).Some?
  }

  /** What a submission that is about to commit has missed does not matter. */
  ghost predicate CommitsAsNow(db: Db, t: Tx)
    requires t.row.Some? && t.wallet.Some?
  {
    if t.wallet.value.None? then t.row.value.order.walletId !in db.wallets
    else EndsOnWallet(t.row.value, t.wallet.value.value) || !Stale(db, t) || TurnedDownAlike(db, t)
  }

  /** Only a submission that finds no wallet is refused for it. */
  lemma FoundWalletIsNotMissing(t: Wager, r: Reads, now: int, context: Context, n: nat)
    requires r.wallet.Some? && t.failure.None?
    ensures DecideSubmission(t, r, now, context, n).row.failure != Some(WalletNotFound)
    ensures DecideSubmission(t, r, now, context, n).row.id == t.id
  {
  }

  lemma MissingWallet(t: Wager, r: Reads, now: int, context: Context, n: nat)
    requires r.wallet.None?
    ensures DecideSubmission(t, r, now, context, n) == Reject(t, WalletNotFound, None, now, context)
  {
  }

  /** A WIN decided without its reference against the same WIN decided with it. */
  lemma StaleWin(t: Wager, mine: Reads, atomic: Reads, now: int, context: Context, n: nat)
    requires t.order.kind.Win? && t.order.referenceExternalId.Some? && mine.wallet == atomic.wallet && mine.wallet.Some?
    requires !WalletMismatch(t, mine.wallet.value)
    requires mine.reference.Some? ==> !Decidable(t, mine.reference.value)
    requires atomic.reference.Some? && Decidable(t, atomic.reference.value)
    ensures var alike := WinReferenceFailure(t.order, atomic.reference.value).None?
                         && MovementFailure(mine.wallet.value, Win, t.order.money.cents, Credit).Some?;
            var e := DecideSubmission(t, mine, now, context, n);
            var e' := DecideSubmission(t, atomic, now, context, n);
            && e.row.id == e'.row.id == t.id
            && (alike ==> e == e') && (!alike ==> e.row != e'.row)
  {
  }

  /** Commits differ as soon as the rows they write differ. */
  lemma DifferentRows(db: Db, a: Effect, b: Effect)
    requires a.row.id == b.row.id && a.row != b.row
    ensures Apply(db, a) != Apply(db, b)
  {
    assert Apply(db, a).wagers[a.row.id] != Apply(db, b).wagers[a.row.id];
  }

  /** What a submission about to commit holds, and what it would read now. */
  lemma SubmissionFacts(db: Db, t: Tx, n: nat)
    requires TxOk(db, t, n) && Decided(t) && t.job.Submission?
    ensures t.row.Some? && t.wallet.Some? && t.row.value.status.Pending? && t.row.value.failure.None?
    ensures t.row.value == Candidate(t.job.command, t.job.now, n)
    ensures ReadsFor(db, t.row.value).wallet == WalletOf(db, t.row.value)
    ensures ReadsFor(db, t.row.value).reference == ReferenceOf(db, t.row.value)
    ensures t.wallet.value.Some? ==> WalletOf(db, t.row.value) == t.wallet.value
    ensures EffectOf(t, n) == DecideSubmission(t.row.value, ReadsOf(t), t.job.now, ContextOf(t.job.command, t.job.now, n), n)
    ensures Submit(db, t.job.command, t.job.now, n).0 == Apply(db, SubmissionEffect(db, t.job.command, t.job.now, n))
  {
    hide Payload.PayloadHash, Fresh, Apply, SubmissionEffect, DecideSubmission;
  }

  lemma NoWalletIff(db: Db, t: Tx, n: nat)
    requires TxOk(db, t, n) && Decided(t) && t.job.Submission? && t.wallet.value.None?
    ensures Apply(db, EffectOf(t, n)) == Submit(db, t.job.command, t.job.now, n).0 <==>
            t.row.value.order.walletId !in db.wallets
  {
    hide TxOk, Payload.PayloadHash, DecideSubmission, Apply, Submit, ReadsFor, EffectOf;
    SubmissionFacts(db, t, n);
    var context := ContextOf(t.job.command, t.job.now, n);
    MissingWallet(t.row.value, ReadsOf(t), t.job.now, context, n);
    if t.row.value.order.walletId in db.wallets {
      FoundWalletIsNotMissing(t.row.value, ReadsFor(db, t.row.value), t.job.now, context, n);
      DifferentRows(db, EffectOf(t, n), SubmissionEffect(db, t.job.command, t.job.now, n));
    } else {
      MissingWallet(t.row.value, ReadsFor(db, t.row.value), t.job.now, context, n);
    }
  }

  lemma StaleWinIff(db: Db, t: Tx, n: nat)
    requires TxOk(db, t, n) && Decided(t) && t.job.Submission? && t.wallet.value.Some?
    requires !EndsOnWallet(t.row.value, t.wallet.value.value) && Stale(db, t) && t.row.value.order.kind.Win?
    ensures Apply(db, EffectOf(t, n)) == Submit(db, t.job.command, t.job.now, n).0 <==> TurnedDownAlike(db, t)
  {
    hide TxOk, Payload.PayloadHash, DecideSubmission, Apply, Submit, ReadsFor, EffectOf;
    SubmissionFacts(db, t, n);
    var row := t.row.value;
    var context := ContextOf(t.job.command, t.job.now, n);
    StaleWin(row, ReadsOf(t), ReadsFor(db, row), t.job.now, context, n);
    if !TurnedDownAlike(db, t) {
      DifferentRows(db, EffectOf(t, n), SubmissionEffect(db, t.job.command, t.job.now, n));
    }
  }

  lemma EndsOnWalletCommits(db: Db, t: Tx, n: nat)
    requires TxOk(db, t, n) && Decided(t) && t.job.Submission? && t.wallet.value.Some?
    requires EndsOnWallet(t.row.value, t.wallet.value.value)
    ensures Apply(db, EffectOf(t, n)) == Submit(db, t.job.command, t.job.now, n).0
  {
    hide TxOk, Payload.PayloadHash, DecideSubmission, Apply, Submit, ReadsFor, EffectOf;
    SubmissionFacts(db, t, n);
    var context := ContextOf(t.job.command, t.job.now, n);
    ReferenceUnused(t.row.value, ReadsOf(t), t.job.now, context, n);
    ReferenceUnused(t.row.value, ReadsFor(db, t.row.value), t.job.now, context, n);
  }

  lemma CommitHolds(s: Sys, n: nat)
    requires SysOk(s) && Enabled(s, Commit(n))
    ensures n in s.txs && TxOk(s.db, s.txs[n], n) && Decided(s.txs[n]) && s.txs[n].row.Some?
    ensures s.txs[n].job.Submission? ==> s.txs[n].wallet.Some?
    ensures Next(s, Commit(n)).db == Apply(s.db, EffectOf(s.txs[n], n))
  {
    hide Inv, TxOk, EffectOf, Apply;
  }

  /**
   * Every submission, of every kind: its commit is the atomic submission on the state it commits
   * to if and only if its wallet is still missing, or its reference was not needed, or did not
   * settle in between, or would not have changed the refusal.
   */
  lemma SubmissionCommitsAtomicallyIff(s: Sys, n: nat)
    requires SysOk(s) && Enabled(s, Commit(n)) && s.txs[n].job.Submission?
    ensures s.txs[n].row.Some? && s.txs[n].wallet.Some?
    ensures Next(s, Commit(n)).db == Submit(s.db, s.txs[n].job.command, s.txs[n].job.now, n).0 <==>
            CommitsAsNow(s.db, s.txs[n])
  {
    hide SysOk, TxOk, Next, Submit, Stale, Apply, EffectOf, Decided;
    var t := s.txs[n];
    CommitHolds(s, n);
    if t.wallet.value.None? {
      NoWalletIff(s.db, t, n);
    } else if EndsOnWallet(t.row.value, t.wallet.value.value) {
      EndsOnWalletCommits(s.db, t, n);
    } else if !Stale(s.db, t) {
      SubmissionCommitsAtomically(s, n);
    } else if t.row.value.order.kind.Win? {
      StaleWinIff(s.db, t, n);
    } else {
      ReversalCommitsAtomicallyIff(s, n);
    }
  }

  // ---------- ticks, exactly ----------

  /** What a tick that is about to commit has missed does not matter. */
  ghost predicate TicksAsNow(db: Db, t: Tx)
    requires t.row.Some? && t.first.Some? && t.job.WorkerTick?
  {
    var now := ReferenceOf(db, t.row.value);
    if Interleaving.Reschedules(t) then !Resolvable(now)
    else
      t.wallet.Some? && t.wallet.value.Some? && t.reference.Some? &&
      (Resolvable(t.reference.value) || RefusedAlike(t.row.value, t.reference.value, now, t.job.at))
  }

  /** A settlement that read nothing resolvable refuses for the reason it would have now. */
  predicate RefusedAlike(row: Wager, read: Option<Wager>, now: Option<Wager>, at: int) {
    if Resolvable(now) then read.Some? && ReversalFailure(row.order, now.value) == Some(ReferenceNotProcessed)
    else Backoff.Exhausted(row.attempts, row.expiresAt, at) && (now.None? <==> read.None?)
  }

  /** What a tick about to commit holds, and what the atomic tick would decide now. */
  lemma TickFacts(db: Db, t: Tx, n: nat)
    requires Inv(db) && TxOk(db, t, n) && Decided(t) && t.job.WorkerTick?
    ensures t.row.Some? && t.first.Some? && t.row.value.status.PendingReference?
    ensures ReadsFor(db, t.row.value).reference == ReferenceOf(db, t.row.value)
    ensures WalletOf(db, t.row.value).Some? && ReadsFor(db, t.row.value).wallet == WalletOf(db, t.row.value)
    ensures t.wallet.Some? && t.wallet.value.Some? ==> WalletOf(db, t.row.value) == t.wallet.value
    ensures EffectOf(t, n) == DecideTick(t.row.value, t.first.value, ReadsOf(t), t.job.at, t.job.jitter, n)
    ensures Tick(db, t.job.id, t.job.at, t.job.jitter, n) ==
            Apply(db, DecideTick(t.row.value, ReferenceOf(db, t.row.value), ReadsFor(db, t.row.value),
                                 t.job.at, t.job.jitter, n))
  {
    WaitingWallet(db, t.row.value);
    hide Inv, Fresh, ReferenceOf, HasActiveReversal, DecideTick, Apply;
  }

  /** A tick that reschedules against the tick decided on what there is now. */
  lemma RescheduleIff(t: Wager, first: Option<Wager>, mine: Reads, atomic: Reads, at: int, jitter: Backoff.Jitter, n: nat)
    requires t.status.PendingReference? && !Resolvable(first) && !Backoff.Exhausted(t.attempts, t.expiresAt, at)
    ensures var e := DecideTick(t, first, mine, at, jitter, n);
            var e' := DecideTick(t, atomic.reference, atomic, at, jitter, n);
            && e.row.id == e'.row.id
            && (if Resolvable(atomic.reference) then e.row != e'.row else e == e')
  {
    if Resolvable(atomic.reference) {
      SettlementEnds(t, atomic, at, n);
    }
  }

  /** A settlement that read nothing resolvable, against the tick decided on what there is now. */
  lemma UnresolvedIff(t: Wager, first: Option<Wager>, mine: Reads, atomic: Reads, at: int, jitter: Backoff.Jitter, n: nat)
    requires t.status.PendingReference? && (Resolvable(first) || Backoff.Exhausted(t.attempts, t.expiresAt, at))
    requires mine.wallet.Some? && mine.wallet == atomic.wallet && !Resolvable(mine.reference)
    ensures var e := DecideTick(t, first, mine, at, jitter, n);
            var e' := DecideTick(t, atomic.reference, atomic, at, jitter, n);
            && e.row.id == e'.row.id
            && (if RefusedAlike(t, mine.reference, atomic.reference, at) then e == e' else e.row != e'.row)
  {
  }

  /** A settlement that found no wallet, against one that has a wallet. */
  lemma MissingWalletSettles(
    t: Wager, first: Option<Wager>, mine: Reads, atomic: Reads, at: int, jitter: Backoff.Jitter, n: nat)
    requires t.status.PendingReference? && (Resolvable(first) || Backoff.Exhausted(t.attempts, t.expiresAt, at))
    requires mine.wallet.None? && atomic.wallet.Some? && t.failure.None?
    ensures var e := DecideTick(t, first, mine, at, jitter, n);
            var e' := DecideTick(t, atomic.reference, atomic, at, jitter, n);
            e.row.id == e'.row.id && e.row != e'.row
  {
  }

  lemma UnresolvedTickIff(db: Db, t: Tx, n: nat)
    requires Inv(db) && TxOk(db, t, n) && Decided(t) && t.job.WorkerTick?
    requires Interleaving.Reschedules(t) || t.wallet.value.None? || !Resolvable(t.reference.value)
    ensures Apply(db, EffectOf(t, n)) == Tick(db, t.job.id, t.job.at, t.job.jitter, n) <==> TicksAsNow(db, t)
  {
    hide Inv, TxOk, DecideTick, Apply, ReadsFor, ReferenceOf, EffectOf, Tick, RefusedAlike;
    TickFacts(db, t, n);
    var row := t.row.value;
    var mine := ReadsOf(t);
    var atomic := ReadsFor(db, row);
    if Interleaving.Reschedules(t) {
      RescheduleIff(row, t.first.value, mine, atomic, t.job.at, t.job.jitter, n);
    } else if t.wallet.value.None? {
      WaitingHasNoFailure(db, t, n);
      MissingWalletSettles(row, t.first.value, mine, atomic, t.job.at, t.job.jitter, n);
    } else {
      UnresolvedIff(row, t.first.value, mine, atomic, t.job.at, t.job.jitter, n);
    }
    if !TicksAsNow(db, t) {
      DifferentRows(db, EffectOf(t, n), DecideTick(row, atomic.reference, atomic, t.job.at, t.job.jitter, n));
    }
  }

  lemma WaitingHasNoFailure(db: Db, t: Tx, n: nat)
    requires Inv(db) && TxOk(db, t, n) && t.row.Some? && t.job.WorkerTick?
    ensures t.row.value.failure.None?
  {
    GoodParts(db);
    assert WagerChecks(t.row.value);
    hide Inv;
  }

  /**
   * Every tick: its commit is the atomic tick on the state it commits to if and only if it
   * reschedules and its reference is still unresolved, or it settles on a resolved reference, or
   * it refuses for the reason it would have now.
   */
  lemma TickCommitsAtomicallyIff(s: Sys, n: nat)
    requires SysOk(s) && Enabled(s, Commit(n)) && s.txs[n].job.WorkerTick?
    ensures s.txs[n].row.Some? && s.txs[n].first.Some?
    ensures Next(s, Commit(n)).db == Tick(s.db, s.txs[n].job.id, s.txs[n].job.at, s.txs[n].job.jitter, n) <==>
            TicksAsNow(s.db, s.txs[n])
  {
    CommitHolds(s, n);
    hide TxOk, Next, Tick, Apply, EffectOf;
    var t := s.txs[n];
    assert Inv(s.db);
    if Interleaving.Reschedules(t) || t.wallet.value.None? || !Resolvable(t.reference.value) {
      hide SysOk, Inv;
      UnresolvedTickIff(s.db, t, n);
    } else {
      SettlementCommitsAtomically(s, n);
    }
  }

  lemma FailureFacts(db: Db, t: Tx, n: nat)
    requires TxOk(db, t, n) && Decided(t) && t.job.FailureRecord?
    ensures Apply(db, EffectOf(t, n)) == RecordFailure(db, t.job.failed, t.job.failedAt, n)
  {
    hide Fresh, DecideFailure, Apply, ReferenceCurrent, SlotCurrent;
  }

  /** A recorded failure always commits as the atomic one. */
  lemma FailureCommitsAtomically(s: Sys, n: nat)
    requires SysOk(s) && Enabled(s, Commit(n)) && s.txs[n].job.FailureRecord?
    ensures Next(s, Commit(n)).db == RecordFailure(s.db, s.txs[n].job.failed, s.txs[n].job.failedAt, n)
  {
    hide SysOk, TxOk, Next, RecordFailure, Apply, EffectOf;
    CommitHolds(s, n);
    FailureFacts(s.db, s.txs[n], n);
  }

  // ---------- what the wallet's lock buys ----------

  /** The reference settled without this wallet's lock. */
  ghost predicate SettledAbroad(db: Db, t: Tx)
    requires t.row.Some?
  {
    ReferenceOf(db, t.row.value).Some? &&
    var r := ReferenceOf(db, t.row.value).value;
    r.order.walletId != t.row.value.order.walletId || r.failure == Some(WalletNotFound)
  }

  /** A transaction that holds its wallet misses only what settled abroad. */
  ghost predicate MissesOnlyAbroad(db: Db, t: Tx) {
    t.row.Some? && HoldsWallet(t, t.row.value.order.walletId) && t.reference.Some? && Stale(db, t) ==> SettledAbroad(db, t)
  }

  ghost predicate AbroadOk(s: Sys) {
    forall n :: n in s.txs ==> MissesOnlyAbroad(s.db, s.txs[n])
  }

  /** To settle anything, a transaction holds the wallet, or has found none. */
  lemma SettlingHoldsWallet(t: Tx, n: nat)
    requires Decided(t) && !IsTerminal(t.row.value.status)
    ensures var row := EffectOf(t, n).row;
            IsTerminal(row.status) && row.failure != Some(WalletNotFound) ==> HoldsWallet(t, row.order.walletId)
  {
  }

  lemma OwnRowIsOpen(db: Db, t: Tx, n: nat)
    requires TxOk(db, t, n) && t.row.Some?
    ensures !IsTerminal(t.row.value.status)
  {
  }

  /** The lookup after a commit finds the committed row, or what it found before. */
  lemma LookupAfter(db: Db, e: Effect, row: Wager)
    requires IdentitiesOk(Visible(db, row)) && RowsOk(db) && e.row.id != row.id
    ensures var found := ReferenceOf(Apply(db, e), row);
            found.Some? && found.value.id != e.row.id ==> ReferenceOf(db, row) == found
    ensures var found := ReferenceOf(Apply(db, e), row);
            found.Some? && found.value.id == e.row.id ==> found.value == e.row
  {
    var found := ReferenceOf(Apply(db, e), row);
    if found.Some? {
      var id :| id in Visible(Apply(db, e), row) && Visible(Apply(db, e), row)[id] == found.value
                && IsExternal(found.value, row.order.providerId, row.order.referenceExternalId.value);
      if id != e.row.id {
        ExternalIsUnique(Visible(db, row), id, row.order.providerId, row.order.referenceExternalId.value);
      }
    }
  }

  lemma OwnIdentities(db: Db, t: Tx, n: nat)
    requires IdentitiesOk(db.wagers) && TxOk(db, t, n) && t.row.Some?
    ensures IdentitiesOk(Visible(db, t.row.value))
  {
    if t.job.Submission? {
      hide IdentitiesOk, IdentityFree;
      ReservedIdentities(db, t.row.value);
    } else {
      assert Visible(db, t.row.value) == db.wagers;
    }
  }

  /** A commit that does not hold the wallet can only settle the reference abroad. */
  lemma OtherCommitSettlesAbroad(db: Db, e: Effect, t: Tx, n: nat)
    requires RowsOk(db) && IdentitiesOk(db.wagers) && TxOk(db, t, n) && MissesOnlyAbroad(db, t)
    requires t.row.Some? ==> e.row.id != t.row.value.id
    requires t.row.Some? && HoldsWallet(t, t.row.value.order.walletId) ==>
               (IsTerminal(e.row.status) && e.row.failure != Some(WalletNotFound) ==>
                  e.row.order.walletId != t.row.value.order.walletId)
    ensures MissesOnlyAbroad(Apply(db, e), t)
  {
    if t.row.Some? {
      OwnIdentities(db, t, n);
      hide TxOk, RowsOk, IdentitiesOk, Apply, ReferenceOf;
      LookupAfter(db, e, t.row.value);
    }
  }

  lemma CommitKeepsAbroad(s: Sys, n: nat, m: nat)
    requires SysOk(s) && Enabled(s, Commit(n)) && m in s.txs && m != n && MissesOnlyAbroad(s.db, s.txs[m])
    ensures MissesOnlyAbroad(Next(s, Commit(n)).db, s.txs[m])
  {
    hide Inv, TxOk, EffectOf, Apply, Decided, MissesOnlyAbroad, RowsOk, IdentitiesOk, OpeningsOk;
    var t := s.txs[n];
    assert Apart(t, s.txs[m]) && TxOk(s.db, s.txs[m], m) && Inv(s.db);
    CommitHolds(s, n);
    GoodParts(s.db);
    CommitWrites(t, n);
    OwnRowIsOpen(s.db, t, n);
    SettlingHoldsWallet(t, n);
    if s.txs[m].row.Some? {
      CommitApart(s, n, m);
    }
    OtherCommitSettlesAbroad(s.db, EffectOf(t, n), s.txs[m], m);
  }

  /** A new wallet is nobody's, and its opening no reference of a provider. */
  lemma OpenKeepsAbroad(s: Sys, n: nat, c: CreateCommand, now: int, m: nat)
    requires SysOk(s) && Enabled(s, OpenWallet(n, c, now)) && m in s.txs && MissesOnlyAbroad(s.db, s.txs[m])
    ensures MissesOnlyAbroad(CreateWallet(s.db, c, now, n).0, s.txs[m])
  {
    hide Inv, TxOk, Fresh, MissesOnlyAbroad, Apply, OpeningEffect, RowsOk, IdentitiesOk, OpeningsOk, WalletFree;
    hide FindWallet, Payload.PayloadHash;
    var t := s.txs[m];
    assert TxOk(s.db, t, m) && Inv(s.db) && m != n;
    GoodParts(s.db);
    if t.row.Some? {
      OpenIsElsewhere(s.db, n, t, m);
    }
    if c.initialBalance.cents == 0 {
      WalletsDoNotMatter(s.db, t, s.db.wallets[WalletId(n) := NewWallet(c, now, n)]);
    }
    OpeningShape(c, now, n);
    OtherCommitSettlesAbroad(s.db, OpeningEffect(c, now, n), t, m);
  }

  lemma OpeningShape(c: CreateCommand, now: int, n: nat)
    ensures OpeningEffect(c, now, n).row.id == WagerId(n) && OpeningEffect(c, now, n).row.order.walletId == WalletId(n)
  {
    hide Payload.PayloadHash;
  }

  lemma OpenIsElsewhere(db: Db, n: nat, t: Tx, m: nat)
    requires TxOk(db, t, m) && Fresh(db, n) && m != n && t.row.Some?
    ensures t.row.value.id != WagerId(n)
    ensures HoldsWallet(t, t.row.value.order.walletId) ==> t.row.value.order.walletId != WalletId(n)
  {
  }

  lemma WalletsDoNotMatter(db: Db, t: Tx, wallets: map<Id, WalletRow>)
    requires MissesOnlyAbroad(db, t)
    ensures MissesOnlyAbroad(db.(wallets := wallets), t)
  {
    if t.row.Some? {
      assert ReferenceOf(db.(wallets := wallets), t.row.value) == ReferenceOf(db, t.row.value);
    }
  }

  /** A transaction's own steps: what it reads under the lock is what there is. */
  lemma OwnStepKeepsAbroad(s: Sys, move: Move)
    requires SysOk(s) && AbroadOk(s) && Enabled(s, move)
    requires !move.Commit? && !move.OpenWallet? && move.n in Next(s, move).txs
    ensures Next(s, move).db == s.db && MissesOnlyAbroad(s.db, Next(s, move).txs[move.n])
  {
    hide Inv, ReferenceOf, RowOk, WalletCurrent, ReferenceCurrent, SlotCurrent, Fresh;
    if move.n in s.txs {
      assert TxOk(s.db, s.txs[move.n], move.n) && MissesOnlyAbroad(s.db, s.txs[move.n]);
    }
    hide SysOk;
  }

  lemma NextKeepsAbroad(s: Sys, move: Move)
    requires SysOk(s) && AbroadOk(s) && Enabled(s, move)
    ensures AbroadOk(Next(s, move))
  {
    hide SysOk, MissesOnlyAbroad;
    var s' := Next(s, move);
    forall m | m in s'.txs ensures MissesOnlyAbroad(s'.db, s'.txs[m]) {
      if m == move.n && !move.Commit? && !move.OpenWallet? {
        OwnStepKeepsAbroad(s, move);
      } else if move.Commit? {
        CommitKeepsAbroad(s, move.n, m);
      } else if move.OpenWallet? {
        OpenKeepsAbroad(s, move.n, move.create, move.openedAt, m);
      }
    }
  }

  lemma {:induction false} InterleavingKeepsAbroad(s: Sys, moves: seq<Move>, end: Sys)
    requires SysOk(s) && AbroadOk(s) && Reaches(s, moves, end)
    ensures SysOk(end) && AbroadOk(end)
    decreases |moves|
  {
    if moves != [] {
      hide SysOk, AbroadOk, Enabled, Next;
      NextKeepsOk(s, moves[0]);
      NextKeepsAbroad(s, moves[0]);
      InterleavingKeepsAbroad(Next(s, moves[0]), moves[1..], end);
    }
  }

  /**
   * What the lock buys: in every interleaving, a transaction that holds its wallet and has looked
   * its reference up has missed at most what settled on another wallet, or without any.
   */
  lemma StaleMeansAbroad(moves: seq<Move>, s: Sys, n: nat)
    requires Reaches(Serialization.Start(), moves, s) && n in s.txs && s.txs[n].row.Some?
    requires HoldsWallet(s.txs[n], s.txs[n].row.value.order.walletId) && s.txs[n].reference.Some?
    requires Stale(s.db, s.txs[n])
    ensures SettledAbroad(s.db, s.txs[n])
  {
    StartIsOk();
    InterleavingKeepsAbroad(Serialization.Start(), moves, s);
    assert MissesOnlyAbroad(s.db, s.txs[n]);
    hide SysOk;
  }

  /** Every row the order refers to is on the order's own wallet, and was decided there. */
  ghost predicate RefersHome(db: Db, o: Order) {
    forall id :: id in db.wagers && ReferencesExternal(o, db.wagers[id]) ==>
      db.wagers[id].order.walletId == o.walletId && db.wagers[id].failure != Some(WalletNotFound)
  }

  lemma HomeIsNotAbroad(db: Db, t: Tx)
    requires t.row.Some? && RefersHome(db, t.row.value.order) && t.row.value.failure.None?
    ensures !SettledAbroad(db, t)
  {
    var row := t.row.value;
    var found := ReferenceOf(db, row);
    if found.Some? {
      var id :| id in Visible(db, row) && Visible(db, row)[id] == found.value
                && IsExternal(found.value, row.order.providerId, row.order.referenceExternalId.value);
      if id != row.id {
        assert ReferencesExternal(row.order, db.wagers[id]);
      }
    }
  }

  lemma HomeCommitsAsNow(s: Sys, n: nat)
    requires SysOk(s) && AbroadOk(s) && Enabled(s, Commit(n)) && s.txs[n].job.Submission?
    requires s.txs[n].wallet.value.Some? && RefersHome(s.db, s.txs[n].row.value.order)
    ensures s.txs[n].row.Some? && s.txs[n].wallet.Some? && CommitsAsNow(s.db, s.txs[n])
  {
    hide SysOk, SettledAbroad, RefersHome, Stale;
    CommitHolds(s, n);
    hide TxOk;
    var t := s.txs[n];
    if !EndsOnWallet(t.row.value, t.wallet.value.value) && Stale(s.db, t) {
      assert MissesOnlyAbroad(s.db, t);
      SubmissionFacts(s.db, t, n);
      HomeIsNotAbroad(s.db, t);
      assert false;
    }
  }

  /**
   * So a submission that finds its wallet and refers to operations of that wallet commits as the
   * atomic submission, whatever runs beside it.
   */
  lemma HomeReferencesCommitAtomically(moves: seq<Move>, s: Sys, n: nat)
    requires Reaches(Serialization.Start(), moves, s) && Enabled(s, Commit(n)) && s.txs[n].job.Submission?
    requires s.txs[n].wallet.value.Some? && RefersHome(s.db, s.txs[n].row.value.order)
    ensures Next(s, Commit(n)).db == Submit(s.db, s.txs[n].job.command, s.txs[n].job.now, n).0
  {
    StartIsOk();
    hide SysOk, Next, Submit, RefersHome, Enabled, CommitsAsNow;
    InterleavingKeepsAbroad(Serialization.Start(), moves, s);
    HomeCommitsAsNow(s, n);
    SubmissionCommitsAtomicallyIff(s, n);
  }
}
