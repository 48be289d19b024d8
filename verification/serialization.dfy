/** Every interleaving is safe: no lost update, one active reversal, every commit an atomic step. */
module Serialization {
  import opened Wrappers
  import opened Domain
  import opened Store
  import opened Decisions
  import opened Invariants
  import opened Preservation
  import opened Commits
  import opened Machine
  import opened Runs
  import opened Lookups
  import opened Idempotency
  import opened Interleaving
  import opened Schema
  import Backoff
  import Payload

  // ---------- a commit is admissible ----------

  lemma TxReadsCoherent(db: Db, t: Tx, n: nat)
    requires TxOk(db, t, n) && t.row.Some? && ReferenceRead(t)
    requires t.wallet.Some? ==> t.wallet.value.Some?
    ensures Coherent(db, t.row.value, ReadsOf(t))
  {
  }

  lemma BlindReadsCoherent(db: Db, t: Tx, n: nat)
    requires TxOk(db, t, n) && t.row.Some?
    ensures Coherent(db, t.row.value, Reads(ReadsOf(t).wallet, None, false))
  {
  }

  /** A submission that ends on the wallet alone decides the same whatever else it has read. */
  lemma ReferenceUnused(t: Wager, r: Reads, now: int, context: Context, n: nat)
    requires r.wallet.None? || EndsOnWallet(t, r.wallet.value)
    ensures DecideSubmission(t, r, now, context, n) ==
            DecideSubmission(t, Reads(r.wallet, None, false), now, context, n)
  {
  }

  lemma SubmissionCommitAdmissible(db: Db, t: Tx, n: nat)
    requires Inv(db) && TxOk(db, t, n) && Decided(t) && t.job.Submission?
    ensures Admissible(db, EffectOf(t, n), n)
  {
    var row := t.row.value;
    var context := ContextOf(t.job.command, t.job.now, n);
    hide Inv, Admissible, Coherent, DecideSubmission, Fresh;
    if t.wallet.value.None? || EndsOnWallet(row, t.wallet.value.value) {
      BlindReadsCoherent(db, t, n);
      SubmissionAdmissible(db, row, Reads(ReadsOf(t).wallet, None, false), t.job.now, context, n);
      ReferenceUnused(row, ReadsOf(t), t.job.now, context, n);
    } else {
      TxReadsCoherent(db, t, n);
      SubmissionAdmissible(db, row, ReadsOf(t), t.job.now, context, n);
    }
  }

  /** A tick that reschedules, or finds no wallet, decides the same whatever else it has read. */
  lemma TickReferenceUnused(t: Wager, first: Option<Wager>, r: Reads, now: int, jitter: Backoff.Jitter, n: nat)
    requires r.wallet.None? || (!Resolvable(first) && !Backoff.Exhausted(t.attempts, t.expiresAt, now))
    ensures DecideTick(t, first, r, now, jitter, n) ==
            DecideTick(t, first, Reads(r.wallet, None, false), now, jitter, n)
  {
  }

  lemma TickCommitAdmissible(db: Db, t: Tx, n: nat)
    requires Inv(db) && TxOk(db, t, n) && Decided(t) && t.job.WorkerTick?
    ensures Admissible(db, EffectOf(t, n), n)
  {
    var row := t.row.value;
    var first := t.first.value;
    hide Inv, Admissible, Coherent, DecideTick, Fresh;
    if Interleaving.Reschedules(t) || t.wallet.value.None? {
      BlindReadsCoherent(db, t, n);
      TickAdmissible(db, row, first, Reads(ReadsOf(t).wallet, None, false), t.job.at, t.job.jitter, n);
      TickReferenceUnused(row, first, ReadsOf(t), t.job.at, t.job.jitter, n);
    } else {
      TxReadsCoherent(db, t, n);
      TickAdmissible(db, row, first, ReadsOf(t), t.job.at, t.job.jitter, n);
    }
  }

  lemma FailureCommitAdmissible(db: Db, t: Tx, n: nat)
    requires Inv(db) && TxOk(db, t, n) && Decided(t) && t.job.FailureRecord?
    ensures Admissible(db, EffectOf(t, n), n)
  {
    FailEffectAdmissible(db, t.row.value.id, t.job.failedAt, n);
  }

  lemma CommitAdmissible(db: Db, t: Tx, n: nat)
    requires Inv(db) && TxOk(db, t, n) && Decided(t)
    ensures Admissible(db, EffectOf(t, n), n)
  {
    hide Inv, TxOk, Decided, Admissible, EffectOf;
    match t.job
    case Submission(_, _) => SubmissionCommitAdmissible(db, t, n);
    case WorkerTick(_, _, _) => TickCommitAdmissible(db, t, n);
    case FailureRecord(_, _) => FailureCommitAdmissible(db, t, n);
  }

  lemma CommitWrites(t: Tx, n: nat)
    requires Decided(t)
    ensures EffectOf(t, n).row.id == t.row.value.id && EffectOf(t, n).row.order == t.row.value.order
    ensures EffectOf(t, n).movement.Some? ==> HoldsWallet(t, t.row.value.order.walletId)
  {
  }

  // ---------- the other transactions ----------

  lemma OtherRowOk(db: Db, e: Effect, n: nat, t: Tx, m: nat)
    requires Admissible(db, e, n) && m != n && t.row.Some? && RowOk(db, t, m)
    requires t.job.Submission? ==> !Collide(e.row.order, t.row.value.order)
    requires e.row.id != t.row.value.id
    ensures RowOk(Apply(db, e), t, m)
  {
    hide Admissible, Submittable, Payload.PayloadHash;
  }

  lemma OtherReadsOk(db: Db, e: Effect, n: nat, t: Tx)
    requires Admissible(db, e, n) && t.row.Some?
    requires WalletCurrent(db, t) && ReferenceCurrent(db, t)
    requires e.movement.Some? ==> !HoldsWallet(t, e.row.order.walletId)
    ensures WalletCurrent(Apply(db, e), t) && ReferenceCurrent(Apply(db, e), t)
  {
  }

  lemma OtherSlotOk(db: Db, e: Effect, n: nat, t: Tx)
    requires LinksOk(db.wagers) && SlotsOk(db.wagers) && Admissible(db, e, n) && t.row.Some?
    requires ReferenceCurrent(db, t) && SlotCurrent(db, t)
    requires e.movement.Some? ==> !HoldsWallet(t, e.row.order.walletId)
    ensures SlotCurrent(Apply(db, e), t)
  {
    if t.active.Some? {
      SlotNeedsWallet(db, e, n, t.reference.value.value.id);
    }
  }

  lemma OtherTxOk(db: Db, e: Effect, n: nat, t: Tx, m: nat)
    requires Inv(db) && Admissible(db, e, n) && TxOk(db, t, m) && m != n
    requires t.row.Some? ==>
               && (t.job.Submission? ==> !Collide(e.row.order, t.row.value.order))
               && e.row.id != t.row.value.id
               && (e.movement.Some? ==> !HoldsWallet(t, e.row.order.walletId))
    ensures TxOk(Apply(db, e), t, m)
  {
    assert LinksOk(db.wagers) && SlotsOk(db.wagers);
    hide Inv, Admissible, LinksOk, SlotsOk, RowOk, WalletCurrent, ReferenceCurrent, SlotCurrent, Collide, HoldsWallet, Fresh, Apply;
    ApplyKeepsFresh(db, e, n, m);
    if t.row.Some? {
      OtherRowOk(db, e, n, t, m);
      OtherReadsOk(db, e, n, t);
      OtherSlotOk(db, e, n, t);
    }
  }

  // ---------- every step ----------

  lemma LookOk(s: Sys, move: Move)
    requires move.ReadFirst? || move.LockWallet? || move.ReadReference?
    requires RowsOk(s.db) && WalletsOk(s.db) && Enabled(s, move) && TxOk(s.db, s.txs[move.n], move.n)
    ensures TxOk(s.db, Next(s, move).txs[move.n], move.n)
  {
    if move.ReadReference? {
      ReadsAreCoherent(s.db, s.txs[move.n].row.value);
    }
  }

  lemma SlotLookOk(s: Sys, n: nat)
    requires RowsOk(s.db) && Enabled(s, ReadSlot(n)) && TxOk(s.db, s.txs[n], n)
    ensures TxOk(s.db, Next(s, ReadSlot(n)).txs[n], n)
  {
    VisibleSlots(s.db, s.txs[n].row.value, s.txs[n].reference.value.value.id);
  }

  lemma ReadStepsOk(s: Sys, move: Move)
    requires SysOk(s) && Enabled(s, move)
    requires move.ReadFirst? || move.LockWallet? || move.ReadReference? || move.ReadSlot?
    ensures Next(s, move).db == s.db && TxOk(s.db, Next(s, move).txs[move.n], move.n)
  {
    assert RowsOk(s.db) && WalletsOk(s.db) && TxOk(s.db, s.txs[move.n], move.n);
    hide SysOk, RowsOk, WalletsOk, TxOk;
    if move.ReadSlot? {
      SlotLookOk(s, move.n);
    } else {
      LookOk(s, move);
    }
  }

  lemma {:induction false} ReplaceApart(s: Sys, n: nat, t: Tx)
    requires forall a, b :: a in s.txs && b in s.txs && a != b ==> Apart(s.txs[a], s.txs[b])
    requires n in s.txs && forall m :: m in s.txs && m != n ==> Apart(t, s.txs[m]) && Apart(s.txs[m], t)
    ensures var s' := With(s, n, t);
            forall a, b :: a in s'.txs && b in s'.txs && a != b ==> Apart(s'.txs[a], s'.txs[b])
  {
    hide Apart;
  }

  lemma ReplaceOk(s: Sys, n: nat, t: Tx)
    requires SysOk(s) && n in s.txs && TxOk(s.db, t, n)
    requires forall m :: m in s.txs && m != n ==> Apart(t, s.txs[m]) && Apart(s.txs[m], t)
    ensures SysOk(With(s, n, t))
  {
    ReplaceApart(s, n, t);
    hide Inv, TxOk, Apart;
  }

  /** Reading keeps the row; only the wallet lock is new, and nobody else holds it. */
  lemma ReadApart(s: Sys, n: nat, t: Tx, m: nat)
    requires n in s.txs && m in s.txs && m != n && Apart(s.txs[n], s.txs[m]) && Apart(s.txs[m], s.txs[n])
    requires t.row == s.txs[n].row && t.job == s.txs[n].job && t.row.Some?
    requires t.wallet == s.txs[n].wallet || !HoldsWallet(s.txs[m], t.row.value.order.walletId)
    ensures Apart(t, s.txs[m]) && Apart(s.txs[m], t)
  {
  }

  lemma ReadStepKeepsOk(s: Sys, move: Move)
    requires SysOk(s) && Enabled(s, move)
    requires move.ReadFirst? || move.LockWallet? || move.ReadReference? || move.ReadSlot?
    ensures SysOk(Next(s, move))
  {
    ReadStepsOk(s, move);
    var t := Next(s, move).txs[move.n];
    assert Next(s, move) == With(s, move.n, t);
    forall m | m in s.txs && m != move.n ensures Apart(t, s.txs[m]) && Apart(s.txs[m], t) {
      assert Apart(s.txs[move.n], s.txs[m]) && Apart(s.txs[m], s.txs[move.n]);
      hide SysOk, TxOk, Apart, HoldsWallet;
      ReadApart(s, move.n, t, m);
    }
    ReplaceOk(s, move.n, t);
  }

  lemma RemoveOk(s: Sys, n: nat)
    requires SysOk(s)
    ensures SysOk(s.(txs := Without(s.txs, n)))
  {
    hide Inv, TxOk, Apart;
  }

  /** The transaction once it has its row. */
  function WithRow(s: Sys, n: nat): Tx
    requires n in s.txs && (!s.txs[n].job.Submission? ==> JobRow(s.txs[n].job) in s.db.wagers)
  {
    match s.txs[n].job
    case Submission(c, now) => s.txs[n].(row := Some(Candidate(c, now, n)))
    case j => s.txs[n].(row := Some(s.db.wagers[JobRow(j)]))
  }

  function JobRow(j: Job): Id
    requires !j.Submission?
  {
    if j.WorkerTick? then j.id else j.failed
  }

  lemma TakeRowIs(s: Sys, n: nat)
    requires Enabled(s, TakeRow(n))
    ensures !s.txs[n].job.Submission? ==> JobRow(s.txs[n].job) in s.db.wagers
    ensures var s' := Next(s, TakeRow(n));
            if n in s'.txs then
              && s' == With(s, n, WithRow(s, n))
              && (s.txs[n].job.Submission? ==>
                    IdentityFree(s.db.wagers, Candidate(s.txs[n].job.command, s.txs[n].job.now, n)))
            else s' == s.(txs := Without(s.txs, n))
  {
  }

  lemma TakeRowOk(s: Sys, n: nat)
    requires RowsOk(s.db) && n in s.txs && s.txs[n].row.None? && RowAvailable(s, n) && TxOk(s.db, s.txs[n], n)
    requires match s.txs[n].job
             case Submission(c, now) => IdentityFree(s.db.wagers, Candidate(c, now, n))
             case j => JobRow(j) in s.db.wagers
    ensures TxOk(s.db, WithRow(s, n), n)
  {
    match s.txs[n].job
    case Submission(c, now) => SubmittableOrder(c, now);
    case _ =>
  }

  /** A row just taken collides with no row already held. */
  lemma TakenApart(s: Sys, n: nat, m: nat)
    requires RowsOk(s.db) && n in s.txs && s.txs[n].row.None? && RowAvailable(s, n)
    requires !s.txs[n].job.Submission? ==> JobRow(s.txs[n].job) in s.db.wagers
    requires m in s.txs && m != n && TxOk(s.db, s.txs[n], n) && TxOk(s.db, s.txs[m], m)
    ensures Apart(WithRow(s, n), s.txs[m]) && Apart(s.txs[m], WithRow(s, n))
  {
    hide IdentityFree, Submittable, WalletCurrent, ReferenceCurrent, SlotCurrent;
  }

  lemma TakeRowKeepsOk(s: Sys, n: nat)
    requires SysOk(s) && Enabled(s, TakeRow(n))
    ensures SysOk(Next(s, TakeRow(n)))
  {
    var s' := Next(s, TakeRow(n));
    TakeRowIs(s, n);
    if n in s'.txs {
      assert RowsOk(s.db) && RowAvailable(s, n) && s.txs[n].row.None? && TxOk(s.db, s.txs[n], n);
      TakeRowOk(s, n);
      hide Next, Enabled, RowsOk, Inv, TxOk, Apart, RowAvailable, WithRow;
      forall m | m in s.txs && m != n ensures Apart(WithRow(s, n), s.txs[m]) && Apart(s.txs[m], WithRow(s, n)) {
        TakenApart(s, n, m);
      }
      ReplaceOk(s, n, WithRow(s, n));
    } else {
      RemoveOk(s, n);
    }
  }

  lemma CommitApart(s: Sys, n: nat, m: nat)
    requires SysOk(s) && Enabled(s, Commit(n)) && m in s.txs && m != n && s.txs[m].row.Some?
    ensures s.txs[m].job.Submission? ==> !Collide(s.txs[n].row.value.order, s.txs[m].row.value.order)
    ensures s.txs[n].row.value.id != s.txs[m].row.value.id
  {
    var a := s.txs[n];
    var b := s.txs[m];
    assert Apart(a, b) && Apart(b, a);
    assert TxOk(s.db, a, n) && TxOk(s.db, b, m);
    if b.job.Submission? && !a.job.Submission? {
      assert a.row.value.id in s.db.wagers;
      assert !SameKey(s.db.wagers[a.row.value.id].order, b.row.value.order);
    }
  }

  lemma OthersAfterCommit(s: Sys, n: nat, m: nat)
    requires SysOk(s) && Enabled(s, Commit(n)) && m in s.txs && m != n
    ensures TxOk(Apply(s.db, EffectOf(s.txs[n], n)), s.txs[m], m)
  {
    hide Inv, Admissible, EffectOf, TxOk, Apply, Collide;
    var t := s.txs[n];
    assert TxOk(s.db, t, n) && TxOk(s.db, s.txs[m], m) && Apart(t, s.txs[m]);
    if s.txs[m].row.Some? {
      CommitApart(s, n, m);
    }
    hide SysOk;
    CommitAdmissible(s.db, t, n);
    CommitWrites(t, n);
    OtherTxOk(s.db, EffectOf(t, n), n, s.txs[m], m);
  }

  /** A committed write disturbs no other transaction. */
  lemma CommitKeepsOk(s: Sys, n: nat)
    requires SysOk(s) && Enabled(s, Commit(n))
    ensures SysOk(Next(s, Commit(n)))
  {
    hide Inv, Fresh;
    var t := s.txs[n];
    var e := EffectOf(t, n);
    assert TxOk(s.db, t, n) && Inv(s.db);
    forall m | m in s.txs && m != n ensures TxOk(Apply(s.db, e), s.txs[m], m) {
      OthersAfterCommit(s, n, m);
    }
    hide Inv, Admissible, EffectOf, TxOk, Apply, Apart;
    CommitAdmissible(s.db, t, n);
    AdmissibleKeepsInv(s.db, e, n);
  }

  lemma OpenedWalletApart(db: Db, c: CreateCommand, now: int, n: nat, t: Tx, m: nat)
    requires Inv(db) && Fresh(db, n) && TxOk(db, t, m) && m != n
    requires 0 < c.initialBalance.cents <= MAX_CENTS && IsCurrency(c.initialBalance.currency)
    requires WalletFree(db, NewWallet(c, now, n))
    ensures TxOk(Apply(db, OpeningEffect(c, now, n)), t, m)
  {
    var e := OpeningEffect(c, now, n);
    assert OpeningsOk(db);
    OpeningAdmissible(db, c, now, n);
    assert e.row.order.providerId == INTERNAL_PROVIDER && e.row.id == WagerId(n) && e.row.order.walletId == WalletId(n);
    hide Inv, Admissible, OpeningEffect;
    OtherTxOk(db, e, n, t, m);
  }

  lemma EmptyWalletApart(db: Db, w: WalletRow, n: nat, t: Tx, m: nat)
    requires TxOk(db, t, m) && m != n && w.id == WalletId(n) && w.id !in db.wallets
    ensures TxOk(WithWallet(db, w), t, m)
  {
  }

  lemma OpenWalletKeepsOk(s: Sys, n: nat, c: CreateCommand, now: int)
    requires SysOk(s) && Enabled(s, OpenWallet(n, c, now))
    ensures SysOk(Next(s, OpenWallet(n, c, now)))
  {
    var db' := CreateWallet(s.db, c, now, n).0;
    assert Inv(s.db) && Fresh(s.db, n) && n !in s.txs;
    forall m | m in s.txs ensures TxOk(db', s.txs[m], m) {
      assert TxOk(s.db, s.txs[m], m) && m != n;
      hide SysOk, Inv, TxOk, Fresh, OpeningEffect, FindWallet;
      var money := c.initialBalance;
      var w := NewWallet(c, now, n);
      if 0 <= money.cents <= MAX_CENTS && IsCurrency(money.currency) && WalletFree(s.db, w) {
        if money.cents == 0 {
          EmptyWalletApart(s.db, w, n, s.txs[m], m);
        } else {
          OpenedWalletApart(s.db, c, now, n, s.txs[m], m);
        }
      }
    }
    hide Inv, TxOk, Fresh, Apart, CreateWallet;
    CreateKeepsInv(s.db, c, now, n);
  }

  lemma BeginKeepsOk(s: Sys, n: nat, job: Job)
    requires SysOk(s) && Enabled(s, Begin(n, job))
    ensures SysOk(Next(s, Begin(n, job)))
  {
    hide Inv;
  }

  /** No statement of any transaction leaves the invariant. */
  lemma NextKeepsOk(s: Sys, move: Move)
    requires SysOk(s) && Enabled(s, move)
    ensures SysOk(Next(s, move))
  {
    hide SysOk;
    match move
    case Begin(n, job) => BeginKeepsOk(s, n, job);
    case TakeRow(n) => TakeRowKeepsOk(s, n);
    case Commit(n) => CommitKeepsOk(s, n);
    case Abort(n) => RemoveOk(s, n);
    case OpenWallet(n, c, now) => OpenWalletKeepsOk(s, n, c, now);
    case _ => ReadStepKeepsOk(s, move);
  }

  // ---------- whole interleavings ----------

  ghost predicate Reaches(s: Sys, moves: seq<Move>, end: Sys)
    decreases |moves|
  {
    if moves == [] then s == end
    else Enabled(s, moves[0]) && Reaches(Next(s, moves[0]), moves[1..], end)
  }

  lemma FirstMove(s: Sys, move: Move, rest: seq<Move>, end: Sys)
    requires Enabled(s, move) && Reaches(Next(s, move), rest, end)
    ensures Reaches(s, [move] + rest, end)
  {
    hide Enabled, Next;
    assert ([move] + rest)[0] == move && ([move] + rest)[1..] == rest;
  }

  lemma {:induction false} InterleavingKeepsOk(s: Sys, moves: seq<Move>, end: Sys)
    requires SysOk(s) && Reaches(s, moves, end)
    ensures SysOk(end)
    decreases |moves|
  {
    if moves != [] {
      hide SysOk, Enabled;
      NextKeepsOk(s, moves[0]);
      InterleavingKeepsOk(Next(s, moves[0]), moves[1..], end);
    }
  }

  function Start(): Sys {
    Sys(Empty(), map[])
  }

  lemma StartIsOk()
    ensures SysOk(Start())
  {
    EmptyIsGood();
  }

  /**
   * No lost update: in every interleaving, the wallet a transaction holds in memory is the
   * committed row at every instant up to and including its commit, although the write is blind.
   */
  lemma NoLostUpdate(moves: seq<Move>, s: Sys, n: nat)
    requires Reaches(Start(), moves, s)
    requires n in s.txs && s.txs[n].row.Some? && s.txs[n].wallet.Some? && s.txs[n].wallet.value.Some?
    ensures var w := s.txs[n].row.value.order.walletId;
            w in s.db.wallets && s.db.wallets[w] == s.txs[n].wallet.value.value
  {
    StartIsOk();
    InterleavingKeepsOk(Start(), moves, s);
    assert TxOk(s.db, s.txs[n], n);
  }

  /** No reference ever has two active reversals, in any interleaving. */
  lemma OneActiveReversal(moves: seq<Move>, s: Sys, r: Id, a: Id, b: Id)
    requires Reaches(Start(), moves, s)
    requires ActivelyReverses(s.db.wagers, a, r) && ActivelyReverses(s.db.wagers, b, r)
    ensures a == b
  {
    StartIsOk();
    InterleavingKeepsOk(Start(), moves, s);
  }

  // ---------- the schema never objects ----------

  lemma MovesKnownWallet(db: Db, e: Effect, n: nat)
    requires Admissible(db, e, n) && e.movement.Some? && !e.row.order.kind.Opening?
    ensures e.movement.value.wallet.id in db.wallets
  {
  }

  lemma TxOwns(db: Db, t: Tx, n: nat)
    requires TxOk(db, t, n) && t.row.Some?
    ensures Owns(db, t.row.value, n) && (t.row.value.order.kind.Opening? ==> Waiting(db, t.row.value))
  {
  }

  lemma GoodLedger(db: Db)
    requires Inv(db)
    ensures LedgerOk(db)
  {
  }

  lemma WaitingIsNoOpening(db: Db, t: Wager)
    requires RowsOk(db) && Waiting(db, t)
    ensures !t.order.kind.Opening?
  {
  }

  /**
   * In every interleaving, whatever a transaction writes when it commits passes every CHECK, key,
   * foreign key and trigger: wager_reversal_guard and wager_transaction_guard never fire.
   */
  lemma CommitWritesAllowed(s: Sys, n: nat)
    requires SysOk(s) && Enabled(s, Commit(n))
    ensures s.txs[n].row.Some? && Decided(s.txs[n])
    ensures var e := EffectOf(s.txs[n], n);
            var reserved := AfterReserve(s.db, s.txs[n].row.value);
            && UpdateWagerAllowed(reserved, e.row)
            && NewEventIds(s.db.outbox, e.events)
            && (e.movement.Some? ==>
                  && InsertLedgerAllowed(AfterUpdate(reserved, e.row), e.movement.value.entry)
                  && UpdateWalletAllowed(reserved, e.movement.value.wallet))
  {
    hide Inv, Fresh, EffectOf, Admissible, RowsOk, LedgerOk, OpeningsOk, UpdateWagerAllowed, InsertLedgerAllowed;
    hide WalletChecks, WagerChecks;
    var t := s.txs[n];
    assert TxOk(s.db, t, n) && Decided(t) && Inv(s.db);
    GoodParts(s.db);
    GoodLedger(s.db);
    hide SysOk, TxOk, Decided, Owns;
    var e := EffectOf(t, n);
    CommitAdmissible(s.db, t, n);
    CommitWrites(t, n);
    TxOwns(s.db, t, n);
    if Waiting(s.db, t.row.value) {
      WaitingIsNoOpening(s.db, t.row.value);
    }
    EnqueueAllowed(s.db, e, n);
    if e.movement.Some? {
      MovesKnownWallet(s.db, e, n);
      LedgerInsertAllowed(s.db, e, n, t.row.value);
      WalletUpdateAllowed(s.db, e, n);
    }
    WagerUpdateAllowed(s.db, e, n, t.row.value);
  }

  // ---------- commits against atomic steps ----------

  /** The reference was missing or undecided when it was read, and can be decided by now. */
  ghost predicate Stale(db: Db, t: Tx)
    requires t.row.Some?
  {
    var now := ReferenceOf(db, t.row.value);
    && now.Some? && Decidable(t.row.value, now.value)
    && !(t.reference.Some? && t.reference.value.Some? && Decidable(t.row.value, t.reference.value.value))
  }

  /** A settled reference is found again, unchanged. */
  lemma FoundAgain(db: Db, t: Tx, n: nat)
    requires IdentitiesOk(db.wagers) && RowsOk(db) && TxOk(db, t, n) && t.row.Some?
    requires t.reference.Some? && t.reference.value.Some? && Decidable(t.row.value, t.reference.value.value)
    ensures ReferenceOf(db, t.row.value) == t.reference.value
  {
    var row := t.row.value;
    var r := t.reference.value.value;
    var visible := Visible(db, row);
    assert r.id in visible && visible[r.id] == r && IsExternal(r, row.order.providerId, row.order.referenceExternalId.value);
    var found := ReferenceOf(db, row);
    if found.Some? {
      var id :| id in visible && visible[id] == found.value
                && IsExternal(found.value, row.order.providerId, row.order.referenceExternalId.value);
      assert Collide(visible[id].order, r.order);
    }
  }

  /** Two undecided reads lead to the same decision. */
  lemma UndecidedAlike(t: Wager, a: Reads, b: Reads, now: int, context: Context, n: nat)
    requires a.wallet == b.wallet
    requires a.reference.Some? ==> !Decidable(t, a.reference.value)
    requires b.reference.Some? ==> !Decidable(t, b.reference.value)
    ensures DecideSubmission(t, a, now, context, n) == DecideSubmission(t, b, now, context, n)
  {
  }

  /** Decisions look at the slot only when the reversal is otherwise sound. */
  lemma SlotUnused(t: Wager, r: Reads, active: bool, now: int, context: Context, n: nat)
    requires r.reference.Some? && (!RequiresReference(t.order.kind) || ReversalFailure(t.order, r.reference.value).Some?)
    ensures DecideSubmission(t, r, now, context, n) == DecideSubmission(t, r.(active := active), now, context, n)
  {
  }

  /** What the transaction has read is what it would read now, for all that has settled. */
  lemma ReadsStillHold(db: Db, t: Tx, n: nat)
    requires Inv(db) && TxOk(db, t, n) && t.row.Some? && t.row.value.status.Pending?
    requires t.wallet.Some? && t.wallet.value.Some? && t.reference.Some?
    ensures var mine := ReadsOf(t); var atomic := ReadsFor(db, t.row.value);
            && mine.wallet == atomic.wallet && mine.reference == t.reference.value
            && atomic.reference == ReferenceOf(db, t.row.value)
            && (mine.reference.Some? && Decidable(t.row.value, mine.reference.value) ==>
                  && atomic.reference == mine.reference
                  && atomic.active == HasActiveReversal(db.wagers, mine.reference.value.id)
                  && (t.active.Some? ==> mine.active == atomic.active))
  {
    GoodParts(db);
    assert WalletCurrent(db, t) && SlotCurrent(db, t);
    assert !t.row.value.status.Processed? && t.row.value.id !in db.wagers;
    hide Inv, IdentitiesOk, RowsOk, HasActiveReversal, OpeningsOk;
    if t.reference.value.Some? && Decidable(t.row.value, t.reference.value.value) {
      FoundAgain(db, t, n);
      VisibleSlots(db, t.row.value, t.reference.value.value.id);
    }
  }

  lemma ReadsAreAtomic(db: Db, t: Tx, n: nat, now: int, context: Context)
    requires Inv(db) && TxOk(db, t, n) && t.row.Some? && !Stale(db, t) && t.row.value.status.Pending?
    requires t.wallet.Some? && t.wallet.value.Some? && ReferenceRead(t)
    ensures DecideSubmission(t.row.value, ReadsOf(t), now, context, n) ==
            DecideSubmission(t.row.value, ReadsFor(db, t.row.value), now, context, n)
  {
    hide Inv, TxOk, DecideSubmission, HasActiveReversal, ReferenceOf, NeedsSlot, ReadsFor;
    var row := t.row.value;
    var mine := ReadsOf(t);
    var atomic := ReadsFor(db, row);
    ReadsStillHold(db, t, n);
    if mine.reference.Some? && Decidable(row, mine.reference.value) {
      if !NeedsSlot(t) {
        DecidedWithoutSlot(t, now, context, n, atomic.active);
      } else {
        assert mine == atomic;
      }
    } else {
      UndecidedAlike(row, mine, atomic, now, context, n);
    }
  }

  lemma DecidedWithoutSlot(t: Tx, now: int, context: Context, n: nat, active: bool)
    requires t.row.Some? && t.reference.Some? && t.reference.value.Some? && !NeedsSlot(t)
    requires Decidable(t.row.value, t.reference.value.value) && t.row.value.status.Pending?
    ensures DecideSubmission(t.row.value, ReadsOf(t), now, context, n) ==
            DecideSubmission(t.row.value, ReadsOf(t).(active := active), now, context, n)
  {
    hide DecideSubmission;
    SlotUnused(t.row.value, ReadsOf(t), active, now, context, n);
  }

  /**
   * Each commit is the atomic submission on the state it commits to, in commit order; the one
   * exception is an operation whose reference settled between its read and its commit.
   */
  lemma SubmissionCommitsAtomically(s: Sys, n: nat)
    requires SysOk(s) && Enabled(s, Commit(n)) && s.txs[n].job.Submission?
    requires s.txs[n].wallet.value.Some? && !Stale(s.db, s.txs[n])
    ensures Next(s, Commit(n)).db == Submit(s.db, s.txs[n].job.command, s.txs[n].job.now, n).0
  {
    var t := s.txs[n];
    var row := t.row.value;
    var now := t.job.now;
    var context := ContextOf(t.job.command, now, n);
    assert Inv(s.db) && TxOk(s.db, t, n);
    assert row == Candidate(t.job.command, now, n) && IdentityFree(s.db.wagers, row);
    assert ReadsFor(s.db, row).wallet == t.wallet.value;
    hide SysOk, Inv, TxOk, DecideSubmission, Apply, IdentityFree, Submittable;
    if EndsOnWallet(row, t.wallet.value.value) {
      ReferenceUnused(row, ReadsOf(t), now, context, n);
      ReferenceUnused(row, ReadsFor(s.db, row), now, context, n);
    } else {
      ReadsAreAtomic(s.db, t, n, now, context);
    }
  }

  /** A reversal whose reference is undecided waits; one whose reference is decided never does. */
  lemma WaitsWhenUndecided(t: Wager, r: Reads, now: int, context: Context, n: nat)
    requires RequiresReference(t.order.kind) && r.wallet.Some? && !WalletMismatch(t, r.wallet.value)
    ensures DecideSubmission(t, r, now, context, n).row.status.PendingReference? <==>
            r.reference.None? || !Decidable(t, r.reference.value)
    ensures DecideSubmission(t, r, now, context, n).row.id == t.id
  {
  }

  predicate WalletMismatch(t: Wager, w: WalletRow) {
    w.playerId != t.order.playerId || w.balance.currency != t.order.money.currency
  }

  /**
   * The exact condition for a reversal: its commit is the atomic submission if and only if its
   * reference did not settle between its read and its commit. A stale one waits for the worker.
   */
  lemma ReversalCommitsAtomicallyIff(s: Sys, n: nat)
    requires SysOk(s) && Enabled(s, Commit(n)) && s.txs[n].job.Submission?
    requires s.txs[n].wallet.value.Some? && RequiresReference(s.txs[n].row.value.order.kind)
    requires !WalletMismatch(s.txs[n].row.value, s.txs[n].wallet.value.value)
    ensures Next(s, Commit(n)).db == Submit(s.db, s.txs[n].job.command, s.txs[n].job.now, n).0 <==>
            !Stale(s.db, s.txs[n])
  {
    hide Payload.PayloadHash, Inv, Fresh;
    var t := s.txs[n];
    if !Stale(s.db, t) {
      SubmissionCommitsAtomically(s, n);
    } else {
      var row := t.row.value;
      var context := ContextOf(t.job.command, t.job.now, n);
      assert TxOk(s.db, t, n);
      assert row == Candidate(t.job.command, t.job.now, n) && IdentityFree(s.db.wagers, row);
      assert ReadsFor(s.db, row).wallet == t.wallet.value;
      hide SysOk, TxOk, DecideSubmission, IdentityFree;
      WaitsWhenUndecided(row, ReadsOf(t), t.job.now, context, n);
      WaitsWhenUndecided(row, ReadsFor(s.db, row), t.job.now, context, n);
      assert Next(s, Commit(n)).db.wagers[row.id] != Submit(s.db, t.job.command, t.job.now, n).0.wagers[row.id];
    }
  }

  lemma TickSlotUnused(t: Wager, first: Option<Wager>, r: Reads, active: bool, now: int, jitter: Backoff.Jitter, n: nat)
    requires r.reference.Some? && (!RequiresReference(t.order.kind) || ReversalFailure(t.order, r.reference.value).Some?)
    ensures DecideTick(t, first, r, now, jitter, n) == DecideTick(t, first, r.(active := active), now, jitter, n)
  {
  }

  /** Once resolvable, what the first look saw no longer matters. */
  lemma FirstUnused(t: Wager, first: Option<Wager>, r: Reads, now: int, jitter: Backoff.Jitter, n: nat)
    requires Resolvable(r.reference)
    requires Resolvable(first) || Backoff.Exhausted(t.attempts, t.expiresAt, now)
    ensures DecideTick(t, first, r, now, jitter, n) == DecideTick(t, r.reference, r, now, jitter, n)
  {
  }

  lemma SettlementFacts(s: Sys, n: nat)
    requires SysOk(s) && n in s.txs && Decided(s.txs[n]) && s.txs[n].job.WorkerTick?
    requires s.txs[n].wallet.Some? && s.txs[n].wallet.value.Some?
    requires s.txs[n].reference.Some? && Resolvable(s.txs[n].reference.value)
    ensures var t := s.txs[n];
            && Due(s.db, t.job.id, t.job.at) && s.db.wagers[t.job.id] == t.row.value
            && !Interleaving.Reschedules(t) && ReferenceRead(t)
            && ReadsFor(s.db, t.row.value).wallet == t.wallet.value
            && ReadsFor(s.db, t.row.value).reference == t.reference.value
            && (NeedsSlot(t) ==> ReadsFor(s.db, t.row.value) == ReadsOf(t))
  {
    var t := s.txs[n];
    assert Inv(s.db) && TxOk(s.db, t, n);
    FoundAgain(s.db, t, n);
    VisibleSlots(s.db, t.row.value, t.reference.value.value.id);
    hide Inv, SysOk, Fresh;
  }

  lemma CommitIs(s: Sys, n: nat)
    requires Enabled(s, Commit(n))
    ensures n in s.txs && Decided(s.txs[n]) && Next(s, Commit(n)).db == Apply(s.db, EffectOf(s.txs[n], n))
  {
  }

  lemma SettlementDecidesAlike(s: Sys, n: nat)
    requires SysOk(s) && n in s.txs && Decided(s.txs[n]) && s.txs[n].job.WorkerTick?
    requires s.txs[n].wallet.Some? && s.txs[n].wallet.value.Some?
    requires s.txs[n].reference.Some? && Resolvable(s.txs[n].reference.value)
    ensures var t := s.txs[n];
            Due(s.db, t.job.id, t.job.at) && EffectOf(t, n) == TickEffect(s.db, t.job.id, t.job.at, t.job.jitter, n)
  {
    var t := s.txs[n];
    var row := t.row.value;
    var atomic := ReadsFor(s.db, row);
    SettlementFacts(s, n);
    hide SysOk, DecideTick, Due, ReadsFor, NeedsSlot, Inv, TxOk, Decided;
    if !NeedsSlot(t) {
      SlotNotNeeded(t);
      TickSlotUnused(row, t.first.value, ReadsOf(t), atomic.active, t.job.at, t.job.jitter, n);
    }
    FirstUnused(row, t.first.value, atomic, t.job.at, t.job.jitter, n);
  }

  /** A tick that settles a resolvable reference is the atomic tick on the state it commits to. */
  lemma SettlementCommitsAtomically(s: Sys, n: nat)
    requires SysOk(s) && Enabled(s, Commit(n)) && s.txs[n].job.WorkerTick?
    requires s.txs[n].wallet.Some? && s.txs[n].wallet.value.Some?
    requires s.txs[n].reference.Some? && Resolvable(s.txs[n].reference.value)
    ensures Next(s, Commit(n)).db == Tick(s.db, s.txs[n].job.id, s.txs[n].job.at, s.txs[n].job.jitter, n)
  {
    hide SysOk, EffectOf, TickEffect, Apply, Due, Next, Decided, Enabled;
    CommitIs(s, n);
    SettlementDecidesAlike(s, n);
  }

  lemma SlotNotNeeded(t: Tx)
    requires t.row.Some? && t.reference.Some? && Resolvable(t.reference.value) && !NeedsSlot(t)
    ensures !RequiresReference(t.row.value.order.kind)
            || ReversalFailure(t.row.value.order, t.reference.value.value).Some?
  {
  }
}
