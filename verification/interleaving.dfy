/**
 * The use cases split at their database statements. Any number of transactions interleave at
 * READ COMMITTED: each read sees the last commit and the transaction's own row, the wallet is
 * written blindly, and only the wallet row lock, the lock on a waiting row and the unique
 * identities keep transactions apart.
 */
module Interleaving {
  import opened Wrappers
  import opened Domain
  import opened Store
  import opened Decisions
  import opened Invariants
  import opened Preservation
  import opened Commits
  import opened Machine
  import opened Runs
  import opened Idempotency
  import Backoff

  datatype Job =
    | Submission(command: Command, now: int)
    | WorkerTick(id: Id, at: int, jitter: Backoff.Jitter)
    | FailureRecord(failed: Id, failedAt: int)

  /** A transaction in flight: the row it owns, then what it has read so far, in statement order. */
  datatype Tx = Tx(
    job: Job,
    row: Option<Wager>,
    first: Option<Option<Wager>>,
    wallet: Option<Option<WalletRow>>,
    reference: Option<Option<Wager>>,
    active: Option<bool>)

  datatype Sys = Sys(db: Db, txs: map<nat, Tx>)

  datatype Move =
    | Begin(n: nat, job: Job)
    | TakeRow(n: nat)        // reserve, lockDuePendingReference, lockById
    | ReadFirst(n: nat)      // the worker's look without the wallet lock
    | LockWallet(n: nat)
    | ReadReference(n: nat)
    | ReadSlot(n: nat)       // hasActiveReversal
    | Commit(n: nat)
    | Abort(n: nat)          // lock timeout, deadlock, crash
    | OpenWallet(n: nat, create: CreateCommand, openedAt: int)

  // ---------- locks, as the transactions hold them ----------

  predicate HoldsWallet(t: Tx, w: Id) {
    t.row.Some? && t.wallet.Some? && t.wallet.value.Some? && t.row.value.order.walletId == w
  }

  predicate HoldsRow(t: Tx, id: Id) {
    t.row.Some? && t.row.value.id == id
  }

  /** A concurrent insert under the same identity blocks until the first one ends. */
  predicate Blocks(t: Tx, o: Order) {
    t.row.Some? && t.job.Submission? && Collide(t.row.value.order, o)
  }

  // ---------- decisions from what has been read ----------

  predicate NeedsReference(o: Order) {
    RequiresReference(o.kind) || (o.kind.Win? && o.referenceExternalId.Some?)
  }

  predicate NeedsSlot(t: Tx)
    requires t.row.Some? && t.reference.Some?
  {
    && RequiresReference(t.row.value.order.kind) && Resolvable(t.reference.value)
    && ReversalFailure(t.row.value.order, t.reference.value.value).None?
  }

  /** The submission ends on the wallet alone. */
  predicate EndsOnWallet(t: Wager, w: WalletRow) {
    w.playerId != t.order.playerId || w.balance.currency != t.order.money.currency || !NeedsReference(t.order)
  }

  predicate ReferenceRead(t: Tx)
    requires t.row.Some?
  {
    t.reference.Some? && (NeedsSlot(t) ==> t.active.Some?)
  }

  predicate Reschedules(t: Tx)
    requires t.row.Some? && t.first.Some? && t.job.WorkerTick?
  {
    !Resolvable(t.first.value) && !Backoff.Exhausted(t.row.value.attempts, t.row.value.expiresAt, t.job.at)
  }

  /** Every statement the source issues before its writes has been issued. */
  predicate Decided(t: Tx) {
    && t.row.Some?
    && match t.job
       case Submission(_, _) =>
         t.wallet.Some? && (t.wallet.value.None? || EndsOnWallet(t.row.value, t.wallet.value.value) || ReferenceRead(t))
       case WorkerTick(_, _, _) =>
         t.first.Some? && (Reschedules(t) || (t.wallet.Some? && (t.wallet.value.None? || ReferenceRead(t))))
       case FailureRecord(_, _) => t.wallet.Some? && t.wallet.value.Some?
  }

  function ReadsOf(t: Tx): Reads {
    Reads(if t.wallet.Some? then t.wallet.value else None,
          if t.reference.Some? then t.reference.value else None,
          t.active == Some(true))
  }

  function EffectOf(t: Tx, n: nat): Effect
    requires Decided(t)
  {
    match t.job
    case Submission(c, now) => DecideSubmission(t.row.value, ReadsOf(t), now, ContextOf(c, now, n), n)
    case WorkerTick(_, now, jitter) => DecideTick(t.row.value, t.first.value, ReadsOf(t), now, jitter, n)
    case FailureRecord(_, now) => DecideFailure(t.row.value, t.wallet.value.value, now, n)
  }

  // ---------- steps ----------

  ghost predicate RowAvailable(s: Sys, n: nat)
    requires n in s.txs
  {
    match s.txs[n].job
    case Submission(c, now) =>
      SubmitFailure(c).None? && forall m :: m in s.txs && m != n ==> !Blocks(s.txs[m], OrderOf(c, now))
    case WorkerTick(id, now, _) =>
      Due(s.db, id, now) && forall m :: m in s.txs && m != n ==> !HoldsRow(s.txs[m], id)
    case FailureRecord(id, _) =>
      && id in s.db.wagers && s.db.wagers[id].status.PendingReference?
      && forall m :: m in s.txs && m != n ==> !HoldsRow(s.txs[m], id)
  }

  ghost predicate Enabled(s: Sys, move: Move) {
    match move
    case Begin(n, _) => n !in s.txs && Fresh(s.db, n)
    case TakeRow(n) => n in s.txs && s.txs[n].row.None? && RowAvailable(s, n)
    case ReadFirst(n) => n in s.txs && s.txs[n].row.Some? && s.txs[n].job.WorkerTick? && s.txs[n].first.None?
    case LockWallet(n) =>
      && n in s.txs && s.txs[n].row.Some? && s.txs[n].wallet.None?
      && (s.txs[n].job.WorkerTick? ==> s.txs[n].first.Some? && !Reschedules(s.txs[n]))
      && forall m :: m in s.txs && m != n ==> !HoldsWallet(s.txs[m], s.txs[n].row.value.order.walletId)
    case ReadReference(n) =>
      n in s.txs && s.txs[n].row.Some? && s.txs[n].wallet.Some? && s.txs[n].wallet.value.Some?
      && s.txs[n].reference.None?
    case ReadSlot(n) =>
      n in s.txs && s.txs[n].row.Some? && s.txs[n].wallet.Some? && s.txs[n].wallet.value.Some?
      && s.txs[n].reference.Some? && NeedsSlot(s.txs[n]) && s.txs[n].active.None?
    case Commit(n) => n in s.txs && Decided(s.txs[n])
    case Abort(n) => n in s.txs
    case OpenWallet(n, _, _) => n !in s.txs && Fresh(s.db, n)
  }

  function Without(txs: map<nat, Tx>, n: nat): map<nat, Tx> {
    map m | m in txs && m != n :: txs[m]
  }

  function With(s: Sys, n: nat, t: Tx): Sys {
    s.(txs := s.txs[n := t])
  }

  /** A reservation that loses writes nothing: the transaction only answers from what exists. */
  ghost function Taken(s: Sys, n: nat): Sys
    requires n in s.txs && RowAvailable(s, n)
  {
    var t := s.txs[n];
    match t.job
    case Submission(c, now) =>
      if IdentityFree(s.db.wagers, Candidate(c, now, n)) then With(s, n, t.(row := Some(Candidate(c, now, n))))
      else s.(txs := Without(s.txs, n))
    case WorkerTick(id, _, _) => With(s, n, t.(row := Some(s.db.wagers[id])))
    case FailureRecord(id, _) => With(s, n, t.(row := Some(s.db.wagers[id])))
  }

  ghost function Next(s: Sys, move: Move): Sys
    requires Enabled(s, move)
  {
    match move
    case Begin(n, job) => With(s, n, Tx(job, None, None, None, None, None))
    case TakeRow(n) => Taken(s, n)
    case ReadFirst(n) => With(s, n, s.txs[n].(first := Some(ReferenceOf(s.db, s.txs[n].row.value))))
    case LockWallet(n) => With(s, n, s.txs[n].(wallet := Some(WalletOf(s.db, s.txs[n].row.value))))
    case ReadReference(n) => With(s, n, s.txs[n].(reference := Some(ReferenceOf(s.db, s.txs[n].row.value))))
    case ReadSlot(n) =>
      var visible := Visible(s.db, s.txs[n].row.value);
      With(s, n, s.txs[n].(active := Some(HasActiveReversal(visible, s.txs[n].reference.value.value.id))))
    case Commit(n) => Sys(Apply(s.db, EffectOf(s.txs[n], n)), Without(s.txs, n))
    case Abort(n) => s.(txs := Without(s.txs, n))
    case OpenWallet(n, c, now) => s.(db := CreateWallet(s.db, c, now, n).0)
  }

  // ---------- the invariant ----------

  /** The row is still ours to decide: no commit has taken its identity or settled it. */
  ghost predicate RowOk(db: Db, t: Tx, n: nat)
    requires t.row.Some?
  {
    var row := t.row.value;
    match t.job
    case Submission(c, now) => row == Candidate(c, now, n) && SubmitFailure(c).None? && Won(db, row, n)
    case WorkerTick(id, now, _) =>
      Waiting(db, row) && row.id == id && row.nextAttemptAt.Some? && row.nextAttemptAt.value <= now
    case FailureRecord(id, _) => Waiting(db, row) && row.id == id
  }

  /** No lost update: the wallet in memory is the committed row for as long as it is held. */
  predicate WalletCurrent(db: Db, t: Tx)
    requires t.row.Some?
  {
    t.wallet.Some? && t.wallet.value.Some? ==>
      t.row.value.order.walletId in db.wallets && db.wallets[t.row.value.order.walletId] == t.wallet.value.value
  }

  /** A reference read as settled is the committed row; one read as unsettled may be stale. */
  ghost predicate ReferenceCurrent(db: Db, t: Tx)
    requires t.row.Some?
  {
    t.reference.Some? && t.reference.value.Some? ==>
      var r := t.reference.value.value;
      && ReferencesExternal(t.row.value.order, r)
      && (r.id == t.row.value.id ==> r == t.row.value)
      && (IsTerminal(r.status) ==> r.id in db.wagers && db.wagers[r.id] == r)
  }

  ghost predicate SlotCurrent(db: Db, t: Tx)
    requires t.row.Some?
  {
    t.active.Some? ==>
      && t.wallet.Some? && t.wallet.value.Some? && t.reference.Some? && NeedsSlot(t)
      && t.active.value == HasActiveReversal(db.wagers, t.reference.value.value.id)
  }

  /** The worker takes the wallet lock only to settle, and reads on only under it. */
  predicate StepsInOrder(t: Tx) {
    && (t.row.None? ==> t.first.None? && t.wallet.None? && t.reference.None? && t.active.None?)
    && (t.reference.Some? ==> t.wallet.Some?)
    && (t.row.Some? && t.job.WorkerTick? && t.wallet.Some? ==> t.first.Some? && !Reschedules(t))
  }

  ghost predicate TxOk(db: Db, t: Tx, n: nat) {
    && Fresh(db, n)
    && StepsInOrder(t)
    && (t.row.Some? ==> RowOk(db, t, n) && WalletCurrent(db, t) && ReferenceCurrent(db, t) && SlotCurrent(db, t))
  }

  ghost predicate Apart(a: Tx, b: Tx) {
    && (a.row.Some? ==> !Blocks(b, a.row.value.order) || !a.job.Submission?)
    && (a.row.Some? ==> !HoldsRow(b, a.row.value.id))
    && (a.row.Some? && HoldsWallet(a, a.row.value.order.walletId) ==> !HoldsWallet(b, a.row.value.order.walletId))
  }

  ghost predicate SysOk(s: Sys) {
    && Inv(s.db)
    && (forall n :: n in s.txs ==> TxOk(s.db, s.txs[n], n))
    && (forall m, n :: m in s.txs && n in s.txs && m != n ==> Apart(s.txs[m], s.txs[n]))
  }
}
