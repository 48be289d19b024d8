/**
 * The histories of interleavings: rows only settle, a won key stays won, every pending settles,
 * and transactions that never commit, duplicates among them, leave no trace.
 */
module Histories {
  import opened Wrappers
  import opened Domain
  import opened Store
  import opened Decisions
  import opened Invariants
  import opened Commits
  import opened Machine
  import opened Lookups
  import opened Idempotency
  import opened Interleaving
  import opened Serialization
  import opened Settling
  import opened Theorems
  import opened Staleness
  import Payload

  lemma SysIsGood(s: Sys)
    requires SysOk(s)
    ensures Inv(s.db)
  {
  }

  // ---------- append-only ----------

  lemma NextExtends(s: Sys, move: Move)
    requires SysOk(s) && Enabled(s, move)
    ensures Extends(s.db, Next(s, move).db)
  {
    hide Inv, TxOk, Fresh, EffectOf, Apply, Admissible, CreateWallet, Decided;
    if move.Commit? {
      CommitHolds(s, move.n);
      CommitAdmissible(s.db, s.txs[move.n], move.n);
      ApplyExtends(s.db, EffectOf(s.txs[move.n], move.n), move.n);
    } else if move.OpenWallet? {
      CreateExtends(s.db, move.create, move.openedAt, move.n);
    }
  }

  /** In every interleaving rows stay, keep their orders, and never change once terminal. */
  lemma {:induction false} InterleavingIsAppendOnly(s: Sys, moves: seq<Move>, end: Sys)
    requires SysOk(s) && Reaches(s, moves, end)
    ensures SysOk(end) && Extends(s.db, end.db)
    decreases |moves|
  {
    if moves != [] {
      hide SysOk, Enabled, Next;
      NextKeepsOk(s, moves[0]);
      NextExtends(s, moves[0]);
      InterleavingIsAppendOnly(Next(s, moves[0]), moves[1..], end);
    }
  }

  /**
   * After a key is won, every later submission under it, in any interleaving, writes nothing: it
   * is answered from the row if its business payload is the same, refused if not, and a
   * transaction that tries to reserve it ends there.
   */
  lemma OneKeyOneOperation(
    s: Sys, moves: seq<Move>, end: Sys, id: Id, c: Command, now: int, d: Command, later: int, m: nat)
    requires SysOk(s) && Reaches(s, moves, end) && SubmitFailure(c).None? && SubmitFailure(d).None?
    requires id in s.db.wagers && s.db.wagers[id].order == OrderOf(c, now)
    requires d.providerId == c.providerId && d.idempotencyKey == c.idempotencyKey
    ensures id in end.db.wagers
    ensures Submit(end.db, d, later, m) ==
            (end.db, if SameBusiness(d, c) then Success(ResultOf(end.db.wagers[id], true))
                     else Failure(IdempotencyKeyConflict(id)))
    ensures Enabled(end, TakeRow(m)) && end.txs[m].job == Submission(d, later) ==>
              Next(end, TakeRow(m)) == end.(txs := Without(end.txs, m))
    ensures IsTerminal(s.db.wagers[id].status) ==> end.db.wagers[id] == s.db.wagers[id]
  {
    hide SysOk, Reaches, Submit, RowAvailable, Next, Payload.PayloadHash, Inv, IdentityFree;
    InterleavingIsAppendOnly(s, moves, end);
    SysIsGood(end);
    KeyIsTaken(end.db, id, c, now, d, later, m);
    if Enabled(end, TakeRow(m)) && end.txs[m].job == Submission(d, later) {
      TakenReserveFails(end, m);
    }
  }

  lemma KeyIsTaken(db: Db, id: Id, c: Command, now: int, d: Command, later: int, m: nat)
    requires Inv(db) && SubmitFailure(c).None? && SubmitFailure(d).None?
    requires id in db.wagers && db.wagers[id].order == OrderOf(c, now)
    requires d.providerId == c.providerId && d.idempotencyKey == c.idempotencyKey
    ensures !IdentityFree(db.wagers, Candidate(d, later, m))
    ensures Submit(db, d, later, m) ==
            (db, if SameBusiness(d, c) then Success(ResultOf(db.wagers[id], true))
                 else Failure(IdempotencyKeyConflict(id)))
  {
    hide Payload.PayloadHash, Inv, IdentityFree, SubmissionEffect;
    KeyTakenByWinner(db, id, c, now, d, later, m);
    HashTellsBusiness(c, d, now, later);
  }

  lemma TakenReserveFails(s: Sys, m: nat)
    requires Enabled(s, TakeRow(m)) && s.txs[m].job.Submission?
    requires !IdentityFree(s.db.wagers, Candidate(s.txs[m].job.command, s.txs[m].job.now, m))
    ensures Next(s, TakeRow(m)) == s.(txs := Without(s.txs, m))
  {
    hide IdentityFree, RowAvailable, Payload.PayloadHash;
  }

  // ---------- every pending settles ----------

  /** How many worker ticks on the row an interleaving commits. */
  ghost function TicksCommitted(s: Sys, moves: seq<Move>, id: Id): nat
    decreases |moves|
  {
    if moves == [] || !Enabled(s, moves[0]) then 0
    else (if TickOf(s, moves[0], id) then 1 else 0) + TicksCommitted(Next(s, moves[0]), moves[1..], id)
  }

  predicate TickOf(s: Sys, move: Move, id: Id) {
    && move.Commit? && move.n in s.txs && s.txs[move.n].job.WorkerTick?
    && s.txs[move.n].row.Some? && s.txs[move.n].row.value.id == id
  }

  /** A commit on a waiting row settles it, or counts one attempt; any other leaves it alone. */
  lemma CommitUsesTick(db: Db, t: Tx, n: nat, id: Id)
    requires Inv(db) && TxOk(db, t, n) && Decided(t) && id in db.wagers
    ensures var after := Apply(db, EffectOf(t, n));
            && id in after.wagers
            && (if t.row.value.id != id then after.wagers[id] == db.wagers[id]
                else
                  && db.wagers[id].status.PendingReference?
                  && (IsTerminal(after.wagers[id].status)
                      || (t.job.WorkerTick? && after.wagers[id].status.PendingReference?
                          && after.wagers[id].attempts == db.wagers[id].attempts + 1)))
  {
    hide Inv, Fresh, DecideSubmission, DecideTick, DecideFailure;
    CommitWrites(t, n);
    if t.row.value.id == id {
      match t.job
      case Submission(_, _) => FreshIsUnused(db, n);
      case WorkerTick(_, at, jitter) =>
        WaitingWallet(db, t.row.value);
        TickEndsOrCounts(t.row.value, t.first.value, ReadsOf(t), at, jitter, n);
      case FailureRecord(_, at) => FailedIsTerminal(t.row.value, t.wallet.value.value, at, n);
    }
  }

  lemma FailedIsTerminal(t: Wager, w: WalletRow, at: int, n: nat)
    ensures IsTerminal(DecideFailure(t, w, at, n).row.status)
  {
  }

  lemma NextUsesTick(s: Sys, move: Move, id: Id)
    requires SysOk(s) && Enabled(s, move) && id in s.db.wagers
    ensures id in Next(s, move).db.wagers && 0 <= TicksLeft(Next(s, move).db.wagers[id])
    ensures TicksLeft(Next(s, move).db.wagers[id]) + (if TickOf(s, move, id) then 1 else 0) <= TicksLeft(s.db.wagers[id])
  {
    hide SysOk, Inv, TxOk, Fresh, EffectOf, Apply, CreateWallet, Decided, Enabled;
    NextKeepsOk(s, move);
    NextExtends(s, move);
    SysIsGood(s);
    SysIsGood(Next(s, move));
    AttemptsBounded(s.db, id);
    AttemptsBounded(Next(s, move).db, id);
    NextOnRow(s, move, id);
  }

  /** What a move does to a row: nothing, the end of its wait, or one attempt more; a tick does something. */
  lemma NextOnRow(s: Sys, move: Move, id: Id)
    requires SysOk(s) && Enabled(s, move) && id in s.db.wagers
    ensures var after := Next(s, move).db.wagers;
            && id in after
            && (if after[id] == s.db.wagers[id] then !TickOf(s, move, id)
                else
                  && s.db.wagers[id].status.PendingReference?
                  && (IsTerminal(after[id].status)
                      || (after[id].status.PendingReference? && after[id].attempts == s.db.wagers[id].attempts + 1)))
  {
    hide SysOk, Inv, TxOk, Fresh, EffectOf, Apply, CreateWallet, Decided;
    SysIsGood(s);
    if move.Commit? {
      CommitHolds(s, move.n);
      CommitUsesTick(s.db, s.txs[move.n], move.n, id);
    } else if move.OpenWallet? {
      FreshIsUnused(s.db, move.n);
      CreateWritesNew(s.db, move.create, move.openedAt, move.n);
    }
  }

  /**
   * Whatever runs beside it, and whatever the clocks and the jitter: a pending reference takes at
   * most ninety-six committed ticks, and when it has taken them it is settled.
   */
  lemma {:induction false} EveryPendingSettles(s: Sys, moves: seq<Move>, end: Sys, id: Id)
    requires SysOk(s) && Reaches(s, moves, end) && id in s.db.wagers
    ensures id in end.db.wagers
    ensures TicksCommitted(s, moves, id) + TicksLeft(end.db.wagers[id]) <= TicksLeft(s.db.wagers[id]) <= 96
    ensures TicksCommitted(s, moves, id) == TicksLeft(s.db.wagers[id]) ==> IsTerminal(end.db.wagers[id].status)
    decreases |moves|
  {
    InterleavingIsAppendOnly(s, moves, end);
    assert Inv(s.db) && Inv(end.db);
    hide SysOk, Inv, Enabled, Next;
    AttemptsBounded(s.db, id);
    if moves != [] {
      NextKeepsOk(s, moves[0]);
      NextUsesTick(s, moves[0], id);
      EveryPendingSettles(Next(s, moves[0]), moves[1..], end, id);
    }
    NotPending(end.db, id);
  }

  // ---------- duplicates leave no trace ----------

  /** What is left when only the transactions of `keep` run. */
  function Only(s: Sys, keep: set<nat>): Sys {
    s.(txs := map m | m in s.txs && m in keep :: s.txs[m])
  }

  function MovesOf(moves: seq<Move>, keep: set<nat>): seq<Move> {
    if moves == [] then []
    else (if moves[0].n in keep then [moves[0]] else []) + MovesOf(moves[1..], keep)
  }

  /** Whoever commits, or opens a wallet, is kept. */
  predicate KeepsWriters(moves: seq<Move>, keep: set<nat>) {
    forall i :: 0 <= i < |moves| && (moves[i].Commit? || moves[i].OpenWallet?) ==> moves[i].n in keep
  }

  lemma KeptMove(s: Sys, move: Move, keep: set<nat>)
    requires Enabled(s, move) && move.n in keep
    ensures Enabled(Only(s, keep), move) && Next(Only(s, keep), move) == Only(Next(s, move), keep)
  {
    hide Fresh, Decided, EffectOf, Apply, CreateWallet, ReferenceOf, WalletOf, HasActiveReversal, NeedsSlot, IdentityFree;
    hide Interleaving.Reschedules, Blocks, HoldsRow, HoldsWallet, Due, Payload.PayloadHash;
    var s' := Only(s, keep);
    assert s'.db == s.db && forall m :: m in s'.txs <==> m in s.txs && m in keep;
    assert move.n in s.txs ==> s'.txs[move.n] == s.txs[move.n];
    assert Enabled(s', move);
    assert Next(s', move).txs == Only(Next(s, move), keep).txs;
  }

  lemma DroppedMove(s: Sys, move: Move, keep: set<nat>)
    requires Enabled(s, move) && move.n !in keep && !move.Commit? && !move.OpenWallet?
    ensures Only(Next(s, move), keep) == Only(s, keep)
  {
    hide Fresh, Decided, ReferenceOf, WalletOf, HasActiveReversal, IdentityFree, RowAvailable;
    assert Only(Next(s, move), keep).txs == Only(s, keep).txs;
  }

  /**
   * Transactions that never commit leave no trace: without them the same commits, in the same
   * order, reach the same tables.
   */
  lemma {:induction false} LosersLeaveNoTrace(s: Sys, moves: seq<Move>, end: Sys, keep: set<nat>)
    requires Reaches(s, moves, end) && KeepsWriters(moves, keep)
    ensures Reaches(Only(s, keep), MovesOf(moves, keep), Only(end, keep)) && Only(end, keep).db == end.db
    decreases |moves|
  {
    if moves != [] {
      hide Enabled, Next;
      LosersLeaveNoTrace(Next(s, moves[0]), moves[1..], end, keep);
      if moves[0].n in keep {
        KeptMove(s, moves[0], keep);
        FirstMove(Only(s, keep), moves[0], MovesOf(moves[1..], keep), Only(end, keep));
      } else {
        DroppedMove(s, moves[0], keep);
        assert [] + MovesOf(moves[1..], keep) == MovesOf(moves[1..], keep);
      }
    }
  }

  /** And a duplicate is one of them: whoever commits a submission was the first under its identities. */
  lemma CommitsAreNew(s: Sys, n: nat)
    requires SysOk(s) && Enabled(s, Commit(n)) && s.txs[n].job.Submission?
    ensures SubmitFailure(s.txs[n].job.command).None?
    ensures IdentityFree(s.db.wagers, Candidate(s.txs[n].job.command, s.txs[n].job.now, n))
    ensures !IdentityFree(Next(s, Commit(n)).db.wagers, Candidate(s.txs[n].job.command, s.txs[n].job.now, n))
  {
    hide Inv, Fresh, EffectOf, Apply;
    CommitHolds(s, n);
    CommitWrites(s.txs[n], n);
    hide SysOk;
    AppliedIsTaken(s.db, EffectOf(s.txs[n], n), s.txs[n].row.value);
  }

  lemma AppliedIsTaken(db: Db, e: Effect, t: Wager)
    requires e.row.order == t.order
    ensures !IdentityFree(Apply(db, e).wagers, t)
  {
    assert SameKey(Apply(db, e).wagers[e.row.id].order, t.order);
  }
}
