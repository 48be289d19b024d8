/** Interleavings against serial runs: the commits, in their order, as one run of atomic operations. */
module SerialOrder {
  import opened Store
  import opened Machine
  import opened Interleaving
  import opened Serialization
  import opened Staleness

  /** The atomic operation a move stands for, if it is one that writes. */
  function OpOf(s: Sys, move: Move): seq<Op> {
    match move
    case Commit(n) =>
      if n !in s.txs then []
      else
        [Op(n, match s.txs[n].job
               case Submission(c, now) => Submits(c, now)
               case WorkerTick(id, at, jitter) => Ticks(id, at, jitter)
               case FailureRecord(id, at) => Fails(id, at))]
    case OpenWallet(n, c, now) => [Op(n, Creates(c, now))]
    case _ => []
  }

  /** The operations of an interleaving, in commit order. */
  ghost function Serial(s: Sys, moves: seq<Move>): seq<Op>
    decreases |moves|
  {
    if moves == [] || !Enabled(s, moves[0]) then []
    else OpOf(s, moves[0]) + Serial(Next(s, moves[0]), moves[1..])
  }

  /** Nothing that the transaction has missed matters to its commit. */
  ghost predicate AsNow(db: Db, t: Tx)
    requires Decided(t)
  {
    match t.job
    case Submission(_, _) => CommitsAsNow(db, t)
    case WorkerTick(_, _, _) => TicksAsNow(db, t)
    case FailureRecord(_, _) => true
  }

  ghost predicate AllAsNow(s: Sys, moves: seq<Move>)
    decreases |moves|
  {
    moves != [] && Enabled(s, moves[0]) ==>
      && (moves[0].Commit? ==> AsNow(s.db, s.txs[moves[0].n]))
      && AllAsNow(Next(s, moves[0]), moves[1..])
  }

  /** After every move, the tables are those of the serial run so far. */
  ghost predicate SerialSoFar(s: Sys, moves: seq<Move>, serial: Db)
    decreases |moves|
  {
    && s.db == serial
    && (moves != [] && Enabled(s, moves[0]) ==>
          SerialSoFar(Next(s, moves[0]), moves[1..], Run(serial, OpOf(s, moves[0]))))
  }

  lemma RunOne(db: Db, op: Op)
    ensures Run(db, [op]) == Step(db, op)
  {
    hide Step;
    assert [op][1..] == [];
    assert Run(Step(db, op), []) == Step(db, op);
  }

  lemma {:induction false} RunJoin(db: Db, a: seq<Op>, b: seq<Op>)
    ensures Run(db, a + b) == Run(Run(db, a), b)
    decreases |a|
  {
    hide Step;
    if a == [] {
      assert a + b == b;
    } else {
      assert (a + b)[1..] == a[1..] + b;
      RunJoin(Step(db, a[0]), a[1..], b);
    }
  }

  lemma CommitIsStepIff(s: Sys, n: nat)
    requires SysOk(s) && Enabled(s, Commit(n))
    ensures Next(s, Commit(n)).db == Run(s.db, OpOf(s, Commit(n))) <==> AsNow(s.db, s.txs[n])
  {
    hide SysOk, Next, CommitsAsNow, TicksAsNow, Run, Submit, Tick, RecordFailure;
    RunOne(s.db, OpOf(s, Commit(n))[0]);
    match s.txs[n].job
    case Submission(_, _) => SubmissionCommitsAtomicallyIff(s, n);
    case WorkerTick(_, _, _) => TickCommitsAtomicallyIff(s, n);
    case FailureRecord(_, _) => FailureCommitsAtomically(s, n);
  }

  /** One move against its atomic operation. */
  lemma MoveIsStepIff(s: Sys, move: Move)
    requires SysOk(s) && Enabled(s, move)
    ensures Next(s, move).db == Run(s.db, OpOf(s, move)) <==> (move.Commit? ==> AsNow(s.db, s.txs[move.n]))
  {
    if move.Commit? {
      hide SysOk, Next, AsNow, Run;
      CommitIsStepIff(s, move.n);
    } else if move.OpenWallet? {
      hide SysOk, CreateWallet, Run;
      RunOne(s.db, OpOf(s, move)[0]);
    } else {
      hide SysOk, Fresh, RowAvailable;
    }
  }

  /**
   * Serializability in commit order: an interleaving goes through the tables of the serial run of
   * its commits, one after the other, if and only if no commit has missed anything that matters.
   */
  lemma {:induction false} SerialIff(s: Sys, moves: seq<Move>, end: Sys)
    requires SysOk(s) && Reaches(s, moves, end)
    ensures SerialSoFar(s, moves, s.db) <==> AllAsNow(s, moves)
    ensures AllAsNow(s, moves) ==> end.db == Run(s.db, Serial(s, moves))
    decreases |moves|
  {
    if moves != [] {
      hide SysOk, Enabled, Next, AsNow, OpOf;
      var next := Next(s, moves[0]);
      MoveIsStepIff(s, moves[0]);
      NextKeepsOk(s, moves[0]);
      SerialIff(next, moves[1..], end);
      RunJoin(s.db, OpOf(s, moves[0]), Serial(next, moves[1..]));
    }
  }

  ghost predicate AllHome(s: Sys, moves: seq<Move>)
    decreases |moves|
  {
    moves != [] && Enabled(s, moves[0]) ==>
      && (moves[0].Commit? ==> Home(s.db, s.txs[moves[0].n]))
      && AllHome(Next(s, moves[0]), moves[1..])
  }

  /** A submission that finds its wallet and refers to operations of that wallet only, or a tick that is as now. */
  ghost predicate Home(db: Db, t: Tx)
    requires Decided(t)
  {
    match t.job
    case Submission(_, _) => t.wallet.value.Some? && RefersHome(db, t.row.value.order)
    case WorkerTick(_, _, _) => TicksAsNow(db, t)
    case FailureRecord(_, _) => true
  }

  lemma HomeIsAsNow(s: Sys, n: nat)
    requires SysOk(s) && AbroadOk(s) && Enabled(s, Commit(n)) && Home(s.db, s.txs[n])
    ensures AsNow(s.db, s.txs[n])
  {
    hide SysOk, AbroadOk, RefersHome, CommitsAsNow, TicksAsNow;
    if s.txs[n].job.Submission? {
      HomeCommitsAsNow(s, n);
    }
  }

  lemma {:induction false} AllHomeIsAsNow(s: Sys, moves: seq<Move>, end: Sys)
    requires SysOk(s) && AbroadOk(s) && Reaches(s, moves, end) && AllHome(s, moves)
    ensures AllAsNow(s, moves)
    decreases |moves|
  {
    if moves != [] {
      hide SysOk, AbroadOk, Enabled, Next, AsNow, Home;
      if moves[0].Commit? {
        HomeIsAsNow(s, moves[0].n);
      }
      NextKeepsOk(s, moves[0]);
      NextKeepsAbroad(s, moves[0]);
      AllHomeIsAsNow(Next(s, moves[0]), moves[1..], end);
    }
  }

  /**
   * While references stay on their wallets and every tick is as now, an interleaving leaves the
   * tables of the serial run of its commits, however the statements interleave.
   */
  lemma HomeTrafficIsSerializable(moves: seq<Move>, end: Sys)
    requires Reaches(Start(), moves, end) && AllHome(Start(), moves)
    ensures end.db == Run(Empty(), Serial(Start(), moves))
  {
    StartIsOk();
    AllHomeIsAsNow(Start(), moves, end);
    SerialIff(Start(), moves, end);
  }
}
