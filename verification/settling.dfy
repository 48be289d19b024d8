/** Every waiting reversal settles: the retry clock of module Backoff, read off whole runs of the service. */
module Settling {
  import opened Wrappers
  import opened Domain
  import opened Store
  import opened Decisions
  import opened Invariants
  import opened Machine
  import opened Runs
  import opened Idempotency
  import opened Lookups
  import Backoff
  import Payload

  /** A tick that is handed the row id in this state. */
  predicate DueTick(db: Db, op: Op, id: Id) {
    op.action.Ticks? && op.action.id == id && Due(db, id, op.action.now)
  }

  ghost function DueTicks(db: Db, ops: seq<Op>, id: Id): nat
    decreases |ops|
  {
    if ops == [] then 0
    else (if DueTick(db, ops[0], id) then 1 else 0) + DueTicks(Step(db, ops[0]), ops[1..], id)
  }

  /** How many due ticks a row can still take before it settles. */
  function TicksLeft(t: Wager): int {
    if t.status.PendingReference? then Backoff.MOST_RESCHEDULES + 1 - t.attempts else 0
  }

  /** A tick settles the row, or counts one more attempt and leaves the rest alone. */
  lemma TickMoves(db: Db, id: Id, now: int, jitter: Backoff.Jitter, n: nat)
    requires Inv(db) && Fresh(db, n) && Due(db, id, now)
    ensures var t := db.wagers[id];
            var t' := Tick(db, id, now, jitter, n).wagers[id];
            IsTerminal(t'.status) ||
            (&& t'.status.PendingReference? && t'.attempts == t.attempts + 1
             && now < t.expiresAt.value)
  {
    var t := db.wagers[id];
    assert t.id == id && t.expiresAt.Some? by {
      GoodParts(db);
    }
    TickEndsOrCounts(t, ReferenceOf(db, t), ReadsFor(db, t), now, jitter, n);
    hide Inv, Fresh, ReadsFor, ReferenceOf, DecideTick;
  }

  lemma TickEndsOrCounts(t: Wager, first: Option<Wager>, r: Reads, now: int, jitter: Backoff.Jitter, n: nat)
    requires t.status.PendingReference? && t.expiresAt.Some?
    ensures var row := DecideTick(t, first, r, now, jitter, n).row;
            && row.id == t.id
            && (IsTerminal(row.status) ||
                (row.status.PendingReference? && row.attempts == t.attempts + 1 && now < t.expiresAt.value))
  {
    if Resolvable(first) || Backoff.Exhausted(t.attempts, t.expiresAt, now) {
      SettlementEnds(t, r, now, n);
    }
  }

  lemma SettlementEnds(t: Wager, r: Reads, now: int, n: nat)
    ensures IsTerminal(DecideSettlement(t, r, now, n).row.status) && DecideSettlement(t, r, now, n).row.id == t.id
  {
  }

  /** A tick after the lifetime always settles, whatever it finds. */
  lemma LateTickSettles(db: Db, id: Id, now: int, jitter: Backoff.Jitter, n: nat)
    requires Inv(db) && Fresh(db, n) && Due(db, id, now) && db.wagers[id].expiresAt.Some?
    requires now >= db.wagers[id].expiresAt.value
    ensures IsTerminal(Tick(db, id, now, jitter, n).wagers[id].status)
  {
    TickMoves(db, id, now, jitter, n);
  }

  /** No other operation makes a waiting row wait longer. */
  lemma OthersLeaveRow(db: Db, op: Op, id: Id)
    requires Inv(db) && Fresh(db, op.n) && id in db.wagers && !DueTick(db, op, id)
    ensures id in Step(db, op).wagers
    ensures Step(db, op).wagers[id] == db.wagers[id] || IsTerminal(Step(db, op).wagers[id].status)
  {
    hide Inv, Fresh, Payload.PayloadHash, Submit, Consume, CreateWallet, Tick, RecordFailure, Due;
    FreshIsUnused(db, op.n);
    match op.action
    case Creates(c, now) => CreateWritesNew(db, c, now, op.n);
    case Submits(c, now) => SubmissionWritesNew(db, c, now, op.n);
    case Consumes(d, c, at) =>
      SubmissionWritesNew(db, c, at.now, op.n);
      ConsumeIsSubmit(db, d, c, at, op.n);
    case Ticks(other, now, jitter) => OtherTick(db, other, now, jitter, op.n, id);
    case Fails(other, now) => FailureEnds(db, other, now, op.n, id);
  }

  lemma CreateWritesNew(db: Db, c: CreateCommand, now: int, n: nat)
    ensures forall id :: id in db.wagers && id != WagerId(n) ==>
              id in CreateWallet(db, c, now, n).0.wagers && CreateWallet(db, c, now, n).0.wagers[id] == db.wagers[id]
  {
    hide Payload.PayloadHash, FindWallet, WalletFree;
  }

  lemma OtherTick(db: Db, other: Id, now: int, jitter: Backoff.Jitter, n: nat, id: Id)
    requires Inv(db) && id in db.wagers && (other != id || !Due(db, id, now))
    ensures id in Tick(db, other, now, jitter, n).wagers && Tick(db, other, now, jitter, n).wagers[id] == db.wagers[id]
  {
    hide Inv, TickEffect;
    if Due(db, other, now) {
      TickRow(db, other, now, jitter, n);
    }
  }

  lemma FailureEnds(db: Db, other: Id, now: int, n: nat, id: Id)
    requires Inv(db) && id in db.wagers
    ensures id in RecordFailure(db, other, now, n).wagers
    ensures RecordFailure(db, other, now, n).wagers[id] == db.wagers[id]
            || IsTerminal(RecordFailure(db, other, now, n).wagers[id].status)
  {
    hide Inv, RowsOk, IdentitiesOk, OpeningsOk;
    GoodParts(db);
    if other in db.wagers {
      RowIsNamed(db, other);
    }
  }

  lemma SubmissionWritesNew(db: Db, c: Command, now: int, n: nat)
    ensures forall id :: id in db.wagers && id != WagerId(n) ==>
              id in Submit(db, c, now, n).0.wagers && Submit(db, c, now, n).0.wagers[id] == db.wagers[id]
  {
    hide Payload.PayloadHash, ReadsFor;
    if SubmitFailure(c).None? && IdentityFree(db.wagers, Candidate(c, now, n)) {
      SubmissionRow(db, c, now, n);
      hide SubmissionEffect;
    }
  }

  lemma StepUsesTick(db: Db, op: Op, id: Id)
    requires Inv(db) && Fresh(db, op.n) && id in db.wagers
    ensures id in Step(db, op).wagers && 0 <= TicksLeft(Step(db, op).wagers[id])
    ensures TicksLeft(Step(db, op).wagers[id]) + (if DueTick(db, op, id) then 1 else 0) <= TicksLeft(db.wagers[id])
  {
    hide Inv, Fresh, Step;
    StepKeepsInv(db, op);
    StepExtends(db, op);
    AttemptsBounded(db, id);
    AttemptsBounded(Step(db, op), id);
    if DueTick(db, op, id) {
      TickMoves(db, id, op.action.now, op.action.jitter, op.n);
      assert Step(db, op) == Tick(db, id, op.action.now, op.action.jitter, op.n) by {
        StepOfTick(db, op);
      }
    } else {
      OthersLeaveRow(db, op, id);
    }
  }

  lemma StepOfTick(db: Db, op: Op)
    requires op.action.Ticks?
    ensures Step(db, op) == Tick(db, op.action.id, op.action.now, op.action.jitter, op.n)
  {
    hide Tick;
  }

  lemma AttemptsBounded(db: Db, id: Id)
    requires Inv(db) && id in db.wagers
    ensures db.wagers[id].attempts <= Backoff.MOST_RESCHEDULES
  {
    assert ClockOk(db.wagers[id]);
  }

  /**
   * Whatever else runs, and whatever the clocks and the jitter: a pending reference takes at most
   * ninety-six due ticks, and when it has taken them it is settled.
   */
  lemma {:induction false} EveryPendingSettles(db: Db, ops: seq<Op>, id: Id)
    requires Inv(db) && Numbered(db, ops) && id in db.wagers
    ensures id in Run(db, ops).wagers
    ensures DueTicks(db, ops, id) + TicksLeft(Run(db, ops).wagers[id]) <= TicksLeft(db.wagers[id]) <= 96
    ensures DueTicks(db, ops, id) == TicksLeft(db.wagers[id]) ==> IsTerminal(Run(db, ops).wagers[id].status)
    decreases |ops|
  {
    hide Inv, Step;
    AttemptsBounded(db, id);
    RunKeepsInv(db, ops);
    if ops != [] {
      assert Fresh(db, ops[0].n);
      StepUsesTick(db, ops[0], id);
      StepKeepsInv(db, ops[0]);
      StepKeepsNumbered(db, ops);
      EveryPendingSettles(Step(db, ops[0]), ops[1..], id);
    }
    NotPending(Run(db, ops), id);
  }

  lemma NotPending(db: Db, id: Id)
    requires Inv(db) && id in db.wagers
    ensures TicksLeft(db.wagers[id]) >= 0
    ensures TicksLeft(db.wagers[id]) == 0 ==> IsTerminal(db.wagers[id].status)
  {
    GoodParts(db);
    AttemptsBounded(db, id);
  }
}
