/**
 * The queue consumer as a protocol: receive, commit the inbox row with the effect, then delete;
 * or dead-letter, then delete. Workers share messages once a visibility timeout expires, may crash
 * between any two steps, and may lose the reply to a commit that succeeded.
 */
module Consumer {
  import opened Wrappers
  import opened Domain
  import opened Store
  import opened Decisions
  import opened Invariants
  import opened Machine
  import opened Runs
  import opened Idempotency

  /** A message as the worker parses it; an unreadable one fails for good, or for reasons that may pass. */
  datatype Body = Wagering(delivery: Delivery, command: Command) | Unreadable(permanent: bool)

  /** How far a worker is with the message it holds. */
  datatype Stage =
    | Received(message: nat)
    | Decided(message: nat, outcome: ConsumeOutcome)
    | DeadLettered(message: nat)

  /** `sent` is every message ever put on the queue; `applied` lists the inbox keys whose effects were committed. */
  datatype Sys = Sys(
    db: Db, sent: map<nat, Body>, queue: set<nat>, dlq: set<nat>, workers: map<nat, Stage>, applied: seq<InboxKey>)

  datatype Move =
    | Send(message: nat, body: Body)
    | Receive(worker: nat, message: nat)
    | Decide(worker: nat, at: Instants, n: nat)
    | LoseReply(worker: nat, at: Instants, n: nat)   // committed, but the connection died
    | FailTransiently(worker: nat)                    // lock timeout, deadlock, database down
    | DeadLetter(worker: nat)
    | Ack(worker: nat, deleted: bool)                 // an expired receipt deletes nothing
    | Return(worker: nat)
    | Crash(worker: nat)
    | Redrive(message: nat)                           // the broker's own redrive policy
    | Elsewhere(op: Op)                               // any other operation of the service

  function Start(): Sys {
    Sys(Empty(), map[], {}, {}, map[], [])
  }

  predicate AtReceived(s: Sys, w: nat) {
    w in s.workers && s.workers[w].Received? && s.workers[w].message in s.sent
  }

  /** Processed and duplicate messages are deleted; so is a dead-lettered one. */
  predicate MayAck(t: Stage) {
    t.DeadLettered? || (t.Decided? && (t.outcome.Consumed? || t.outcome.Duplicate?))
  }

  ghost predicate Enabled(s: Sys, move: Move) {
    match move
    case Send(m, _) => m !in s.sent
    case Receive(w, m) => w !in s.workers && m in s.queue
    case Decide(w, _, n) => AtReceived(s, w) && Fresh(s.db, n)
    case LoseReply(w, _, n) => AtReceived(s, w) && s.sent[s.workers[w].message].Wagering? && Fresh(s.db, n)
    case FailTransiently(w) => AtReceived(s, w)
    case DeadLetter(w) => w in s.workers && s.workers[w].Decided? && s.workers[w].outcome.Permanent?
    case Ack(w, _) => w in s.workers && MayAck(s.workers[w])
    case Return(w) => w in s.workers && s.workers[w].Decided? && s.workers[w].outcome.Transient?
    case Crash(_) => true
    case Redrive(m) => m in s.queue
    case Elsewhere(op) => !op.action.Consumes? && Fresh(s.db, op.n)
  }

  ghost function ConsumeBody(db: Db, b: Body, at: Instants, n: nat): (Db, ConsumeOutcome) {
    match b
    case Wagering(d, c) => Consume(db, d, c, at, n)
    case Unreadable(permanent) => (db, if permanent then Permanent else Transient)
  }

  function Idle(workers: map<nat, Stage>, w: nat): map<nat, Stage> {
    workers - {w}
  }

  ghost function Next(s: Sys, move: Move): Sys
    requires Enabled(s, move)
  {
    match move
    case Send(m, b) => s.(sent := s.sent[m := b], queue := s.queue + {m})
    case Receive(w, m) => s.(workers := s.workers[w := Received(m)])
    case Decide(w, at, n) =>
      var m := s.workers[w].message;
      var (db', outcome) := ConsumeBody(s.db, s.sent[m], at, n);
      s.(db := db', workers := s.workers[w := Decided(m, outcome)],
         applied := s.applied + (if outcome.Consumed? then [s.sent[m].delivery.key] else []))
    case LoseReply(w, at, n) =>
      var m := s.workers[w].message;
      var (db', outcome) := ConsumeBody(s.db, s.sent[m], at, n);
      s.(db := db', workers := s.workers[w := Decided(m, Transient)],
         applied := s.applied + (if outcome.Consumed? then [s.sent[m].delivery.key] else []))
    case FailTransiently(w) => s.(workers := s.workers[w := Decided(s.workers[w].message, Transient)])
    case DeadLetter(w) =>
      s.(dlq := s.dlq + {s.workers[w].message}, workers := s.workers[w := DeadLettered(s.workers[w].message)])
    case Ack(w, deleted) =>
      s.(queue := if deleted then s.queue - {s.workers[w].message} else s.queue, workers := Idle(s.workers, w))
    case Return(w) => s.(workers := Idle(s.workers, w))
    case Crash(w) => s.(workers := Idle(s.workers, w))
    case Redrive(m) => s.(queue := s.queue - {m}, dlq := s.dlq + {m})
    case Elsewhere(op) => s.(db := Step(s.db, op))
  }

  // ---------- the invariant ----------

  /** The message's inbox row is committed, carries its payload, and is processed. */
  predicate HandledIn(db: Db, b: Body) {
    && b.Wagering? && b.delivery.key in db.inbox
    && db.inbox[b.delivery.key].payloadHash == b.delivery.payloadHash
    && db.inbox[b.delivery.key].processedAt.Some?
  }

  predicate Safe(s: Sys, m: nat)
    requires m in s.sent
  {
    m in s.queue || m in s.dlq || HandledIn(s.db, s.sent[m])
  }

  predicate StageOk(s: Sys, t: Stage) {
    && t.message in s.sent
    && (t.DeadLettered? ==> t.message in s.dlq)
    && (t.Decided? && (t.outcome.Consumed? || t.outcome.Duplicate?) ==> HandledIn(s.db, s.sent[t.message]))
  }

  ghost predicate Good(s: Sys) {
    && Inv(s.db)
    && s.queue <= s.sent.Keys
    && (forall m :: m in s.sent ==> Safe(s, m))
    && (forall w :: w in s.workers ==> StageOk(s, s.workers[w]))
    && (forall i :: 0 <= i < |s.applied| ==> s.applied[i] in s.db.inbox)
    && (forall i, j :: 0 <= i < j < |s.applied| ==> s.applied[i] != s.applied[j])
  }

  /** Committed inbox rows stay as they are. */
  predicate InboxGrows(before: Db, after: Db) {
    forall k :: k in before.inbox ==> k in after.inbox && after.inbox[k] == before.inbox[k]
  }

  lemma ConsumeGrows(db: Db, d: Delivery, c: Command, at: Instants, n: nat)
    ensures InboxGrows(db, Consume(db, d, c, at, n).0)
    ensures Consume(db, d, c, at, n).1.Consumed? ==>
              d.key !in db.inbox && HandledIn(Consume(db, d, c, at, n).0, Wagering(d, c))
    ensures Consume(db, d, c, at, n).1.Duplicate? ==> HandledIn(db, Wagering(d, c))
    ensures !Consume(db, d, c, at, n).1.Consumed? ==> Consume(db, d, c, at, n).0 == db
  {
    hide Submit;
    SubmitIgnoresInbox(db, db.inbox[d.key := InboxRow(d.payloadHash, at.receivedAt, None)], c, at.now, n);
  }

  lemma ElsewhereKeepsInbox(db: Db, op: Op)
    requires !op.action.Consumes?
    ensures Step(db, op).inbox == db.inbox
  {
    hide SubmissionEffect, TickEffect, DecideFailure, OpeningEffect;
  }

  lemma BodyGrows(db: Db, b: Body, at: Instants, n: nat)
    ensures InboxGrows(db, ConsumeBody(db, b, at, n).0)
    ensures ConsumeBody(db, b, at, n).1.Consumed? ==>
              b.Wagering? && b.delivery.key !in db.inbox && HandledIn(ConsumeBody(db, b, at, n).0, b)
    ensures ConsumeBody(db, b, at, n).1.Duplicate? ==> HandledIn(db, b)
    ensures !ConsumeBody(db, b, at, n).1.Consumed? ==> ConsumeBody(db, b, at, n).0 == db
  {
    if b.Wagering? {
      ConsumeGrows(db, b.delivery, b.command, at, n);
    }
  }

  lemma BodyKeepsInv(db: Db, b: Body, at: Instants, n: nat)
    requires Inv(db) && Fresh(db, n)
    ensures Inv(ConsumeBody(db, b, at, n).0)
  {
    if b.Wagering? {
      ConsumeKeepsInv(db, b.delivery, b.command, at, n);
    }
  }

  /** What is safe stays safe while the inbox only grows. */
  lemma SafetyGrows(s: Sys, s': Sys)
    requires s'.sent == s.sent && s'.queue == s.queue && s'.dlq == s.dlq && InboxGrows(s.db, s'.db)
    ensures forall m :: m in s.sent && Safe(s, m) ==> Safe(s', m)
    ensures forall t :: StageOk(s, t) ==> StageOk(s', t)
  {
  }

  /** Applied keys stay distinct when a key that was not in the inbox joins them. */
  lemma AppliedGrows(s: Sys, db': Db, b: Body, outcome: ConsumeOutcome)
    requires forall i :: 0 <= i < |s.applied| ==> s.applied[i] in s.db.inbox
    requires forall i, j :: 0 <= i < j < |s.applied| ==> s.applied[i] != s.applied[j]
    requires InboxGrows(s.db, db')
    requires outcome.Consumed? ==> b.Wagering? && b.delivery.key !in s.db.inbox && HandledIn(db', b)
    ensures var applied := s.applied + (if outcome.Consumed? then [b.delivery.key] else []);
            && (forall i :: 0 <= i < |applied| ==> applied[i] in db'.inbox)
            && (forall i, j :: 0 <= i < j < |applied| ==> applied[i] != applied[j])
  {
  }

  /** Every commit of a delivery, whether its reply arrives or not, keeps the books. */
  lemma CommitKeepsGood(s: Sys, move: Move)
    requires Good(s) && Enabled(s, move) && (move.Decide? || move.LoseReply?)
    ensures Good(Next(s, move))
  {
    hide Inv, Fresh, ConsumeBody, Safe, StageOk, InboxGrows, HandledIn;
    assert StageOk(s, s.workers[move.worker]);
    var b := s.sent[s.workers[move.worker].message];
    var (db', outcome) := ConsumeBody(s.db, b, move.at, move.n);
    BodyGrows(s.db, b, move.at, move.n);
    BodyKeepsInv(s.db, b, move.at, move.n);
    SafetyGrows(s, s.(db := db'));
    AppliedGrows(s, db', b, outcome);
    DecidedOk(s, move, db', outcome);
    SafetyGrows(s.(db := db'), Next(s, move));
  }

  lemma DecidedOk(s: Sys, move: Move, db': Db, outcome: ConsumeOutcome)
    requires Enabled(s, move) && (move.Decide? || move.LoseReply?)
    requires (db', outcome) == ConsumeBody(s.db, s.sent[s.workers[move.worker].message], move.at, move.n)
    ensures Next(s, move).db == db'
    ensures InboxGrows(db', db')
    ensures StageOk(Next(s, move), Next(s, move).workers[move.worker])
  {
    hide Fresh, ConsumeBody;
    BodyGrows(s.db, s.sent[s.workers[move.worker].message], move.at, move.n);
  }

  lemma ElsewhereKeepsGood(s: Sys, op: Op)
    requires Good(s) && Enabled(s, Elsewhere(op))
    ensures Good(Next(s, Elsewhere(op)))
  {
    hide Inv, Fresh, Step;
    StepKeepsInv(s.db, op);
    ElsewhereKeepsInbox(s.db, op);
  }

  lemma NextKeepsGood(s: Sys, move: Move)
    requires Good(s) && Enabled(s, move)
    ensures Good(Next(s, move))
  {
    hide Inv, Fresh, Step, ConsumeBody;
    match move
    case Decide(_, _, _) => CommitKeepsGood(s, move);
    case LoseReply(_, _, _) => CommitKeepsGood(s, move);
    case Elsewhere(op) => ElsewhereKeepsGood(s, op);
    case _ =>
  }

  ghost predicate Reaches(s: Sys, moves: seq<Move>, end: Sys)
    decreases |moves|
  {
    if moves == [] then s == end
    else Enabled(s, moves[0]) && Reaches(Next(s, moves[0]), moves[1..], end)
  }

  lemma {:induction false} RunKeepsGood(s: Sys, moves: seq<Move>, end: Sys)
    requires Good(s) && Reaches(s, moves, end)
    ensures Good(end)
    decreases |moves|
  {
    if moves != [] {
      hide Good, Enabled, Next;
      NextKeepsGood(s, moves[0]);
      RunKeepsGood(Next(s, moves[0]), moves[1..], end);
    }
  }

  lemma StartIsGood()
    ensures Good(Start())
  {
    EmptyIsGood();
  }

  /** No message is ever lost: it is on the queue, or dead-lettered, or its effect is committed. */
  lemma NothingIsLost(moves: seq<Move>, s: Sys, m: nat)
    requires Reaches(Start(), moves, s) && m in s.sent
    ensures m in s.queue || m in s.dlq || HandledIn(s.db, s.sent[m])
  {
    StartIsGood();
    RunKeepsGood(Start(), moves, s);
    assert Safe(s, m);
  }

  /** No delivery takes effect twice, however often it is received, crashed on or redelivered. */
  lemma EffectsAtMostOnce(moves: seq<Move>, s: Sys, i: int, j: int)
    requires Reaches(Start(), moves, s) && 0 <= i < |s.applied| && 0 <= j < |s.applied| && s.applied[i] == s.applied[j]
    ensures i == j
  {
    StartIsGood();
    RunKeepsGood(Start(), moves, s);
    hide Inv;
  }

  /** A redelivery is a duplicate or a conflict, told apart by the payload: its two transient answers are dead code. */
  lemma RedeliveryIsDecided(moves: seq<Move>, s: Sys, d: Delivery)
    requires Reaches(Start(), moves, s) && d.key in s.db.inbox
    ensures ClassifyRedelivery(s.db, d) ==
            if s.db.inbox[d.key].payloadHash == d.payloadHash then Duplicate else Permanent
  {
    StartIsGood();
    RunKeepsGood(Start(), moves, s);
    assert InboxOk(s.db);
  }

  /** The delete comes last: a message is deleted only once it is dead-lettered or its effect is committed. */
  lemma DeletedOnlyWhenSafe(moves: seq<Move>, s: Sys, w: nat)
    requires Reaches(Start(), moves, s) && Enabled(s, Ack(w, true))
    ensures s.workers[w].message in s.sent
    ensures s.workers[w].message in s.dlq || HandledIn(s.db, s.sent[s.workers[w].message])
  {
    StartIsGood();
    RunKeepsGood(Start(), moves, s);
    assert StageOk(s, s.workers[w]);
  }

  /**
   * A message that a worker handles without a fault leaves the queue, unless its failure may pass:
   * with its effect committed, as a duplicate, or into the dead letters.
   */
  lemma HandlingRemoves(s: Sys, w: nat, m: nat, at: Instants, n: nat)
    requires m in s.sent && Enabled(s, Receive(w, m)) && Fresh(s.db, n)
    ensures Enabled(Next(s, Receive(w, m)), Decide(w, at, n))
    ensures var decided := Next(Next(s, Receive(w, m)), Decide(w, at, n));
            var (db', outcome) := ConsumeBody(s.db, s.sent[m], at, n);
            && decided.db == db'
            && match outcome
               case Transient => Enabled(decided, Return(w)) && m in Next(decided, Return(w)).queue
               case Permanent =>
                 && Enabled(decided, DeadLetter(w)) && Enabled(Next(decided, DeadLetter(w)), Ack(w, true))
                 && var end := Next(Next(decided, DeadLetter(w)), Ack(w, true));
                    end.queue == s.queue - {m} && end.dlq == s.dlq + {m}
               case _ =>
                 Enabled(decided, Ack(w, true)) && Next(decided, Ack(w, true)).queue == s.queue - {m}
  {
    hide Fresh, ConsumeBody;
  }
}
