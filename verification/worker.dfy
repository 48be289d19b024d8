/** The polling loop of the queue consumer, with its queue side effects in order. */
module Worker {
  import opened Wrappers
  import opened Domain
  import opened Store
  import opened Invariants
  import opened Machine
  import opened Runs
  import opened Persistence
  import opened Consumer
  import UseCases

  /** Which calls fail for one message, from the renewal of its visibility to its return. */
  datatype Faults = Faults(
    extendFails: bool, databaseDown: bool, replyLost: bool, deadLetterFails: bool, deleteFails: bool, returnFails: bool)

  class Broker {
    const bodies: map<nat, Body>
    var queue: set<nat>
    var dlq: set<nat>

    constructor (bodies: map<nat, Body>)
      ensures this.bodies == bodies && queue == bodies.Keys && dlq == {}
    {
      this.bodies, queue, dlq := bodies, bodies.Keys, {};
    }

    method Delete(m: nat, fails: bool) returns (ok: bool)
      modifies this`queue
      ensures ok == !fails && queue == if ok then old(queue) - {m} else old(queue)
    {
      if !fails {
        queue := queue - {m};
      }
      return !fails;
    }

    method SendToDlq(m: nat, fails: bool) returns (ok: bool)
      modifies this`dlq
      ensures ok == !fails && dlq == if ok then old(dlq) + {m} else old(dlq)
    {
      if !fails {
        dlq := dlq + {m};
      }
      return !fails;
    }
  }

  /** What the worker acts on: the tables, the queue and the dead letters. */
  datatype Scene = Scene(db: Db, queue: set<nat>, dlq: set<nat>)

  /** What is decided about a message: whatever escapes the use case is transient. */
  ghost function OutcomeFor(db: Db, b: Body, faults: Faults, at: Instants, n: nat): (Db, ConsumeOutcome) {
    if b.Unreadable? then (db, if b.permanent then Permanent else Transient)
    else if faults.databaseDown then (db, Transient)
    else
      var (after, outcome) := Machine.Consume(db, b.delivery, b.command, at, n);
      (after, if faults.replyLost then Transient else outcome)
  }

  /** What the decision does, and whether every call to the broker went through. */
  ghost function Handled(s: Scene, m: nat, b: Body, faults: Faults, at: Instants, n: nat): (Scene, bool) {
    var (after, outcome) := OutcomeFor(s.db, b, faults, at, n);
    match outcome
    case Transient => (s.(db := after), !faults.returnFails)
    case Permanent =>
      if faults.deadLetterFails then (s.(db := after), false)
      else (Scene(after, if faults.deleteFails then s.queue else s.queue - {m}, s.dlq + {m}), !faults.deleteFails)
    case _ => (Scene(after, if faults.deleteFails then s.queue else s.queue - {m}, s.dlq), !faults.deleteFails)
  }

  /** The rest of a batch, from its i-th message on: each in turn until a call fails; none once the worker is stopping. */
  ghost function Polled(
    s: Scene, bodies: map<nat, Body>, batch: seq<nat>, i: nat, stopsAt: nat, faults: seq<Faults>, at: seq<Instants>,
    ns: seq<nat>): (Scene, bool)
    requires i <= |batch| == |faults| == |at| == |ns|
    requires forall k :: 0 <= k < |batch| ==> batch[k] in bodies
    decreases |batch| - i
  {
    if i == |batch| then (s, true)
    else if i >= stopsAt then
      if faults[i].returnFails then (s, false) else Polled(s, bodies, batch, i + 1, stopsAt, faults, at, ns)
    else if i > 0 && faults[i].extendFails then (s, false)
    else
      var (next, ok) := Handled(s, batch[i], bodies[batch[i]], faults[i], at[i], ns[i]);
      if ok then Polled(next, bodies, batch, i + 1, stopsAt, faults, at, ns) else (next, false)
  }

  const NO_FAULTS := Faults(false, false, false, false, false, false)

  /** Some state in which the message was found worth retrying. */
  ghost predicate Retried(b: Body, at: Instants, n: nat) {
    exists db: Db :: OutcomeFor(db, b, NO_FAULTS, at, n).1.Transient?
  }

  /** What was gone from the queue before the i-th message stays gone, and dead letters stay. */
  lemma {:induction false} PollShrinks(
    s: Scene, bodies: map<nat, Body>, batch: seq<nat>, i: nat, stopsAt: nat, faults: seq<Faults>, at: seq<Instants>,
    ns: seq<nat>)
    requires i <= |batch| == |faults| == |at| == |ns|
    requires forall k :: 0 <= k < |batch| ==> batch[k] in bodies
    ensures Polled(s, bodies, batch, i, stopsAt, faults, at, ns).0.queue <= s.queue
    ensures s.dlq <= Polled(s, bodies, batch, i, stopsAt, faults, at, ns).0.dlq
    decreases |batch| - i
  {
    if i < |batch| {
      if i >= stopsAt {
        PollShrinks(s, bodies, batch, i + 1, stopsAt, faults, at, ns);
      } else {
        hide OutcomeFor;
        PollShrinks(Handled(s, batch[i], bodies[batch[i]], faults[i], at[i], ns[i]).0, bodies, batch, i + 1, stopsAt,
                    faults, at, ns);
      }
    }
  }

  /**
   * A poll that meets no fault handles the whole batch: what is still queued was found worth
   * retrying, and what can never be read is dead-lettered.
   */
  lemma {:induction false} CleanPollEmptiesBatch(
    s: Scene, bodies: map<nat, Body>, batch: seq<nat>, i: nat, stopsAt: nat, faults: seq<Faults>, at: seq<Instants>,
    ns: seq<nat>)
    requires i <= |batch| == |faults| == |at| == |ns| <= stopsAt
    requires forall k :: 0 <= k < |batch| ==> batch[k] in bodies && faults[k] == NO_FAULTS
    ensures Polled(s, bodies, batch, i, stopsAt, faults, at, ns).1
    ensures var end := Polled(s, bodies, batch, i, stopsAt, faults, at, ns).0;
            forall k :: i <= k < |batch| ==>
              && (batch[k] in end.queue ==> Retried(bodies[batch[k]], at[k], ns[k]))
              && (bodies[batch[k]] == Unreadable(true) ==> batch[k] in end.dlq)
    decreases |batch| - i
  {
    if i < |batch| {
      var b := bodies[batch[i]];
      var (next, ok) := Handled(s, batch[i], b, faults[i], at[i], ns[i]);
      assert OutcomeFor(s.db, b, NO_FAULTS, at[i], ns[i]).1.Transient? ==> Retried(b, at[i], ns[i]);
      assert b == Unreadable(true) ==> batch[i] in next.dlq;
      hide OutcomeFor;
      PollShrinks(next, bodies, batch, i + 1, stopsAt, faults, at, ns);
      CleanPollEmptiesBatch(next, bodies, batch, i + 1, stopsAt, faults, at, ns);
    }
  }

  /** A message is accounted for: still queued, dead-lettered, or committed. */
  predicate Accounted(broker: Broker, db: Database, m: nat)
    reads broker, db
  {
    m in broker.queue || m in broker.dlq || (m in broker.bodies && HandledIn(db.Value(), broker.bodies[m]))
  }

  class WagerConsumerWorker {
    const db: Database
    const broker: Broker
    var inFlight: set<nat>

    function State(): Scene
      reads db, broker
    {
      Scene(db.Value(), broker.queue, broker.dlq)
    }

    constructor (db: Database, broker: Broker)
      ensures this.db == db && this.broker == broker && inFlight == {}
    {
      this.db, this.broker, inFlight := db, broker, {};
    }

    /** outcomeOf: whatever escapes is transient. */
    method OutcomeOf(m: nat, faults: Faults, at: Instants, n: nat) returns (outcome: ConsumeOutcome)
      requires m in broker.bodies && Inv(db.Value()) && Fresh(db.Value(), n)
      modifies db
      ensures Inv(db.Value()) && InboxGrows(old(db.Value()), db.Value())
      ensures forall k :: Fresh(old(db.Value()), k) && k != n ==> Fresh(db.Value(), k)
      ensures outcome.Consumed? || outcome.Duplicate? ==> HandledIn(db.Value(), broker.bodies[m])
      ensures (db.Value(), outcome) == OutcomeFor(old(db.Value()), broker.bodies[m], faults, at, n)
    {
      hide Inv, Fresh, Machine.Consume;
      var body := broker.bodies[m];
      if body.Unreadable? {
        return if body.permanent then Permanent else Transient;
      }
      if faults.databaseDown {
        return Transient;
      }
      ghost var before := db.Value();
      ConsumeKeepsInv(before, body.delivery, body.command, at, n);
      ConsumeGrows(before, body.delivery, body.command, at, n);
      forall k: nat | Fresh(before, k) && k != n ensures Fresh(Machine.Consume(before, body.delivery, body.command, at, n).0, k) {
        StepKeepsFresh(before, Op(n, Consumes(body.delivery, body.command, at)), k);
      }
      outcome := UseCases.Consume(db, body.delivery, body.command, at, n);
      if faults.replyLost {
        return Transient;
      }
    }

    /** decide: the delete is the last thing that happens to a message; false when a call to the broker throws. */
    method Decide(m: nat, faults: Faults, at: Instants, n: nat) returns (ok: bool)
      requires m in broker.bodies && Inv(db.Value()) && Fresh(db.Value(), n)
      modifies db, broker
      ensures Inv(db.Value()) && InboxGrows(old(db.Value()), db.Value())
      ensures forall k :: Fresh(old(db.Value()), k) && k != n ==> Fresh(db.Value(), k)
      ensures old(broker.queue) - {m} <= broker.queue <= old(broker.queue)
      ensures old(broker.dlq) <= broker.dlq <= old(broker.dlq) + {m}
      ensures (State(), ok) == Handled(old(State()), m, broker.bodies[m], faults, at, n)
      ensures m in old(broker.queue) ==> Accounted(broker, db, m)
    {
      hide Inv, Fresh;
      var outcome := OutcomeOf(m, faults, at, n);
      match outcome
      case Consumed(_) =>
        ok := broker.Delete(m, faults.deleteFails);
      case Duplicate =>
        ok := broker.Delete(m, faults.deleteFails);
      case Permanent =>
        ok := broker.SendToDlq(m, faults.deadLetterFails);
        if ok {
          ok := broker.Delete(m, faults.deleteFails);
        }
      case Transient =>
        ok := !faults.returnFails;
    }

    method Handle(m: nat, faults: Faults, at: Instants, n: nat) returns (ok: bool)
      requires m in broker.bodies && Inv(db.Value()) && Fresh(db.Value(), n)
      modifies this`inFlight, db, broker
      ensures Inv(db.Value()) && InboxGrows(old(db.Value()), db.Value())
      ensures forall k :: Fresh(old(db.Value()), k) && k != n ==> Fresh(db.Value(), k)
      ensures old(broker.queue) - {m} <= broker.queue <= old(broker.queue)
      ensures old(broker.dlq) <= broker.dlq <= old(broker.dlq) + {m}
      ensures (State(), ok) == Handled(old(State()), m, broker.bodies[m], faults, at, n)
      ensures m in old(broker.queue) ==> Accounted(broker, db, m)
      ensures inFlight == old(inFlight) - {m}
    {
      hide Inv, Fresh;
      inFlight := inFlight + {m};
      ok := Decide(m, faults, at, n);
      inFlight := inFlight - {m};
    }

    /**
     * pollOnce: the batch in order, until the shutdown or a broker failure. Whatever fails on the
     * way, between messages too, no received message is lost, and none is in flight afterwards.
     */
    method PollOnce(batch: seq<nat>, stopsAt: nat, faults: seq<Faults>, at: seq<Instants>, ns: seq<nat>) returns (ok: bool)
      requires Inv(db.Value()) && |faults| == |at| == |ns| == |batch|
      requires forall i :: 0 <= i < |batch| ==> batch[i] in broker.bodies && batch[i] in broker.queue
      requires forall i, j :: 0 <= i < j < |batch| ==> batch[i] != batch[j] && ns[i] != ns[j]
      requires forall i :: 0 <= i < |ns| ==> Fresh(db.Value(), ns[i])
      requires inFlight == {}
      modifies this`inFlight, db, broker
      ensures Inv(db.Value()) && inFlight == {}
      ensures forall i :: 0 <= i < |batch| ==> Accounted(broker, db, batch[i])
      ensures forall m :: m in old(broker.queue) && m !in batch ==> m in broker.queue
      ensures (State(), ok) == Polled(old(State()), broker.bodies, batch, 0, stopsAt, faults, at, ns)
    {
      hide Inv, Fresh, Handled;
      ok := true;
      var i := 0;
      while i < |batch| && ok
        invariant 0 <= i <= |batch|
        invariant Inv(db.Value()) && inFlight == {}
        invariant forall k :: i <= k < |ns| ==> Fresh(db.Value(), ns[k])
        invariant broker.queue <= old(broker.queue)
        invariant forall k :: i <= k < |batch| ==> batch[k] in broker.queue
        invariant forall k :: 0 <= k < i ==> Accounted(broker, db, batch[k])
        invariant forall m :: m in old(broker.queue) && m !in batch ==> m in broker.queue
        invariant Polled(old(State()), broker.bodies, batch, 0, stopsAt, faults, at, ns) ==
                  if ok then Polled(State(), broker.bodies, batch, i, stopsAt, faults, at, ns) else (State(), false)
      {
        if i >= stopsAt {
          ok := !faults[i].returnFails;
          i := i + 1;
          continue;
        }
        if i > 0 && faults[i].extendFails {
          return false;
        }
        ghost var before := db.Value();
        ok := Handle(batch[i], faults[i], at[i], ns[i]);
        forall k | 0 <= k < i ensures Accounted(broker, db, batch[k]) {
          StillAccounted(before, db.Value(), broker.bodies[batch[k]]);
        }
        i := i + 1;
      }
    }

    lemma StillAccounted(before: Db, after: Db, b: Body)
      requires InboxGrows(before, after)
      ensures HandledIn(before, b) ==> HandledIn(after, b)
    {
    }
  }
}
