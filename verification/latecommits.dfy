/**
 * Why arrivals can come out of order: an event carries the instant its submission read when it
 * began, before it queued for the wallet's lock.
 */
module LateCommits {
  import opened Wrappers
  import opened Domain
  import opened Store
  import opened Decisions
  import opened Invariants
  import opened Machine
  import opened Interleaving
  import Serialization
  import Leases
  import Outbox
  import Payload

  /** The instant a transaction read when it began. */
  function Began(j: Job): int {
    match j
    case Submission(_, now) => now
    case WorkerTick(_, at, _) => at
    case FailureRecord(_, failedAt) => failedAt
  }

  /** Every event of a commit carries that instant, however long the transaction waited for its locks. */
  lemma EventsCarryTheStart(t: Tx, n: nat)
    requires Decided(t)
    ensures forall i :: 0 <= i < |EffectOf(t, n).events| ==> EffectOf(t, n).events[i].occurredAt == Began(t.job)
  {
  }

  // ---------- a race for one wallet ----------

  function Payout(tag: string): Command {
    Command("provider", tag, tag, "player", WalletId(0), "round", "game", Win, Cash(100, "USD"), None, "", None)
  }

  function Account(cents: int, version: int, updatedAt: int): WalletRow {
    WalletRow(WalletId(0), "player", Cash(cents, "USD"), version, 0, updatedAt)
  }

  function Opened(): Db {
    Empty().(wallets := map[WalletId(0) := Account(0, 1, 0)])
  }

  /** The first payout reads its clock at 10, the second at 20. */
  function First(): Job { Submission(Payout("first"), 10) }

  function Second(): Job { Submission(Payout("second"), 20) }

  function RowFor(j: Job, n: nat): Wager
    requires j.Submission?
  {
    Candidate(j.command, j.now, n)
  }

  function Reserving(j: Job, n: nat): Tx
    requires j.Submission?
  {
    Tx(j, Some(RowFor(j, n)), None, None, None, None)
  }

  function Locking(j: Job, n: nat, w: WalletRow): Tx
    requires j.Submission?
  {
    Reserving(j, n).(wallet := Some(Some(w)))
  }

  /** What a payout commits. */
  function Paid(j: Job, n: nat, w: WalletRow): Effect
    requires j.Submission?
  {
    ProcessMove(RowFor(j, n), None, w, Credit, j.now, ContextOf(j.command, j.now, n), n)
  }

  /** The second payout takes the lock first. */
  function Overtaken(): Db {
    Apply(Opened(), Paid(Second(), 2, Account(0, 1, 0)))
  }

  function Finished(): Db {
    Apply(Overtaken(), Paid(First(), 1, Account(100, 2, 20)))
  }

  function Race(): seq<Move> {
    [OpenWallet(0, CreateCommand("player", Cash(0, "USD"), ""), 0)]
    + [Begin(1, First())] + [TakeRow(1)] + [Begin(2, Second())] + [TakeRow(2)]
    + [LockWallet(2)] + [Commit(2)] + [LockWallet(1)] + [Commit(1)]
  }

  lemma PaidIsDecided(j: Job, n: nat, w: WalletRow)
    requires j == First() || j == Second()
    requires w == Account(0, 1, 0) || w == Account(100, 2, 20)
    ensures Decided(Locking(j, n, w)) && EffectOf(Locking(j, n, w), n) == Paid(j, n, w)
  {
    hide Payload.PayloadHash;
  }

  function Fetched(j: Job): Tx {
    Tx(j, None, None, None, None, None)
  }

  function One(): Sys { Sys(Opened(), map[1 := Reserving(First(), 1)]) }

  /** Both payouts have reserved their rows, and neither has the wallet. */
  function Both(): Sys { Sys(Opened(), map[1 := Reserving(First(), 1), 2 := Reserving(Second(), 2)]) }

  function SecondLocks(): Sys {
    Sys(Opened(), map[1 := Reserving(First(), 1), 2 := Locking(Second(), 2, Account(0, 1, 0))])
  }

  function FirstWaits(): Sys { Sys(Overtaken(), map[1 := Reserving(First(), 1)]) }

  function FirstLocks(): Sys { Sys(Overtaken(), map[1 := Locking(First(), 1, Account(100, 2, 20))]) }

  lemma Opens()
    ensures var open := OpenWallet(0, CreateCommand("player", Cash(0, "USD"), ""), 0);
            Enabled(Serialization.Start(), open) && Next(Serialization.Start(), open) == Sys(Opened(), map[])
  {
    hide Payload.PayloadHash;
  }

  lemma FirstReserves()
    ensures var begun := Sys(Opened(), map[1 := Fetched(First())]);
            && Enabled(Sys(Opened(), map[]), Begin(1, First())) && Next(Sys(Opened(), map[]), Begin(1, First())) == begun
            && Enabled(begun, TakeRow(1)) && Next(begun, TakeRow(1)) == One()
  {
    hide Payload.PayloadHash;
  }

  lemma SecondBegins()
    ensures Enabled(One(), Begin(2, Second()))
    ensures Next(One(), Begin(2, Second())) == Sys(Opened(), One().txs[2 := Fetched(Second())])
  {
    hide Payload.PayloadHash;
  }

  lemma SecondReserves()
    ensures var begun := Sys(Opened(), One().txs[2 := Fetched(Second())]);
            Enabled(begun, TakeRow(2)) && Next(begun, TakeRow(2)) == Both()
  {
    hide Payload.PayloadHash;
  }

  lemma SecondOvertakes()
    ensures Enabled(Both(), LockWallet(2)) && Next(Both(), LockWallet(2)) == SecondLocks()
    ensures Enabled(SecondLocks(), Commit(2)) && Next(SecondLocks(), Commit(2)) == FirstWaits()
  {
    hide Payload.PayloadHash;
    PaidIsDecided(Second(), 2, Account(0, 1, 0));
    hide EffectOf, Decided;
    assert Without(SecondLocks().txs, 2) == FirstWaits().txs;
  }

  lemma FirstFollows()
    ensures Enabled(FirstWaits(), LockWallet(1)) && Next(FirstWaits(), LockWallet(1)) == FirstLocks()
    ensures Enabled(FirstLocks(), Commit(1)) && Next(FirstLocks(), Commit(1)) == Sys(Finished(), map[])
  {
    hide Payload.PayloadHash;
    PaidIsDecided(First(), 1, Account(100, 2, 20));
    hide EffectOf, Decided;
    assert Without(FirstLocks().txs, 1) == map[];
  }

  lemma RaceHappens()
    ensures Serialization.Reaches(Serialization.Start(), Race(), Sys(Finished(), map[]))
  {
    Opens();
    FirstReserves();
    SecondBegins();
    SecondReserves();
    SecondOvertakes();
    FirstFollows();
    hide Enabled, Next, Opened, Overtaken, Finished, One, Both, SecondLocks, FirstWaits, FirstLocks, First, Second, Fetched;
    var open := OpenWallet(0, CreateCommand("player", Cash(0, "USD"), ""), 0);
    var end := Sys(Finished(), map[]);
    var m8 := [Commit(1)];
    var m7 := [LockWallet(1)] + m8;
    var m6 := [Commit(2)] + m7;
    var m5 := [LockWallet(2)] + m6;
    var m4 := [TakeRow(2)] + m5;
    var m3 := [Begin(2, Second())] + m4;
    var m2 := [TakeRow(1)] + m3;
    var m1 := [Begin(1, First())] + m2;
    assert Serialization.Reaches(end, [], end);
    assert m8 == [Commit(1)] + [];
    Serialization.FirstMove(FirstLocks(), Commit(1), [], end);
    Serialization.FirstMove(FirstWaits(), LockWallet(1), m8, end);
    Serialization.FirstMove(SecondLocks(), Commit(2), m7, end);
    Serialization.FirstMove(Both(), LockWallet(2), m6, end);
    Serialization.FirstMove(Sys(Opened(), One().txs[2 := Fetched(Second())]), TakeRow(2), m5, end);
    Serialization.FirstMove(One(), Begin(2, Second()), m4, end);
    Serialization.FirstMove(Sys(Opened(), map[1 := Fetched(First())]), TakeRow(1), m3, end);
    Serialization.FirstMove(Sys(Opened(), map[]), Begin(1, First()), m2, end);
    Serialization.FirstMove(Serialization.Start(), open, m1, end);
    assert Race() == [open] + m1;
  }

  /** The events of one wallet's balance, in the order in which they were committed. */
  lemma RaceInverts()
    ensures var outbox := Finished().outbox;
            && |outbox| == 4
            && IsBalanceOf(outbox[1].data, WalletId(0)) && IsBalanceOf(outbox[3].data, WalletId(0))
            && outbox[1].aggregateId == outbox[3].aggregateId == WalletId(0)
            && outbox[0].aggregateId == WagerId(2) && outbox[2].aggregateId == WagerId(1)
            && outbox[1].occurredAt == 20 && outbox[3].occurredAt == 10
            && outbox[0].eventId == EventId(2) && outbox[1].eventId == BalanceEventId(2)
            && outbox[2].eventId == EventId(1) && outbox[3].eventId == BalanceEventId(1)
  {
    hide Payload.PayloadHash;
  }

  // ---------- the publishers on that outbox ----------

  /** The messages a lease run enqueues, in order. */
  function Arrivals(moves: seq<Leases.Move>): seq<Event> {
    if moves == [] then []
    else (if moves[0].Enqueue? then [moves[0].event] else []) + Arrivals(moves[1..])
  }

  lemma LeaseChain(s: Leases.Sys, move: Leases.Move, rest: seq<Leases.Move>, end: Leases.Sys)
    requires Leases.Enabled(s, move) && Leases.Reaches(Leases.Next(s, move), rest, end)
    ensures Leases.Reaches(s, [move] + rest, end)
    ensures Arrivals([move] + rest) == (if move.Enqueue? then [move.event] else []) + Arrivals(rest)
  {
    hide Leases.Enabled, Leases.Next;
    assert ([move] + rest)[0] == move && ([move] + rest)[1..] == rest;
  }

  lemma {:induction false} ArrivalsJoin(front: seq<Leases.Move>, back: seq<Leases.Move>)
    ensures Arrivals(front + back) == Arrivals(front) + Arrivals(back)
  {
    if front == [] {
      assert front + back == back;
    } else {
      ArrivalsJoin(front[1..], back);
      var head := if front[0].Enqueue? then [front[0].event] else [];
      assert (front + back)[0] == front[0] && (front + back)[1..] == front[1..] + back;
      assert Arrivals(front + back) == head + Arrivals(front[1..] + back);
      Regroup(head, Arrivals(front[1..]), Arrivals(back));
    }
  }

  lemma Regroup(a: seq<Event>, b: seq<Event>, c: seq<Event>)
    ensures (a + b) + c == a + (b + c)
  {
  }

  lemma {:induction false} LeasesJoin(
    s: Leases.Sys, front: seq<Leases.Move>, mid: Leases.Sys, back: seq<Leases.Move>, end: Leases.Sys)
    requires Leases.Reaches(s, front, mid) && Leases.Reaches(mid, back, end)
    ensures Leases.Reaches(s, front + back, end)
    decreases |front|
  {
    hide Leases.Enabled, Leases.Next;
    if front == [] {
      assert front + back == back;
    } else {
      assert (front + back)[0] == front[0] && (front + back)[1..] == front[1..] + back;
      LeasesJoin(Leases.Next(s, front[0]), front[1..], mid, back, end);
    }
  }

  /** Two messages arrive in different groups. */
  lemma TwoArrive(a: Event, b: Event) returns (s: Leases.Sys)
    requires a.eventId != b.eventId
    ensures Leases.Reaches(Leases.Start(), [Leases.Enqueue(a, 20)] + [Leases.Enqueue(b, 20)], s)
    ensures Arrivals([Leases.Enqueue(a, 20)] + [Leases.Enqueue(b, 20)]) == [a, b]
    ensures s == Leases.Sys(map[a.eventId := Outbox.NewMessage(a, 20), b.eventId := Outbox.NewMessage(b, 20)], map[], [])
  {
    var s0 := Leases.Start();
    var s1 := Leases.Next(s0, Leases.Enqueue(a, 20));
    s := Leases.Next(s1, Leases.Enqueue(b, 20));
    LeaseChain(s1, Leases.Enqueue(b, 20), [], s);
    assert [Leases.Enqueue(b, 20)] + [] == [Leases.Enqueue(b, 20)];
    LeaseChain(s0, Leases.Enqueue(a, 20), [Leases.Enqueue(b, 20)], s);
  }

  /** The second of two messages in different groups is published at once. */
  lemma PublishesSecond(s: Leases.Sys, a: Event, b: Event)
    returns (moves: seq<Leases.Move>, end: Leases.Sys)
    requires a.eventId != b.eventId && a.aggregateId != b.aggregateId
    requires s == Leases.Sys(map[a.eventId := Outbox.NewMessage(a, 20), b.eventId := Outbox.NewMessage(b, 20)], map[], [])
    ensures Leases.Reaches(s, moves, end) && Arrivals(moves) == []
    ensures end.rows.Keys == {a.eventId, b.eventId} && !Outbox.Unsettled(end.rows[b.eventId])
    ensures end.rows[b.eventId].groupId == b.aggregateId && end.rows[b.eventId].occurredAt == b.occurredAt
  {
    var claim := Leases.Claim("publisher", b.eventId, 20, 30);
    var send := Leases.Send("publisher", true);
    var complete := Leases.Complete("publisher", 21, 0.0);
    var s1 := Leases.Next(s, claim);
    var s2 := Leases.Next(s1, send);
    end := Leases.Next(s2, complete);
    moves := [claim] + ([send] + [complete]);
    assert Leases.Enabled(s, claim) && Leases.Enabled(s1, send) && Leases.Enabled(s2, complete);
    hide Leases.Enabled, Leases.Next;
    LeaseChain(s2, complete, [], end);
    assert [complete] + [] == [complete];
    LeaseChain(s1, send, [complete], end);
    LeaseChain(s, claim, [send] + [complete], end);
  }

  /** The arrivals that break the order, once the second message is out. */
  lemma LateArrivalUnsettles(s: Leases.Sys, b: Event, c: Event, d: Event) returns (rest: seq<Leases.Move>, end: Leases.Sys)
    requires b.eventId in s.rows && !Outbox.Unsettled(s.rows[b.eventId])
    requires s.rows[b.eventId].groupId == b.aggregateId && s.rows[b.eventId].occurredAt == b.occurredAt
    requires c.eventId !in s.rows && d.eventId !in s.rows && c.eventId != d.eventId
    requires d.aggregateId == b.aggregateId && d.occurredAt < b.occurredAt
    ensures Leases.Reaches(s, rest, end) && Arrivals(rest) == [c, d] && !Leases.SettledPrefix(end)
  {
    var enqueueC := Leases.Enqueue(c, 10);
    var enqueueD := Leases.Enqueue(d, 10);
    var s1 := Leases.Next(s, enqueueC);
    end := Leases.Next(s1, enqueueD);
    rest := [enqueueC] + [enqueueD];
    LeaseChain(s1, enqueueD, [], end);
    assert [enqueueD] + [] == [enqueueD];
    LeaseChain(s, enqueueC, [enqueueD], end);
    assert Outbox.Older(end.rows[d.eventId], end.rows[b.eventId]) && Outbox.Unsettled(end.rows[d.eventId]);
  }

  /** A publisher that meets such an outbox in its order breaks the order of the group. */
  lemma PublisherOvertakes(a: Event, b: Event, c: Event, d: Event)
    returns (lease: seq<Leases.Move>, end: Leases.Sys)
    requires a.eventId != b.eventId && a.aggregateId != b.aggregateId
    requires c.eventId !in {a.eventId, b.eventId} && d.eventId !in {a.eventId, b.eventId, c.eventId}
    requires d.aggregateId == b.aggregateId && d.occurredAt < b.occurredAt
    ensures Leases.Reaches(Leases.Start(), lease, end) && Arrivals(lease) == [a, b, c, d]
    ensures !Leases.SettledPrefix(end)
  {
    hide Leases.Reaches, Leases.Next, Leases.Enabled, Leases.SettledPrefix, Arrivals;
    var s := TwoArrive(a, b);
    var moves, mid := PublishesSecond(s, a, b);
    var rest, last := LateArrivalUnsettles(mid, b, c, d);
    end := last;
    var arrive := [Leases.Enqueue(a, 20)] + [Leases.Enqueue(b, 20)];
    LeasesJoin(s, moves, mid, rest, end);
    ArrivalsJoin(moves, rest);
    LeasesJoin(Leases.Start(), arrive, s, moves + rest, end);
    ArrivalsJoin(arrive, moves + rest);
    lease := arrive + (moves + rest);
  }

  /**
   * The hypothesis on arrivals is needed: in a race the service can run, two payouts to one wallet
   * commit in the opposite order of the instants they read, and a publisher that meets their
   * events in commit order has sent the later balance before the earlier one arrives.
   */
  lemma LateCommitBreaksOrder()
    ensures exists moves: seq<Move>, s: Sys, lease: seq<Leases.Move>, end: Leases.Sys ::
              && Serialization.Reaches(Serialization.Start(), moves, s)
              && Leases.Reaches(Leases.Start(), lease, end) && Arrivals(lease) == s.db.outbox
              && !Leases.SettledPrefix(end)
  {
    RaceHappens();
    RaceInverts();
    hide Race, Finished, Serialization.Reaches, Leases.Reaches, Leases.Start, Leases.SettledPrefix, Arrivals;
    var outbox := Finished().outbox;
    var lease, end := PublisherOvertakes(outbox[0], outbox[1], outbox[2], outbox[3]);
    assert Serialization.Reaches(Serialization.Start(), Race(), Sys(Finished(), map[]));
    assert Arrivals(lease) == Sys(Finished(), map[]).db.outbox;
  }
}
