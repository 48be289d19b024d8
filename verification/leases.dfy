/**
 * Many publishers on one outbox: each claims, sends and completes in turn; any of them may crash
 * between two steps or outlive its lease, clocks differ, and messages keep arriving.
 */
module Leases {
  import opened Wrappers
  import opened Domain
  import opened Store
  import opened Outbox
  import Backoff

  /** What a publisher process holds in memory. */
  datatype Flight =
    | Idle
    | Holding(claim: OutboxClaim)
    | Delivered(claim: OutboxClaim)
    | Returned(claim: OutboxClaim)   // the send threw

  /** What has happened, in order. */
  datatype Entry =
    | Attempt(publisher: string, message: Id, ok: bool)
    | Retry(message: Id)
    | Publish(message: Id)
    | Abandon(message: Id)

  datatype Sys = Sys(rows: Table, flights: map<string, Flight>, log: seq<Entry>)

  datatype Move =
    | Enqueue(event: Event, at: int)
    | Claim(publisher: string, id: Id, now: int, leaseMs: int)
    | Send(publisher: string, ok: bool)
    | Complete(publisher: string, now: int, jitter: Backoff.Jitter)
    | Crash(publisher: string)

  function FlightOf(s: Sys, p: string): Flight {
    if p in s.flights then s.flights[p] else Idle
  }

  function Start(): Sys {
    Sys(map[], map[], [])
  }

  predicate Enabled(s: Sys, move: Move) {
    match move
    case Enqueue(e, _) => e.eventId !in s.rows
    case Claim(p, id, now, _) => FlightOf(s, p).Idle? && Claimable(s.rows, id, now)
    case Send(p, _) => FlightOf(s, p).Holding?
    case Complete(p, _, _) => FlightOf(s, p).Delivered? || FlightOf(s, p).Returned?
    case Crash(_) => true
  }

  /** What a completion records: nothing when the lease is lost. */
  function Outcome(s: Sys, p: string): seq<Entry>
    requires FlightOf(s, p).Delivered? || FlightOf(s, p).Returned?
  {
    var c := FlightOf(s, p).claim;
    if !Owned(s.rows, c.id, p) then []
    else if FlightOf(s, p).Delivered? then [Publish(c.id)]
    else if c.attempts + 1 >= MAX_ATTEMPTS then [Abandon(c.id)]
    else [Retry(c.id)]
  }

  function Next(s: Sys, move: Move): Sys
    requires Enabled(s, move)
  {
    match move
    case Enqueue(e, at) => s.(rows := s.rows[e.eventId := NewMessage(e, at)])
    case Claim(p, id, now, leaseMs) =>
      s.(rows := Claimed(s.rows, id, p, now + leaseMs),
         flights := s.flights[p := Holding(OutboxClaim(id, s.rows[id].attempts))])
    case Send(p, ok) =>
      var c := FlightOf(s, p).claim;
      s.(flights := s.flights[p := if ok then Delivered(c) else Returned(c)], log := s.log + [Attempt(p, c.id, ok)])
    case Complete(p, now, jitter) =>
      var c := FlightOf(s, p).claim;
      Sys(if FlightOf(s, p).Delivered? then Published(s.rows, c.id, p, now) else Refused(s.rows, c, p, now, jitter),
          s.flights[p := Idle], s.log + Outcome(s, p))
    case Crash(p) => s.(flights := s.flights[p := Idle])
  }

  // ---------- accounting ----------

  function Retries(log: seq<Entry>, id: Id): nat {
    if log == [] then 0
    else Retries(log[..|log| - 1], id) + (if log[|log| - 1] == Retry(id) then 1 else 0)
  }

  predicate SentIn(log: seq<Entry>, id: Id) {
    exists i :: 0 <= i < |log| && log[i].Attempt? && log[i].message == id && log[i].ok
  }

  predicate RefusedIn(log: seq<Entry>, id: Id) {
    exists i :: 0 <= i < |log| && log[i].Attempt? && log[i].message == id && !log[i].ok
  }

  /** Whether a row shows that its message has ever been claimed: it is settled, or leased, or was put off. */
  predicate EverClaimed(m: Message) {
    !Unsettled(m) || m.claimedBy.Some? || m.attempts > 0
  }

  predicate RowOk(s: Sys, id: Id)
    requires id in s.rows
  {
    var m := s.rows[id];
    && m.id == id
    && (m.claimedBy.Some? <==> m.claimedUntil.Some?)
    && (!Unsettled(m) ==> m.claimedBy.None?)
    && (m.publishedAt.None? || m.abandonedAt.None?)
    && m.attempts < MAX_ATTEMPTS
    && m.attempts == Retries(s.log, id)
    && (m.publishedAt.Some? <==> Publish(id) in s.log)
    && (m.abandonedAt.Some? <==> Abandon(id) in s.log)
    && (m.publishedAt.Some? ==> SentIn(s.log, id))
    && (m.abandonedAt.Some? ==> m.attempts == MAX_ATTEMPTS - 1 && RefusedIn(s.log, id))
    && (m.attempts > 0 ==> RefusedIn(s.log, id))
  }

  /** A publisher that still owns its claim remembers the row's own count. */
  predicate FlightOk(s: Sys, p: string) {
    var f := FlightOf(s, p);
    f.Idle? ||
    (&& f.claim.id in s.rows && EverClaimed(s.rows[f.claim.id])
     && f.claim.attempts < MAX_ATTEMPTS
     && (Owned(s.rows, f.claim.id, p) ==> f.claim.attempts == s.rows[f.claim.id].attempts && Unsettled(s.rows[f.claim.id]))
     && (f.Delivered? ==> SentIn(s.log, f.claim.id))
     && (f.Returned? ==> RefusedIn(s.log, f.claim.id)))
  }

  predicate Known(s: Sys) {
    forall i :: 0 <= i < |s.log| ==> s.log[i].message in s.rows && EverClaimed(s.rows[s.log[i].message])
  }

  ghost predicate Accounted(s: Sys) {
    && (forall id :: id in s.rows ==> RowOk(s, id))
    && (forall p :: FlightOk(s, p))
    && Known(s)
  }

  lemma RetriesAppend(log: seq<Entry>, more: seq<Entry>, id: Id)
    requires |more| <= 1
    ensures Retries(log + more, id) == Retries(log, id) + (if more == [Retry(id)] then 1 else 0)
  {
    if more == [] {
      assert log + more == log;
    } else {
      assert (log + more)[..|log|] == log;
    }
  }

  lemma HistoryGrows(log: seq<Entry>, more: seq<Entry>, id: Id)
    ensures SentIn(log, id) ==> SentIn(log + more, id)
    ensures RefusedIn(log, id) ==> RefusedIn(log + more, id)
  {
    if SentIn(log, id) {
      var i :| 0 <= i < |log| && log[i].Attempt? && log[i].message == id && log[i].ok;
      assert (log + more)[i] == log[i];
    }
    if RefusedIn(log, id) {
      var i :| 0 <= i < |log| && log[i].Attempt? && log[i].message == id && !log[i].ok;
      assert (log + more)[i] == log[i];
    }
  }

  lemma NeverLogged(s: Sys, id: Id)
    requires Known(s) && id !in s.rows
    ensures Retries(s.log, id) == 0 && Publish(id) !in s.log && Abandon(id) !in s.log
  {
    NoRetries(s.log, id);
  }

  lemma {:induction false} NoRetries(log: seq<Entry>, id: Id)
    requires forall i :: 0 <= i < |log| ==> log[i].message != id
    ensures Retries(log, id) == 0
    decreases |log|
  {
    if log != [] {
      NoRetries(log[..|log| - 1], id);
    }
  }

  lemma EnqueueAccounts(s: Sys, e: Event, at: int)
    requires Accounted(s) && Enabled(s, Enqueue(e, at))
    ensures Accounted(Next(s, Enqueue(e, at)))
  {
    var s' := Next(s, Enqueue(e, at));
    NeverLogged(s, e.eventId);
    forall p ensures FlightOk(s', p) {
      assert FlightOk(s, p);
    }
    forall id | id in s'.rows ensures RowOk(s', id) {
      assert id in s.rows ==> RowOk(s, id);
    }
  }

  lemma ClaimAccounts(s: Sys, move: Move)
    requires Accounted(s) && Enabled(s, move) && move.Claim?
    ensures Accounted(Next(s, move))
  {
    var s' := Next(s, move);
    forall p ensures FlightOk(s', p) {
      assert FlightOk(s, p);
    }
    forall id | id in s'.rows ensures RowOk(s', id) {
      assert RowOk(s, id);
    }
  }

  lemma SendAccounts(s: Sys, p: string, ok: bool)
    requires Accounted(s) && Enabled(s, Send(p, ok))
    ensures Accounted(Next(s, Send(p, ok)))
  {
    var s' := Next(s, Send(p, ok));
    var c := FlightOf(s, p).claim;
    var entry := [Attempt(p, c.id, ok)];
    assert FlightOk(s, p);
    assert s'.log[|s.log|] == Attempt(p, c.id, ok);
    forall q ensures FlightOk(s', q) {
      assert FlightOk(s, q);
      if !FlightOf(s, q).Idle? {
        HistoryGrows(s.log, entry, FlightOf(s, q).claim.id);
      }
    }
    forall id | id in s'.rows ensures RowOk(s', id) {
      assert RowOk(s, id);
      HistoryGrows(s.log, entry, id);
      RetriesAppend(s.log, entry, id);
    }
  }

  lemma CompleteOther(s: Sys, move: Move, id: Id)
    requires Accounted(s) && Enabled(s, move) && move.Complete? && id in s.rows
    requires id != FlightOf(s, move.publisher).claim.id || !Owned(s.rows, id, move.publisher)
    ensures RowOk(Next(s, move), id)
  {
    assert RowOk(s, id);
    hide Accounted, BackoffMs;
    var outcome := Outcome(s, move.publisher);
    HistoryGrows(s.log, outcome, id);
    RetriesAppend(s.log, outcome, id);
    hide Retries, SentIn, RefusedIn;
  }

  lemma CompleteOwn(s: Sys, move: Move, id: Id)
    requires Accounted(s) && Enabled(s, move) && move.Complete? && id in s.rows
    requires id == FlightOf(s, move.publisher).claim.id && Owned(s.rows, id, move.publisher)
    ensures RowOk(Next(s, move), id)
  {
    assert FlightOk(s, move.publisher) && RowOk(s, id);
    hide Accounted, BackoffMs;
    var outcome := Outcome(s, move.publisher);
    HistoryGrows(s.log, outcome, id);
    RetriesAppend(s.log, outcome, id);
    hide Retries, SentIn, RefusedIn;
  }

  lemma CompleteRow(s: Sys, move: Move, id: Id)
    requires Accounted(s) && Enabled(s, move) && move.Complete? && id in s.rows
    ensures RowOk(Next(s, move), id)
  {
    hide Accounted, RowOk, Next;
    if id == FlightOf(s, move.publisher).claim.id && Owned(s.rows, id, move.publisher) {
      CompleteOwn(s, move, id);
    } else {
      CompleteOther(s, move, id);
    }
  }

  lemma CompleteFlight(s: Sys, move: Move, q: string)
    requires Accounted(s) && Enabled(s, move) && move.Complete?
    ensures FlightOk(Next(s, move), q)
  {
    assert FlightOk(s, move.publisher) && FlightOk(s, q);
    assert !FlightOf(s, q).Idle? ==> RowOk(s, FlightOf(s, q).claim.id);
    hide Accounted, Retries, RowOk;
    if !FlightOf(s, q).Idle? {
      HistoryGrows(s.log, Outcome(s, move.publisher), FlightOf(s, q).claim.id);
    }
  }

  lemma CompleteKnown(s: Sys, move: Move)
    requires Accounted(s) && Enabled(s, move) && move.Complete?
    ensures Known(Next(s, move))
  {
    assert FlightOk(s, move.publisher);
    hide Accounted, RowOk;
  }

  lemma CompleteAccounts(s: Sys, move: Move)
    requires Accounted(s) && Enabled(s, move) && move.Complete?
    ensures Accounted(Next(s, move))
  {
    hide FlightOk, RowOk, Known, Next, Enabled;
    var s' := Next(s, move);
    NoNewRows(s, move);
    forall q ensures FlightOk(s', q) {
      CompleteFlight(s, move, q);
    }
    forall id | id in s'.rows ensures RowOk(s', id) {
      CompleteRow(s, move, id);
    }
    CompleteKnown(s, move);
  }

  lemma CrashAccounts(s: Sys, p: string)
    requires Accounted(s)
    ensures Accounted(Next(s, Crash(p)))
  {
    var s' := Next(s, Crash(p));
    forall q ensures FlightOk(s', q) {
      assert FlightOk(s, q);
    }
    forall id | id in s'.rows ensures RowOk(s', id) {
      assert RowOk(s, id);
    }
  }

  /** No step of any publisher upsets the accounts. */
  lemma NextAccounts(s: Sys, move: Move)
    requires Accounted(s) && Enabled(s, move)
    ensures Accounted(Next(s, move))
  {
    hide Accounted, Enabled;
    match move
    case Enqueue(e, at) => EnqueueAccounts(s, e, at);
    case Claim(_, _, _, _) => ClaimAccounts(s, move);
    case Send(p, ok) => SendAccounts(s, p, ok);
    case Complete(_, _, _) => CompleteAccounts(s, move);
    case Crash(p) => CrashAccounts(s, p);
  }

  // ---------- order ----------

  /** Whatever was ever claimed has nothing unsettled before it in its group. */
  ghost predicate InOrder(s: Sys) {
    forall id, o :: id in s.rows && EverClaimed(s.rows[id]) && o in s.rows && Older(s.rows[o], s.rows[id]) ==>
      !Unsettled(s.rows[o])
  }

  /** By the time of the i-th entry, o was sent or given up. */
  predicate DoneBy(log: seq<Entry>, i: nat, o: Id)
    requires i <= |log|
  {
    SentIn(log[..i], o) || Abandon(o) in log[..i]
  }

  /** Nothing is sent, successfully or not, before everything older in its group was sent or given up. */
  ghost predicate TraceInOrder(s: Sys) {
    forall i, o ::
      (0 <= i < |s.log| && s.log[i].Attempt? && o in s.rows && s.log[i].message in s.rows
       && Older(s.rows[o], s.rows[s.log[i].message])) ==> DoneBy(s.log, i, o)
  }

  /** The arriving message does not sort before anything ever claimed in its group. */
  predicate SortsLast(s: Sys, e: Event) {
    forall id :: id in s.rows && EverClaimed(s.rows[id]) ==> !Older(NewMessage(e, 0), s.rows[id])
  }

  /** Stronger, and what one expects of arrivals: it sorts after every message of its group. */
  predicate ArrivesLast(s: Sys, e: Event) {
    forall id :: id in s.rows ==> !Older(NewMessage(e, 0), s.rows[id])
  }

  /** One step: the arrival keeps the invariant behind the order exactly when it sorts behind what was ever claimed. */
  lemma EnqueueKeepsOrderIff(s: Sys, e: Event, at: int)
    requires Accounted(s) && InOrder(s) && Enabled(s, Enqueue(e, at))
    ensures InOrder(Next(s, Enqueue(e, at))) <==> SortsLast(s, e)
  {
    var s' := Next(s, Enqueue(e, at));
    hide RowOk, FlightOk;
    if !SortsLast(s, e) {
      var id :| id in s.rows && EverClaimed(s.rows[id]) && Older(NewMessage(e, 0), s.rows[id]);
      assert Older(s'.rows[e.eventId], s'.rows[id]) && Unsettled(s'.rows[e.eventId]);
    } else {
      forall id, o | id in s'.rows && EverClaimed(s'.rows[id]) && o in s'.rows && Older(s'.rows[o], s'.rows[id])
        ensures !Unsettled(s'.rows[o])
      {
        assert id in s.rows;
        assert o != e.eventId;
      }
    }
  }

  /** Publishing, abandoning and rescheduling never unsettle a message, and never move it. */
  lemma RowsProgress(s: Sys, move: Move, id: Id)
    requires Accounted(s) && Enabled(s, move) && id in s.rows
    ensures id in Next(s, move).rows
    ensures var m := s.rows[id];
            var m' := Next(s, move).rows[id];
            && m'.groupId == m.groupId && m'.occurredAt == m.occurredAt && m'.id == m.id
            && (!Unsettled(m) ==> m' == m) && (EverClaimed(m) ==> EverClaimed(m'))
  {
    assert RowOk(s, id);
    hide FlightOk;
  }

  lemma NextKeepsOrder(s: Sys, move: Move)
    requires Accounted(s) && InOrder(s) && Enabled(s, move)
    requires move.Enqueue? ==> SortsLast(s, move.event)
    ensures InOrder(Next(s, move))
  {
    hide Accounted;
    var s' := Next(s, move);
    if move.Enqueue? {
      EnqueueKeepsOrderIff(s, move.event, move.at);
    } else {
      NoNewRows(s, move);
      forall id, o | id in s'.rows && EverClaimed(s'.rows[id]) && o in s'.rows && Older(s'.rows[o], s'.rows[id])
        ensures !Unsettled(s'.rows[o])
      {
        RowsProgress(s, move, id);
        RowsProgress(s, move, o);
        assert Older(s.rows[o], s.rows[id]);
      }
    }
  }

  lemma NoNewRows(s: Sys, move: Move)
    requires Accounted(s) && Enabled(s, move) && !move.Enqueue?
    ensures Next(s, move).rows.Keys == s.rows.Keys
  {
    if move.Complete? {
      assert FlightOk(s, move.publisher);
    }
    hide RowOk, FlightOk, Known;
  }

  lemma DoneByGrows(log: seq<Entry>, more: seq<Entry>, i: nat, o: Id)
    requires i <= |log|
    ensures DoneBy(log + more, i, o) == DoneBy(log, i, o)
  {
    assert (log + more)[..i] == log[..i];
  }

  /** A move appends at most one entry; a new attempt is the send of a held claim. */
  lemma LogGrows(s: Sys, move: Move)
    requires Enabled(s, move)
    ensures |s.log| <= |Next(s, move).log| <= |s.log| + 1 && Next(s, move).log[..|s.log|] == s.log
    ensures |Next(s, move).log| > |s.log| && Next(s, move).log[|s.log|].Attempt? ==>
              && move.Send? && Next(s, move).log[|s.log|].message == FlightOf(s, move.publisher).claim.id
              && Next(s, move).rows == s.rows
  {
  }

  lemma NextKeepsTrace(s: Sys, move: Move)
    requires Accounted(s) && InOrder(s) && TraceInOrder(s) && Enabled(s, move)
    requires move.Enqueue? ==> SortsLast(s, move.event)
    ensures TraceInOrder(Next(s, move))
  {
    assert Known(s);
    LogGrows(s, move);
    hide Next, Enabled, Accounted, InOrder, SortsLast, DoneBy;
    var s' := Next(s, move);
    var more := s'.log[|s.log|..];
    assert s'.log == s.log + more;
    forall i, o | 0 <= i < |s'.log| && s'.log[i].Attempt? && o in s'.rows && s'.log[i].message in s'.rows
                  && Older(s'.rows[o], s'.rows[s'.log[i].message])
      ensures DoneBy(s'.log, i, o)
    {
      if i < |s.log| {
        assert s.log[i] == s'.log[i];
        OlderWasOlder(s, move, o, s.log[i].message);
        DoneByGrows(s.log, more, i, o);
      } else {
        SendIsInOrder(s, move, o);
      }
    }
  }

  /** Among the rows an attempt can compare, nothing changes places; a new row comes behind. */
  lemma OlderWasOlder(s: Sys, move: Move, o: Id, id: Id)
    requires Accounted(s) && Enabled(s, move)
    requires move.Enqueue? ==> SortsLast(s, move.event)
    requires id in s.rows && EverClaimed(s.rows[id]) && o in Next(s, move).rows && id in Next(s, move).rows
    requires Older(Next(s, move).rows[o], Next(s, move).rows[id])
    ensures o in s.rows && Older(s.rows[o], s.rows[id])
  {
    RowsProgress(s, move, id);
    if o in s.rows {
      RowsProgress(s, move, o);
    }
  }

  lemma SendIsInOrder(s: Sys, move: Move, o: Id)
    requires Accounted(s) && InOrder(s) && Enabled(s, move) && move.Send?
    requires var id := FlightOf(s, move.publisher).claim.id;
             id in s.rows && o in s.rows && Older(s.rows[o], s.rows[id])
    ensures DoneBy(Next(s, move).log, |s.log|, o)
  {
    assert FlightOk(s, move.publisher);
    assert RowOk(s, o);
    assert Next(s, move).log[..|s.log|] == s.log;
    hide FlightOk;
  }

  // ---------- whole runs ----------

  ghost predicate Reaches(s: Sys, moves: seq<Move>, end: Sys)
    decreases |moves|
  {
    if moves == [] then s == end
    else Enabled(s, moves[0]) && Reaches(Next(s, moves[0]), moves[1..], end)
  }

  /** Every arrival of the run sorts behind what was ever claimed in its group. */
  ghost predicate Sorted(s: Sys, moves: seq<Move>)
    decreases |moves|
  {
    moves != [] && Enabled(s, moves[0]) ==>
      (moves[0].Enqueue? ==> SortsLast(s, moves[0].event)) && Sorted(Next(s, moves[0]), moves[1..])
  }

  lemma {:induction false} RunAccounts(s: Sys, moves: seq<Move>, end: Sys)
    requires Accounted(s) && Reaches(s, moves, end)
    ensures Accounted(end)
    decreases |moves|
  {
    if moves != [] {
      hide Accounted, Enabled, Next;
      NextAccounts(s, moves[0]);
      RunAccounts(Next(s, moves[0]), moves[1..], end);
    }
  }

  lemma {:induction false} RunKeepsOrder(s: Sys, moves: seq<Move>, end: Sys)
    requires Accounted(s) && InOrder(s) && TraceInOrder(s) && Reaches(s, moves, end) && Sorted(s, moves)
    ensures Accounted(end) && InOrder(end) && TraceInOrder(end)
    decreases |moves|
  {
    if moves != [] {
      hide Accounted, InOrder, TraceInOrder, Enabled, Next, SortsLast;
      NextAccounts(s, moves[0]);
      NextKeepsOrder(s, moves[0]);
      NextKeepsTrace(s, moves[0]);
      RunKeepsOrder(Next(s, moves[0]), moves[1..], end);
    }
  }

  /**
   * Accounting over every run, crashes and lost leases included: `attempts` counts the effective
   * reschedules and stays below 600, a published message was sent successfully, an abandoned one
   * was refused with 599 reschedules behind it, and none is both.
   */
  lemma AccountsBalance(moves: seq<Move>, s: Sys, id: Id)
    requires Reaches(Start(), moves, s) && id in s.rows
    ensures var m := s.rows[id];
            && m.attempts == Retries(s.log, id) <= 599
            && (m.publishedAt.Some? <==> Publish(id) in s.log) && (m.publishedAt.Some? ==> SentIn(s.log, id))
            && (m.abandonedAt.Some? <==> Abandon(id) in s.log)
            && (m.abandonedAt.Some? ==> RefusedIn(s.log, id) && m.attempts == 599)
            && !(m.publishedAt.Some? && m.abandonedAt.Some?)
  {
    RunAccounts(Start(), moves, s);
    assert RowOk(s, id);
  }

  /** A settled message: what was sent last decides; a lost lease changes nothing at all. */
  lemma CompletionExact(moves: seq<Move>, s: Sys, p: string, now: int, jitter: Backoff.Jitter)
    requires Reaches(Start(), moves, s) && Enabled(s, Complete(p, now, jitter))
    ensures var s' := Next(s, Complete(p, now, jitter));
            var id := FlightOf(s, p).claim.id;
            && id in s.rows && s'.rows.Keys == s.rows.Keys
            && (forall o :: o in s.rows && o != id ==> s'.rows[o] == s.rows[o])
            && (!Owned(s.rows, id, p) ==> s'.rows == s.rows && s'.log == s.log)
            && (Owned(s.rows, id, p) ==>
                  && s'.rows[id].claimedBy.None? && s'.rows[id].claimedUntil.None?
                  && s'.rows[id].publishedAt == (if FlightOf(s, p).Delivered? then Some(now) else None)
                  && (s'.rows[id].abandonedAt.Some? ==> s'.rows[id].abandonedAt == Some(now))
                  && (s'.rows[id].abandonedAt.Some? <==> FlightOf(s, p).Returned? && s.rows[id].attempts == 599)
                  && (Unsettled(s'.rows[id]) ==> s'.rows[id].attempts == s.rows[id].attempts + 1 <= 599))
  {
    RunAccounts(Start(), moves, s);
    assert FlightOk(s, p) && RowOk(s, FlightOf(s, p).claim.id);
    hide Accounted, Reaches;
  }

  lemma {:induction false} SettledIsFinal(s: Sys, moves: seq<Move>, end: Sys, id: Id)
    requires Accounted(s) && Reaches(s, moves, end) && id in s.rows && !Unsettled(s.rows[id])
    ensures id in end.rows && end.rows[id] == s.rows[id]
    decreases |moves|
  {
    if moves != [] {
      hide Accounted, Enabled, Next;
      NextAccounts(s, moves[0]);
      RowsProgress(s, moves[0], id);
      SettledIsFinal(Next(s, moves[0]), moves[1..], end, id);
    }
  }

  /** The settled messages of each group come before all others of the group. */
  ghost predicate SettledPrefix(s: Sys) {
    forall a, b :: a in s.rows && b in s.rows && Older(s.rows[a], s.rows[b]) && !Unsettled(s.rows[b]) ==> !Unsettled(s.rows[a])
  }

  ghost predicate OneClaimPerGroup(s: Sys) {
    forall a, b ::
      (a in s.rows && b in s.rows && s.rows[a].claimedBy.Some? && s.rows[b].claimedBy.Some?
       && s.rows[a].groupId == s.rows[b].groupId) ==> a == b
  }

  lemma Comparable(a: Message, b: Message)
    requires a.groupId == b.groupId
    ensures a.id == b.id || Older(a, b) || Older(b, a)
  {
  }

  /** What readers of the groups rely on. */
  ghost predicate Ordered(s: Sys) {
    SettledPrefix(s) && OneClaimPerGroup(s) && TraceInOrder(s)
  }

  lemma InvariantIsOrdered(s: Sys)
    requires Accounted(s) && InOrder(s) && TraceInOrder(s)
    ensures Ordered(s)
  {
    hide TraceInOrder;
    forall a, b | a in s.rows && b in s.rows && Older(s.rows[a], s.rows[b]) && !Unsettled(s.rows[b])
      ensures !Unsettled(s.rows[a])
    {
      assert RowOk(s, b);
    }
    forall a, b | a in s.rows && b in s.rows && s.rows[a].claimedBy.Some? && s.rows[b].claimedBy.Some?
                  && s.rows[a].groupId == s.rows[b].groupId
      ensures a == b
    {
      assert RowOk(s, a) && RowOk(s, b);
      Comparable(s.rows[a], s.rows[b]);
    }
  }

  /**
   * In every run whose arrivals sort behind what was ever claimed, with any number of publishers,
   * crashes and expired leases: settled messages form a prefix of their group, at most one message
   * of a group is claimed, and no message is sent before everything older was sent or given up.
   */
  lemma GroupsStayInOrder(moves: seq<Move>, s: Sys)
    requires Reaches(Start(), moves, s) && Sorted(Start(), moves)
    ensures Ordered(s)
  {
    hide Ordered;
    RunKeepsOrder(Start(), moves, s);
    InvariantIsOrdered(s);
  }

  // ---------- exactly which arrivals are safe ----------

  predicate NoArrivals(moves: seq<Move>) {
    forall i :: 0 <= i < |moves| ==> !moves[i].Enqueue?
  }

  lemma {:induction false} NoArrivalsAreSorted(s: Sys, moves: seq<Move>)
    requires NoArrivals(moves)
    ensures Sorted(s, moves)
    decreases |moves|
  {
    if moves != [] && Enabled(s, moves[0]) {
      hide Enabled, Next;
      assert !moves[0].Enqueue?;
      NoArrivalsAreSorted(Next(s, moves[0]), moves[1..]);
    }
  }

  /** However the publishers go on without further arrivals, the groups stay in order. */
  ghost predicate StaysOrdered(s: Sys) {
    forall more: seq<Move>, end: Sys :: NoArrivals(more) && Reaches(s, more, end) ==> Ordered(end)
  }

  /** The arrival overtakes a message that is settled: the settled messages are no prefix any more. */
  lemma OvertakesSettled(s: Sys, e: Event, at: int, id: Id)
    requires Enabled(s, Enqueue(e, at)) && id in s.rows && !Unsettled(s.rows[id])
    requires Older(NewMessage(e, 0), s.rows[id])
    ensures !SettledPrefix(Next(s, Enqueue(e, at)))
  {
    var s' := Next(s, Enqueue(e, at));
    assert Older(s'.rows[e.eventId], s'.rows[id]) && Unsettled(s'.rows[e.eventId]);
  }

  /** It overtakes a message that was put off: that one has been sent before it. */
  lemma OvertakesSent(s: Sys, e: Event, at: int, id: Id)
    requires Accounted(s) && Enabled(s, Enqueue(e, at)) && id in s.rows && s.rows[id].attempts > 0
    requires Older(NewMessage(e, 0), s.rows[id])
    ensures !TraceInOrder(Next(s, Enqueue(e, at)))
  {
    var s' := Next(s, Enqueue(e, at));
    assert RowOk(s, id) && Known(s);
    var i :| 0 <= i < |s.log| && s.log[i].Attempt? && s.log[i].message == id && !s.log[i].ok;
    assert Older(s'.rows[e.eventId], s'.rows[s'.log[i].message]);
    assert !DoneBy(s'.log, i, e.eventId);
  }

  /** A publisher that crashes and then takes the arrival as soon as it may. */
  function Overtake(e: Event, at: int): seq<Move> {
    [Crash(""), Claim("", e.eventId, at, 1)]
  }

  lemma ArrivalIsClaimable(s: Sys, e: Event, at: int, id: Id)
    requires InOrder(s) && Enabled(s, Enqueue(e, at)) && id in s.rows && EverClaimed(s.rows[id])
    requires Older(NewMessage(e, 0), s.rows[id])
    ensures Claimable(Next(s, Enqueue(e, at)).rows, e.eventId, at)
  {
    var rows := Next(s, Enqueue(e, at)).rows;
    forall o | o in rows && Older(rows[o], rows[e.eventId]) ensures !Unsettled(rows[o]) {
      assert o in s.rows && Older(s.rows[o], s.rows[id]);
    }
  }

  /** It overtakes a message that is claimed: a second one of the group can be claimed beside it. */
  lemma OvertakesClaimed(s: Sys, e: Event, at: int, id: Id)
    requires InOrder(s) && Enabled(s, Enqueue(e, at))
    requires id in s.rows && s.rows[id].claimedBy.Some? && Older(NewMessage(e, 0), s.rows[id])
    ensures NoArrivals(Overtake(e, at))
    ensures exists end :: Reaches(Next(s, Enqueue(e, at)), Overtake(e, at), end) && !OneClaimPerGroup(end)
  {
    var s' := Next(s, Enqueue(e, at));
    var more := Overtake(e, at);
    ArrivalIsClaimable(s, e, at, id);
    var crashed := Next(s', more[0]);
    var end := Next(crashed, more[1]);
    assert more[1..] == [more[1]] && more[1..][1..] == [];
    assert Reaches(crashed, more[1..], end) && Reaches(s', more, end);
    assert end.rows[e.eventId].claimedBy.Some? && end.rows[id].claimedBy.Some? && id != e.eventId;
    assert !OneClaimPerGroup(end);
  }

  lemma UnsafeArrival(s: Sys, e: Event, at: int)
    requires Accounted(s) && InOrder(s) && Enabled(s, Enqueue(e, at)) && !SortsLast(s, e)
    ensures !StaysOrdered(Next(s, Enqueue(e, at)))
  {
    var id :| id in s.rows && EverClaimed(s.rows[id]) && Older(NewMessage(e, 0), s.rows[id]);
    var s' := Next(s, Enqueue(e, at));
    hide Accounted, InOrder, SortsLast, SettledPrefix, OneClaimPerGroup, TraceInOrder, Enabled, Next, Older;
    assert Reaches(s', [], s') && NoArrivals([]);
    if !Unsettled(s.rows[id]) {
      OvertakesSettled(s, e, at, id);
    } else if s.rows[id].attempts > 0 {
      OvertakesSent(s, e, at, id);
    } else {
      OvertakesClaimed(s, e, at, id);
    }
  }

  /**
   * The exact condition: in any run so far in order, an arrival leaves the groups in order,
   * however the publishers go on, if and only if no row of its group that sorts after it shows
   * that it was ever claimed.
   */
  lemma ArrivalIsSafeIff(moves: seq<Move>, s: Sys, e: Event, at: int)
    requires Reaches(Start(), moves, s) && Sorted(Start(), moves) && Enabled(s, Enqueue(e, at))
    ensures StaysOrdered(Next(s, Enqueue(e, at))) <==> SortsLast(s, e)
  {
    RunKeepsOrder(Start(), moves, s);
    var s' := Next(s, Enqueue(e, at));
    hide Accounted, InOrder, TraceInOrder, SortsLast, Sorted, Ordered, Enabled, Next;
    if SortsLast(s, e) {
      NextAccounts(s, Enqueue(e, at));
      NextKeepsOrder(s, Enqueue(e, at));
      NextKeepsTrace(s, Enqueue(e, at));
      forall more: seq<Move>, end: Sys | NoArrivals(more) && Reaches(s', more, end) ensures Ordered(end) {
        NoArrivalsAreSorted(s', more);
        RunKeepsOrder(s', more, end);
        InvariantIsOrdered(end);
      }
    } else {
      UnsafeArrival(s, e, at);
    }
  }

  /** Every arrival of the run sorts after all messages of its group. */
  ghost predicate ArrivalsInOrder(s: Sys, moves: seq<Move>)
    decreases |moves|
  {
    moves != [] && Enabled(s, moves[0]) ==>
      (moves[0].Enqueue? ==> ArrivesLast(s, moves[0].event)) && ArrivalsInOrder(Next(s, moves[0]), moves[1..])
  }

  lemma {:induction false} ArrivalsInOrderAreSorted(s: Sys, moves: seq<Move>)
    requires ArrivalsInOrder(s, moves)
    ensures Sorted(s, moves)
    decreases |moves|
  {
    if moves != [] && Enabled(s, moves[0]) {
      hide Enabled, Next, Older;
      ArrivalsInOrderAreSorted(Next(s, moves[0]), moves[1..]);
    }
  }

  /** In particular when messages are enqueued in the order of (occurred_at, id) within each group. */
  lemma OrderedArrivalsStayInOrder(moves: seq<Move>, s: Sys)
    requires Reaches(Start(), moves, s) && ArrivalsInOrder(Start(), moves)
    ensures Ordered(s)
  {
    hide Reaches, Sorted, ArrivalsInOrder, Ordered;
    ArrivalsInOrderAreSorted(Start(), moves);
    GroupsStayInOrder(moves, s);
  }

  // ---------- leases and backoff in time ----------

  /** Neither the owner completes nor anyone claims the message. */
  predicate LeavesAlone(moves: seq<Move>, id: Id, owner: Option<string>) {
    forall i :: 0 <= i < |moves| ==>
      !(moves[i].Complete? && owner == Some(moves[i].publisher)) && !(moves[i].Claim? && moves[i].id == id)
  }

  /** Only its owner, or whoever claims it, changes a row. */
  lemma RowUntouched(s: Sys, move: Move, id: Id)
    requires Accounted(s) && Enabled(s, move) && id in s.rows && LeavesAlone([move], id, s.rows[id].claimedBy)
    ensures id in Next(s, move).rows && Next(s, move).rows[id] == s.rows[id]
  {
    assert [move][0] == move;
    hide Accounted;
  }

  lemma {:induction false} RowStays(s: Sys, moves: seq<Move>, end: Sys, id: Id)
    requires Accounted(s) && Reaches(s, moves, end) && id in s.rows && LeavesAlone(moves, id, s.rows[id].claimedBy)
    ensures id in end.rows && end.rows[id] == s.rows[id]
    decreases |moves|
  {
    if moves != [] {
      hide Accounted, Enabled, Next;
      assert moves[0] == [moves[0]][0];
      RowUntouched(s, moves[0], id);
      NextAccounts(s, moves[0]);
      RowStays(Next(s, moves[0]), moves[1..], end, id);
    }
  }

  /** Until its holder completes, nobody else gets a claimed message before the lease is over. */
  lemma LeaseIsExclusive(
    s: Sys, p: string, id: Id, now: int, leaseMs: int, moves: seq<Move>, end: Sys, q: string, later: int, lease: int)
    requires Accounted(s) && Enabled(s, Claim(p, id, now, leaseMs))
    requires Reaches(Next(s, Claim(p, id, now, leaseMs)), moves, end) && LeavesAlone(moves, id, Some(p))
    requires Enabled(end, Claim(q, id, later, lease))
    ensures later >= now + leaseMs
  {
    NextAccounts(s, Claim(p, id, now, leaseMs));
    RowStays(Next(s, Claim(p, id, now, leaseMs)), moves, end, id);
  }

  lemma RefusedRow(s: Sys, p: string, now: int, jitter: Backoff.Jitter)
    requires Accounted(s) && Enabled(s, Complete(p, now, jitter)) && FlightOf(s, p).Returned?
    requires Owned(s.rows, FlightOf(s, p).claim.id, p) && s.rows[FlightOf(s, p).claim.id].attempts < 599
    ensures var id := FlightOf(s, p).claim.id;
            var rows := Next(s, Complete(p, now, jitter)).rows;
            && id in rows && rows[id].claimedBy.None?
            && rows[id].nextAttemptAt == now + BackoffMs(s.rows[id].attempts + 1, jitter)
  {
    assert FlightOk(s, p);
    hide Accounted, BackoffMs;
  }

  lemma LeastBackoff(n: nat, jitter: Backoff.Jitter)
    requires n >= 1
    ensures Outbox.Step(n) as real * 0.8 - 0.5 < BackoffMs(n, jitter) as real
  {
    BackoffIs(n, jitter);
    hide BackoffMs;
    assert Outbox.Step(n) as real * (jitter * 0.4) >= 0.0;
  }

  /** A refused message is not claimed again before its backoff is over, whoever claims it. */
  lemma BackoffIsRespected(
    s: Sys, p: string, now: int, jitter: Backoff.Jitter, moves: seq<Move>, end: Sys, q: string, later: int, lease: int)
    requires Accounted(s) && Enabled(s, Complete(p, now, jitter)) && FlightOf(s, p).Returned?
    requires var claim := FlightOf(s, p).claim;
             && Owned(s.rows, claim.id, p) && s.rows[claim.id].attempts < 599
             && Reaches(Next(s, Complete(p, now, jitter)), moves, end) && LeavesAlone(moves, claim.id, None)
             && Enabled(end, Claim(q, claim.id, later, lease))
    ensures Outbox.Step(s.rows[FlightOf(s, p).claim.id].attempts + 1) as real * 0.8 - 0.5 < (later - now) as real
  {
    hide Accounted, Reaches, LeavesAlone, Next, BackoffMs, Outbox.Step;
    var id := FlightOf(s, p).claim.id;
    RefusedRow(s, p, now, jitter);
    NextAccounts(s, Complete(p, now, jitter));
    RowStays(Next(s, Complete(p, now, jitter)), moves, end, id);
    LeastBackoff(s.rows[id].attempts + 1, jitter);
  }

  // ---------- progress ----------

  /** The least unsettled message of a set of messages of one group. */
  lemma {:induction false} LeastUnsettled(rows: Table, ids: set<Id>, group: Id) returns (least: Id)
    requires ids <= rows.Keys && (forall id :: id in rows ==> rows[id].id == id)
    requires exists id :: id in ids && rows[id].groupId == group && Unsettled(rows[id])
    ensures least in ids && rows[least].groupId == group && Unsettled(rows[least])
    ensures forall o :: o in ids && rows[o].groupId == group && Unsettled(rows[o]) ==> !Before(rows[o], rows[least])
    decreases |ids|
  {
    var id :| id in ids && rows[id].groupId == group && Unsettled(rows[id]);
    var rest := ids - {id};
    if exists o :: o in rest && rows[o].groupId == group && Unsettled(rows[o]) {
      var other := LeastUnsettled(rows, rest, group);
      least := if Before(rows[id], rows[other]) then id else other;
    } else {
      least := id;
    }
  }

  ghost predicate ClaimableFrom(rows: Table, id: Id, since: int) {
    forall now :: now >= since ==> Claimable(rows, id, now)
  }

  /** No group is ever stuck: its oldest unsettled message becomes claimable once it is due and unleased. */
  lemma EveryGroupProgresses(moves: seq<Move>, s: Sys, group: Id)
    requires Reaches(Start(), moves, s)
    requires exists id :: id in s.rows && s.rows[id].groupId == group && Unsettled(s.rows[id])
    ensures exists id, since: int ::
              id in s.rows && s.rows[id].groupId == group && ClaimableFrom(s.rows, id, since)
  {
    RunAccounts(Start(), moves, s);
    assert forall id :: id in s.rows ==> RowOk(s, id);
    hide Accounted, Reaches;
    var id := LeastUnsettled(s.rows, s.rows.Keys, group);
    var m := s.rows[id];
    var since := if m.claimedUntil.Some? && m.claimedUntil.value > m.nextAttemptAt then m.claimedUntil.value else m.nextAttemptAt;
    assert ClaimableFrom(s.rows, id, since);
  }
}
