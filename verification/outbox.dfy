/**
 * The outbox table as the publishers share it: who may claim a message, and what a completion
 * does to it. A completion names the publisher, and changes nothing unless the claim is still its own.
 */
module Outbox {
  import opened Wrappers
  import opened Domain
  import opened Store
  import Backoff

  const BASE_DELAY_MS := 1_000
  const MAX_DELAY_MS := 60_000
  const MAX_ATTEMPTS := 600

  datatype Message = Message(
    id: Id,
    groupId: Id,
    occurredAt: int,
    attempts: nat,
    nextAttemptAt: int,
    claimedBy: Option<string>,
    claimedUntil: Option<int>,
    publishedAt: Option<int>,
    abandonedAt: Option<int>)

  type Table = map<Id, Message>

  /** What claim returns to its publisher. */
  datatype OutboxClaim = OutboxClaim(id: Id, attempts: nat)

  /** enqueue */
  function NewMessage(e: Event, now: int): Message {
    Message(e.eventId, e.aggregateId, e.occurredAt, 0, now, None, None, None, None)
  }

  /** outboxBackoffMs */
  function BackoffMs(attempts: nat, jitter: Backoff.Jitter): int
    requires attempts >= 1
  {
    var delay := BASE_DELAY_MS * Backoff.Pow2(attempts - 1);
    Backoff.Round((if delay < MAX_DELAY_MS then delay else MAX_DELAY_MS) as real * (0.8 + jitter * 0.4))
  }

  /** The steps double from one second and stay at one minute, each spread by a fifth either way. */
  function Step(attempts: nat): int {
    if attempts <= 1 then 1_000
    else if attempts == 2 then 2_000
    else if attempts == 3 then 4_000
    else if attempts == 4 then 8_000
    else if attempts == 5 then 16_000
    else if attempts == 6 then 32_000
    else 60_000
  }

  lemma BackoffIs(n: nat, jitter: Backoff.Jitter)
    requires n >= 1
    ensures Backoff.Nearest(BackoffMs(n, jitter), Step(n) as real * (0.8 + jitter * 0.4))
  {
    Backoff.Pow2Values();
    if n >= 7 {
      Backoff.Pow2Large(n - 1);
    }
  }

  predicate Unsettled(m: Message) {
    m.publishedAt.None? && m.abandonedAt.None?
  }

  /** (occurred_at, id) */
  predicate Before(a: Message, b: Message) {
    a.occurredAt < b.occurredAt || (a.occurredAt == b.occurredAt && IdBefore(a.id, b.id))
  }

  predicate Older(a: Message, b: Message) {
    a.groupId == b.groupId && Before(a, b)
  }

  /** The rows CLAIMABLE_SQL selects from. */
  predicate Claimable(rows: Table, id: Id, now: int) {
    && id in rows && Unsettled(rows[id])
    && rows[id].nextAttemptAt <= now
    && (rows[id].claimedUntil.None? || rows[id].claimedUntil.value <= now)
    && forall o :: o in rows && Older(rows[o], rows[id]) ==> !Unsettled(rows[o])
  }

  function Claimed(rows: Table, id: Id, publisher: string, until: int): Table
    requires id in rows
  {
    rows[id := rows[id].(claimedBy := Some(publisher), claimedUntil := Some(until))]
  }

  predicate Owned(rows: Table, id: Id, publisher: string) {
    id in rows && rows[id].claimedBy == Some(publisher)
  }

  function Unclaimed(m: Message): Message {
    m.(claimedBy := None, claimedUntil := None)
  }

  function Published(rows: Table, id: Id, publisher: string, at: int): Table {
    if Owned(rows, id, publisher) then rows[id := Unclaimed(rows[id]).(publishedAt := Some(at))] else rows
  }

  function Abandoned(rows: Table, id: Id, publisher: string, at: int): Table {
    if Owned(rows, id, publisher) then rows[id := Unclaimed(rows[id]).(abandonedAt := Some(at))] else rows
  }

  function Rescheduled(rows: Table, id: Id, publisher: string, at: int): Table {
    if Owned(rows, id, publisher)
    then rows[id := Unclaimed(rows[id]).(attempts := rows[id].attempts + 1, nextAttemptAt := at)]
    else rows
  }

  /** What a failed send does: one more attempt later, or none ever again. */
  function Refused(rows: Table, claim: OutboxClaim, publisher: string, now: int, jitter: Backoff.Jitter): Table {
    if claim.attempts + 1 >= MAX_ATTEMPTS then Abandoned(rows, claim.id, publisher, now)
    else Rescheduled(rows, claim.id, publisher, now + BackoffMs(claim.attempts + 1, jitter))
  }

  /** outbox-claim.repository.ts over its table. */
  class OutboxClaimRepository {
    var rows: Table

    constructor ()
      ensures rows == map[]
    {
      rows := map[];
    }

    method Enqueue(events: seq<Event>, now: int)
      requires forall i :: 0 <= i < |events| ==> events[i].eventId !in rows
      requires forall i, j :: 0 <= i < j < |events| ==> events[i].eventId != events[j].eventId
      modifies this
      ensures rows.Keys == old(rows).Keys + set i | 0 <= i < |events| :: events[i].eventId
      ensures forall id :: id in old(rows) ==> rows[id] == old(rows)[id]
      ensures forall i :: 0 <= i < |events| ==> events[i].eventId in rows && rows[events[i].eventId] == NewMessage(events[i], now)
    {
      var i := 0;
      while i < |events|
        invariant 0 <= i <= |events|
        invariant rows.Keys == old(rows).Keys + set j | 0 <= j < i :: events[j].eventId
        invariant forall id :: id in old(rows) ==> rows[id] == old(rows)[id]
        invariant forall j :: 0 <= j < i ==> events[j].eventId in rows && rows[events[j].eventId] == NewMessage(events[j], now)
      {
        rows := rows[events[i].eventId := NewMessage(events[i], now)];
        i := i + 1;
      }
    }

    /**
     * The oldest claimable row that no other claim has locked. While the claim scans it skips
     * locked rows, so with a lock held elsewhere it may take a younger one, of another group.
     */
    method Claim(publisher: string, now: int, leaseUntil: int, locked: set<Id>) returns (claim: Option<OutboxClaim>)
      requires forall id :: id in rows ==> rows[id].id == id
      modifies this
      ensures claim.None? ==> rows == old(rows) && forall id :: Claimable(rows, id, now) ==> id in locked
      ensures claim.Some? ==>
                var id := claim.value.id;
                && Claimable(old(rows), id, now) && id !in locked
                && claim.value.attempts == old(rows)[id].attempts
                && rows == Claimed(old(rows), id, publisher, leaseUntil)
                && forall o :: Claimable(old(rows), o, now) && o !in locked ==> !Before(old(rows)[o], old(rows)[id])
    {
      var best: Option<Id> := None;
      var ids := rows.Keys;
      while ids != {}
        invariant ids <= rows.Keys && rows == old(rows)
        invariant best.None? ==> forall id :: id !in ids && Claimable(rows, id, now) ==> id in locked
        invariant best.Some? ==>
                    && Claimable(rows, best.value, now) && best.value !in locked
                    && forall o :: o !in ids && Claimable(rows, o, now) && o !in locked ==> !Before(rows[o], rows[best.value])
        decreases |ids|
      {
        var id :| id in ids;
        if Claimable(rows, id, now) && id !in locked && (best.None? || Before(rows[id], rows[best.value])) {
          best := Some(id);
        }
        ids := ids - {id};
      }
      if best.None? {
        return None;
      }
      claim := Some(OutboxClaim(best.value, rows[best.value].attempts));
      rows := Claimed(rows, best.value, publisher, leaseUntil);
    }

    method MarkPublished(id: Id, publisher: string, at: int) returns (marked: bool)
      modifies this
      ensures marked <==> Owned(old(rows), id, publisher)
      ensures rows == Published(old(rows), id, publisher, at)
    {
      if id !in rows || rows[id].claimedBy != Some(publisher) {
        return false;
      }
      rows := rows[id := rows[id].(publishedAt := Some(at), claimedBy := None, claimedUntil := None)];
      return true;
    }

    method Abandon(id: Id, publisher: string, at: int) returns (abandoned: bool)
      modifies this
      ensures abandoned <==> Owned(old(rows), id, publisher)
      ensures rows == Abandoned(old(rows), id, publisher, at)
    {
      if id !in rows || rows[id].claimedBy != Some(publisher) {
        return false;
      }
      rows := rows[id := rows[id].(abandonedAt := Some(at), claimedBy := None, claimedUntil := None)];
      return true;
    }

    method Reschedule(id: Id, publisher: string, nextAttemptAt: int) returns (rescheduled: bool)
      modifies this
      ensures rescheduled <==> Owned(old(rows), id, publisher)
      ensures rows == Rescheduled(old(rows), id, publisher, nextAttemptAt)
    {
      if id !in rows || rows[id].claimedBy != Some(publisher) {
        return false;
      }
      rows := rows[id := rows[id].(attempts := rows[id].attempts + 1, nextAttemptAt := nextAttemptAt,
                                   claimedBy := None, claimedUntil := None)];
      return true;
    }
  }

  datatype PublishOutcome = PublishedOk | RetryScheduled | AbandonedNow | LeaseLost

  /** The end of run, once the send has returned or thrown: meanwhile others may have used the table. */
  method Complete(
    repository: OutboxClaimRepository, claim: OutboxClaim, publisher: string, sent: bool, now: int, jitter: Backoff.Jitter)
    returns (outcome: PublishOutcome)
    modifies repository
    ensures repository.rows ==
            if sent then Published(old(repository.rows), claim.id, publisher, now)
            else Refused(old(repository.rows), claim, publisher, now, jitter)
    ensures outcome.LeaseLost? <==> !Owned(old(repository.rows), claim.id, publisher)
    ensures outcome.PublishedOk? <==> sent && Owned(old(repository.rows), claim.id, publisher)
    ensures outcome.AbandonedNow? <==>
            !sent && claim.attempts + 1 >= MAX_ATTEMPTS && Owned(old(repository.rows), claim.id, publisher)
  {
    if !sent {
      if claim.attempts + 1 >= MAX_ATTEMPTS {
        var abandoned := repository.Abandon(claim.id, publisher, now);
        return if abandoned then AbandonedNow else LeaseLost;
      }
      var rescheduled := repository.Reschedule(claim.id, publisher, now + BackoffMs(claim.attempts + 1, jitter));
      return if rescheduled then RetryScheduled else LeaseLost;
    }
    var marked := repository.MarkPublished(claim.id, publisher, now);
    return if marked then PublishedOk else LeaseLost;
  }
}
