/**
 * The tables and their repositories. A write states as its precondition the CHECKs, keys and
 * triggers the database would raise on, so a use case that verifies never trips one.
 */
module Persistence {
  import opened Wrappers
  import opened Domain
  import opened Store
  import opened Invariants
  import opened Machine
  import opened Entities
  import Lookups

  class Database {
    var wallets: map<Id, WalletRow>
    var wagers: map<Id, Wager>
    var ledger: seq<LedgerEntry>
    var outbox: seq<Event>
    var inbox: map<InboxKey, InboxRow>

    function Value(): Db
      reads this
    {
      Db(wallets, wagers, ledger, outbox, inbox)
    }

    constructor ()
      ensures Value() == Empty()
    {
      wallets, wagers, ledger, outbox, inbox := map[], map[], [], [], map[];
    }

    /** Rolling back to the state a transaction started from. */
    method Restore(db: Db)
      modifies this
      ensures Value() == db
    {
      wallets, wagers, ledger, outbox, inbox := db.wallets, db.wagers, db.ledger, db.outbox, db.inbox;
    }

    // ---------- wager_transaction ----------

    /** INSERT ... ON CONFLICT DO NOTHING: either identity, or the id, makes the writer the loser. */
    method ReserveWager(t: WagerTransaction) returns (owned: Result<bool, Error>)
      requires t.status.Pending?
      modifies this`wagers
      ensures owned.Success? <==> WagerChecks(t.State())
      ensures owned.Failure? ==> owned.error == ConstraintViolated
      ensures owned.Success? ==> (owned.value <==> IdentityFree(old(wagers), t.State()))
      ensures wagers == if owned == Success(true) then old(wagers)[t.id := t.State()] else old(wagers)
    {
      if !WagerChecks(t.State()) {
        return Failure(ConstraintViolated);
      }
      if t.id in wagers {
        return Success(false);
      }
      var ids := wagers.Keys;
      while ids != {}
        invariant ids <= wagers.Keys && wagers == old(wagers)
        invariant forall id :: id in wagers && id !in ids ==>
                    !SameKey(wagers[id].order, t.order) && !SameExternal(wagers[id].order, t.order)
        decreases |ids|
      {
        var id :| id in ids;
        if SameKey(wagers[id].order, t.order) || SameExternal(wagers[id].order, t.order) {
          return Success(false);
        }
        ids := ids - {id};
      }
      wagers := wagers[t.id := t.State()];
      return Success(true);
    }

    method FindByIdempotencyKey(providerId: string, key: string) returns (r: WagerTransaction?)
      requires IdentitiesOk(wagers)
      ensures r == null <==> Store.FindByIdempotencyKey(wagers, providerId, key).None?
      ensures r != null ==> fresh(r) && Store.FindByIdempotencyKey(wagers, providerId, key) == Some(r.State())
    {
      var ids := wagers.Keys;
      while ids != {}
        invariant ids <= wagers.Keys
        invariant forall id :: id in wagers && id !in ids ==> !IsKey(wagers[id], providerId, key)
        decreases |ids|
      {
        var id :| id in ids;
        if IsKey(wagers[id], providerId, key) {
          r := new WagerTransaction.Rehydrate(wagers[id]);
          Lookups.KeyIsUnique(wagers, id, providerId, key);
          return;
        }
        ids := ids - {id};
      }
      r := null;
    }

    method FindByExternalId(providerId: string, externalId: string) returns (r: WagerTransaction?)
      requires IdentitiesOk(wagers)
      ensures r == null <==> Store.FindByExternalId(wagers, providerId, externalId).None?
      ensures r != null ==> fresh(r) && Store.FindByExternalId(wagers, providerId, externalId) == Some(r.State())
    {
      var ids := wagers.Keys;
      while ids != {}
        invariant ids <= wagers.Keys
        invariant forall id :: id in wagers && id !in ids ==> !IsExternal(wagers[id], providerId, externalId)
        decreases |ids|
      {
        var id :| id in ids;
        if IsExternal(wagers[id], providerId, externalId) {
          r := new WagerTransaction.Rehydrate(wagers[id]);
          Lookups.ExternalIsUnique(wagers, id, providerId, externalId);
          return;
        }
        ids := ids - {id};
      }
      r := null;
    }

    /**
     * FOR UPDATE SKIP LOCKED over the due rows, oldest attempt first: the least due row that no
     * other worker has locked, or nothing when there is none.
     */
    method LockDuePendingReference(now: int, locked: set<Id>) returns (r: WagerTransaction?)
      requires RowsOk(Value())
      ensures r == null <==> forall id :: id in wagers && id !in locked ==> !Due(Value(), id, now)
      ensures r != null ==> fresh(r) && r.id !in locked && Due(Value(), r.id, now) && wagers[r.id] == r.State()
      ensures r != null ==>
                forall id :: id in wagers && id !in locked && Due(Value(), id, now) ==>
                  && wagers[id].nextAttemptAt.Some? && r.nextAttemptAt.Some?
                  && (r.nextAttemptAt.value < wagers[id].nextAttemptAt.value
                      || (r.nextAttemptAt == wagers[id].nextAttemptAt && !IdBefore(id, r.id)))
    {
      var best: Option<Id> := None;
      var ids := wagers.Keys;
      while ids != {}
        invariant ids <= wagers.Keys
        invariant best.None? ==> forall id :: id in wagers && id !in ids && id !in locked ==> !Due(Value(), id, now)
        invariant best.Some? ==> best.value in wagers && best.value !in locked && Due(Value(), best.value, now)
        invariant best.Some? ==>
                    forall id :: id in wagers && id !in ids && id !in locked && Due(Value(), id, now) ==>
                      !Sooner(wagers[id], wagers[best.value])
        decreases |ids|
      {
        var id :| id in ids;
        if id !in locked && Due(Value(), id, now) && (best.None? || Sooner(wagers[id], wagers[best.value])) {
          best := Some(id);
        }
        ids := ids - {id};
      }
      if best.None? {
        return null;
      }
      r := new WagerTransaction.Rehydrate(wagers[best.value]);
    }

    /** wager_transaction_guard, wager_reversal_guard, every CHECK and both foreign keys. */
    method UpdateWager(t: WagerTransaction)
      requires UpdateWagerAllowed(Value(), t.State())
      modifies this`wagers
      ensures wagers == old(wagers)[t.id := t.State()]
    {
      wagers := wagers[t.id := t.State()];
    }

    // ---------- wallet ----------

    method LockWallet(id: Id) returns (w: Wallet?)
      ensures w == null <==> id !in wallets
      ensures w != null ==> fresh(w) && w.State() == wallets[id]
    {
      if id !in wallets {
        return null;
      }
      w := new Wallet.Rehydrate(wallets[id]);
    }

    /** The blind update: no version is compared. */
    method UpdateWallet(w: Wallet)
      requires UpdateWalletAllowed(Value(), w.State())
      modifies this`wallets
      ensures wallets == old(wallets)[w.id := w.State()]
    {
      wallets := wallets[w.id := w.State()];
    }

    method InsertWalletIfAbsent(row: WalletRow) returns (created: bool)
      requires WalletChecks(row)
      modifies this`wallets
      ensures created <==> WalletFree(old(Value()), row)
      ensures wallets == if created then old(wallets)[row.id := row] else old(wallets)
    {
      if row.id in wallets || exists id :: id in wallets && SameOwner(wallets[id], row) {
        return false;
      }
      wallets := wallets[row.id := row];
      return true;
    }

    method FindByPlayerAndCurrency(playerId: string, currency: string) returns (r: Option<Id>)
      requires forall a, b :: a in wallets && b in wallets && SameOwner(wallets[a], wallets[b]) ==> a == b
      ensures r == FindWallet(Value(), playerId, currency)
    {
      var ids := wallets.Keys;
      while ids != {}
        invariant ids <= wallets.Keys
        invariant forall id :: id in wallets && id !in ids ==>
                    wallets[id].playerId != playerId || wallets[id].balance.currency != currency
        decreases |ids|
      {
        var id :| id in ids;
        if wallets[id].playerId == playerId && wallets[id].balance.currency == currency {
          ghost var found := FindWallet(Value(), playerId, currency);
          assert found.Some? && SameOwner(wallets[found.value], wallets[id]);
          return Some(id);
        }
        ids := ids - {id};
      }
      return None;
    }

    // ---------- wallet_ledger_entry, outbox_message ----------

    method InsertEntry(e: LedgerEntry)
      requires InsertLedgerAllowed(Value(), e)
      modifies this`ledger
      ensures ledger == old(ledger) + [e]
    {
      ledger := ledger + [e];
    }

    /** outbox_event_id_uq */
    method Enqueue(events: seq<Event>)
      requires forall i, j :: 0 <= i < |outbox| && 0 <= j < |events| ==> outbox[i].eventId != events[j].eventId
      requires forall i, j :: 0 <= i < j < |events| ==> events[i].eventId != events[j].eventId
      modifies this`outbox
      ensures outbox == old(outbox) + events
    {
      outbox := outbox + events;
    }

    // ---------- inbox_message ----------

    method ReserveMessage(key: InboxKey, payloadHash: string, receivedAt: int) returns (owned: bool)
      modifies this`inbox
      ensures owned <==> key !in old(inbox)
      ensures inbox == if owned then old(inbox)[key := InboxRow(payloadHash, receivedAt, None)] else old(inbox)
    {
      if key in inbox {
        return false;
      }
      inbox := inbox[key := InboxRow(payloadHash, receivedAt, None)];
      return true;
    }

    /** inbox_processed_after_received_ck refuses a clock that ran backwards. */
    method MarkMessageProcessed(key: InboxKey, processedAt: int) returns (r: Outcome<Error>)
      requires key in inbox && inbox[key].processedAt.None?
      modifies this`inbox
      ensures r == if processedAt < old(inbox)[key].receivedAt then Fail(ConstraintViolated) else Pass
      ensures inbox ==
              if r.Pass? then old(inbox)[key := old(inbox)[key].(processedAt := Some(processedAt))] else old(inbox)
    {
      if processedAt < inbox[key].receivedAt {
        return Fail(ConstraintViolated);
      }
      inbox := inbox[key := inbox[key].(processedAt := Some(processedAt))];
      return Pass;
    }
  }

  /** ORDER BY next_attempt_at, id. */
  predicate Sooner(a: Wager, b: Wager) {
    a.nextAttemptAt.Some? && b.nextAttemptAt.Some? &&
    (a.nextAttemptAt.value < b.nextAttemptAt.value
     || (a.nextAttemptAt.value == b.nextAttemptAt.value && IdBefore(a.id, b.id)))
  }
}
