/** A lookup by identity finds the one row that carries it. */
module Lookups {
  import opened Wrappers
  import opened Domain
  import opened Store
  import opened Decisions
  import opened Invariants
  import opened Preservation
  import opened Machine

  lemma RowIsNamed(db: Db, id: Id)
    requires RowsOk(db) && id in db.wagers
    ensures db.wagers[id].id == id
  {
  }

  lemma FreshIsUnused(db: Db, n: nat)
    requires Fresh(db, n)
    ensures forall id :: id in db.wagers ==> id.operation != n
  {
  }

  lemma KeyIsUnique(wagers: map<Id, Wager>, id: Id, providerId: string, key: string)
    requires IdentitiesOk(wagers) && id in wagers && IsKey(wagers[id], providerId, key)
    ensures FindByIdempotencyKey(wagers, providerId, key) == Some(wagers[id])
  {
    var found := FindByIdempotencyKey(wagers, providerId, key);
    if found.Some? {
      var other :| other in wagers && wagers[other] == found.value && IsKey(found.value, providerId, key);
      assert Collide(wagers[other].order, wagers[id].order);
    }
  }

  lemma ExternalIsUnique(wagers: map<Id, Wager>, id: Id, providerId: string, externalId: string)
    requires IdentitiesOk(wagers) && id in wagers && IsExternal(wagers[id], providerId, externalId)
    ensures FindByExternalId(wagers, providerId, externalId) == Some(wagers[id])
  {
    var found := FindByExternalId(wagers, providerId, externalId);
    if found.Some? {
      var other :| other in wagers && wagers[other] == found.value && IsExternal(found.value, providerId, externalId);
      assert Collide(wagers[other].order, wagers[id].order);
    }
  }

  /** The reserved row collides with no other, so every lookup by identity is still unique. */
  lemma ReservedIdentities(db: Db, t: Wager)
    requires IdentitiesOk(db.wagers) && IdentityFree(db.wagers, t)
    ensures IdentitiesOk(Visible(db, t))
  {
    forall a, b | a in Visible(db, t) && b in Visible(db, t) && Collide(Visible(db, t)[a].order, Visible(db, t)[b].order)
      ensures a == b
    {
      if a in db.wagers && b in db.wagers {
        assert a != t.id && b != t.id;
      }
    }
  }

  /** A slot only moves under the lock of its wallet. */
  lemma SlotNeedsWallet(db: Db, e: Effect, n: nat, r: Id)
    requires LinksOk(db.wagers) && SlotsOk(db.wagers) && Admissible(db, e, n) && r in db.wagers
    requires e.movement.Some? ==> e.row.order.walletId != db.wagers[r].order.walletId
    ensures HasActiveReversal(Apply(db, e).wagers, r) == HasActiveReversal(db.wagers, r)
  {
    SlotAfter(db, e, n, r);
    assert !Reverses(e.row, r);
    forall a | a in db.wagers && ActivelyReverses(db.wagers, a, r) ensures !Undoes(e.row, a) {
      assert LinkOk(db.wagers, db.wagers[a]);
    }
  }
}
