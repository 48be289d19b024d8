/**
 * The business payload and its hash. SHA-256 is taken as injective, so the hash is the
 * canonical text that would be hashed.
 */
module Payload {
  import opened Wrappers
  import opened Domain
  import opened Store
  import opened Canonical
  import opened Moneys

  datatype BusinessPayload = BusinessPayload(
    providerId: string,
    externalId: string,
    playerId: string,
    walletId: Id,
    roundId: string,
    gameId: string,
    kind: Kind,
    money: Cash,
    referenceExternalId: Option<string>)

  function KindText(k: Kind): string {
    match k
    case Opening => "OPENING"
    case Bet => "BET"
    case Win => "WIN"
    case Loss => "LOSS"
    case Refund => "REFUND"
    case Rollback => "ROLLBACK"
  }

  /** The record payloadHashOf fills, in the order it fills it. */
  function Fields(p: BusinessPayload): seq<Member> {
    [Member("providerId", Str(p.providerId)),
     Member("externalTransactionId", Str(p.externalId)),
     Member("playerId", Str(p.playerId)),
     Member("walletId", Str(IdText(p.walletId))),
     Member("roundId", Str(p.roundId)),
     Member("gameId", Str(p.gameId)),
     Member("kind", Str(KindText(p.kind))),
     Member("amount", Str(ToString(MoneyOf(p.money)))),
     Member("currency", Str(p.money.currency))]
    + if p.referenceExternalId.Some?
      then [Member("referenceExternalTransactionId", Str(p.referenceExternalId.value))] else []
  }

  function PayloadHash(p: BusinessPayload): string {
    Canonicalize(Obj(Fields(p)))
  }

  lemma KindTextInjective(a: Kind, b: Kind)
    requires KindText(a) == KindText(b)
    ensures a == b
  {
  }

  lemma FieldsAreWellFormed(p: BusinessPayload)
    ensures WellFormed(Obj(Fields(p))) && Distinct(Fields(p), MemberKey)
  {
    var fs := Fields(p);
    assert forall i, j :: 0 <= i < j < |fs| ==> fs[i].key != fs[j].key;
  }

  lemma KeysLineUp(p: BusinessPayload, q: BusinessPayload, i: nat)
    requires i < |Fields(p)| && i < |Fields(q)|
    ensures Fields(p)[i].key == Fields(q)[i].key
  {
  }

  lemma {:induction false} FoundAt(m: Member, others: seq<Member>) returns (j: nat)
    requires Found(m, others)
    ensures j < |others| && m.key == others[j].key && Same(m.value, others[j].value)
    decreases |others|
  {
    if m.key == others[0].key && Same(m.value, others[0].value) {
      j := 0;
    } else {
      var k := FoundAt(m, others[1..]);
      j := k + 1;
    }
  }

  lemma {:induction false} EachFound(members: seq<Member>, others: seq<Member>, i: nat)
    requires AllFound(members, others) && i < |members|
    ensures Found(members[i], others)
    decreases |members|
  {
    if i > 0 {
      EachFound(members[1..], others, i - 1);
    }
  }

  /** Two records with the same members fill every field alike: no two of their keys coincide. */
  lemma SameFields(p: BusinessPayload, q: BusinessPayload)
    requires Same(Obj(Fields(p)), Obj(Fields(q)))
    ensures Fields(p) == Fields(q)
  {
    var fs := Fields(p);
    var gs := Fields(q);
    FieldsAreWellFormed(p);
    forall i | 0 <= i < |fs| ensures fs[i] == gs[i] {
      hide Fields;
      EachFound(fs, gs, i);
      var j := FoundAt(fs[i], gs);
      KeysLineUp(p, q, j);
      assert MemberKey(fs[i]) == MemberKey(fs[j]);
      StringsAgree(p, q, i);
    }
  }

  lemma StringsAgree(p: BusinessPayload, q: BusinessPayload, i: nat)
    requires i < |Fields(p)| && i < |Fields(q)| && Same(Fields(p)[i].value, Fields(q)[i].value)
    ensures Fields(p)[i] == Fields(q)[i]
  {
    KeysLineUp(p, q, i);
    assert Fields(p)[i].value.Str?;
  }

  /** The record determines the payload, field by field. */
  lemma FieldsDetermine(p: BusinessPayload, q: BusinessPayload)
    requires Fields(p) == Fields(q)
    ensures p.providerId == q.providerId && p.externalId == q.externalId && p.playerId == q.playerId
    ensures IdText(p.walletId) == IdText(q.walletId) && p.roundId == q.roundId && p.gameId == q.gameId
    ensures KindText(p.kind) == KindText(q.kind) && ToString(MoneyOf(p.money)) == ToString(MoneyOf(q.money))
    ensures p.money.currency == q.money.currency && p.referenceExternalId == q.referenceExternalId
  {
    hide IdText, KindText, ToString, MoneyOf;
    var fs := Fields(p);
    var gs := Fields(q);
    assert fs[0] == gs[0] && fs[1] == gs[1] && fs[2] == gs[2] && fs[3] == gs[3] && fs[4] == gs[4];
    assert fs[5] == gs[5] && fs[6] == gs[6] && fs[7] == gs[7] && fs[8] == gs[8];
    assert |fs| == 10 ==> fs[9] == gs[9];
  }

  predicate CanBePrinted(p: BusinessPayload) {
    InRange(MoneyOf(p.money))
  }

  /** Equal hashes mean equal payloads: every business field is covered, and none can pass for another. */
  lemma PayloadHashInjective(p: BusinessPayload, q: BusinessPayload)
    requires CanBePrinted(p) && CanBePrinted(q)
    ensures PayloadHash(p) == PayloadHash(q) <==> p == q
  {
    if PayloadHash(p) == PayloadHash(q) {
      hide Fields, Canonicalize, Same, WellFormed, IdText, KindText, ToString;
      FieldsAreWellFormed(p);
      FieldsAreWellFormed(q);
      CanonicalizeIsCanonical(Obj(Fields(p)), Obj(Fields(q)));
      SameFields(p, q);
      FieldsDetermine(p, q);
      IdTextInjective(p.walletId, q.walletId);
      KindTextInjective(p.kind, q.kind);
      ToStringInjective(MoneyOf(p.money), MoneyOf(q.money));
    }
  }
}
