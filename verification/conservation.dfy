/**
 * Conservation of money: the balance is always the opening amount plus the WINs and minus
 * the BETs that no active reversal cancels, however often a slot is filled and reopened.
 */
module Conservation {
  import opened Wrappers
  import opened Domain
  import opened Store
  import opened Decisions
  import opened Invariants
  import opened Preservation
  import opened Sums

  /** A ROLLBACK is never a reference, so an undone reversal stays undone. */
  lemma UndoneIsReversed(wagers: map<Id, Wager>, a: Id)
    requires LinksOk(wagers)
    ensures Undone(wagers, a) ==> HasActiveReversal(wagers, a)
  {
    if Undone(wagers, a) {
      var u :| u in wagers && Undoes(wagers[u], a);
      forall v | v in wagers ensures !Undoes(wagers[v], u) {
        assert wagers[v].referenceId.Some? ==> LinkOk(wagers, wagers[v]);
      }
      assert ActivelyReverses(wagers, u, a);
    }
  }

  lemma RootShape(wagers: map<Id, Wager>, t: Wager)
    requires LinksOk(wagers) && LinkStep(wagers, t) && AppliesReversal(t)
    ensures RootOf(wagers, t).Some? && RootOf(wagers, t).value in wagers
    ensures var root := wagers[RootOf(wagers, t).value];
            && root.status.Processed? && (root.order.kind.Bet? || root.order.kind.Win?)
            && root.order.walletId == t.order.walletId && root.order.money.cents == t.order.money.cents
    ensures wagers[t.referenceId.value].order.kind.Refund? ==>
              wagers[RootOf(wagers, t).value].order.kind.Bet? && t.order.kind.Rollback?
  {
    var r := wagers[t.referenceId.value];
    if r.order.kind.Refund? {
      assert t.referenceId.value in wagers && LinkOk(wagers, r);
    }
  }

  /** The commit flips the slot of the root, and no other slot of a BET or a WIN. */
  lemma SlotFlips(db: Db, e: Effect, n: nat, y: Id)
    requires LinksOk(db.wagers) && SlotsOk(db.wagers) && Admissible(db, e, n)
    requires y in db.wagers && (db.wagers[y].order.kind.Bet? || db.wagers[y].order.kind.Win?)
    ensures AppliesReversal(e.row) && RootOf(db.wagers, e.row) == Some(y) ==>
              && HasActiveReversal(db.wagers, y) == db.wagers[e.row.referenceId.value].order.kind.Refund?
              && HasActiveReversal(Apply(db, e).wagers, y) != HasActiveReversal(db.wagers, y)
    ensures !(AppliesReversal(e.row) && RootOf(db.wagers, e.row) == Some(y)) ==>
              HasActiveReversal(Apply(db, e).wagers, y) == HasActiveReversal(db.wagers, y)
  {
    var w := db.wagers;
    SlotAfter(db, e, n, y);
    if AppliesReversal(e.row) {
      var r := e.row.referenceId.value;
      UndoneIsReversed(w, r);
      if w[r].order.kind.Refund? && w[r].referenceId == Some(y) {
        assert ActivelyReverses(w, r, y);
      }
      forall a | a in w && ActivelyReverses(w, a, y) && Undoes(e.row, a) ensures a == r && w[a].order.kind.Refund? {
        assert LinkOk(w, e.row);
      }
    }
  }

  lemma {:induction false} SumOfNothing(s: set<Id>, f: Id -> int)
    requires forall x :: x in s ==> f(x) == 0
    ensures Sum(s, f) == 0
    decreases |s|
  {
    if s != {} {
      var x :| x in s;
      SumSplit(s, f, x);
      SumOfNothing(s - {x}, f);
    }
  }

  /** No row is applied to a wallet that does not exist yet. */
  lemma NothingBeforeOpening(db: Db, w: Id)
    requires RowsOk(db) && w !in db.wallets
    ensures Sum(db.wagers.Keys, Contributions(db.wagers, w)) == 0
  {
    SumOfNothing(db.wagers.Keys, Contributions(db.wagers, w));
  }

  /** The written row has no reversal of its own: links lead to processed rows only. */
  lemma WrittenRowUnreversed(db: Db, e: Effect, n: nat)
    requires LinksOk(db.wagers) && SlotsOk(db.wagers) && Admissible(db, e, n)
    ensures !HasActiveReversal(Apply(db, e).wagers, e.row.id)
  {
    SlotAfter(db, e, n, e.row.id);
    forall a | a in db.wagers ensures !Reverses(db.wagers[a], e.row.id) {
      NotReferenced(db, e, n, a);
    }
  }

  lemma ContributionElsewhere(db: Db, e: Effect, n: nat, w: Id, y: Id)
    requires LinksOk(db.wagers) && SlotsOk(db.wagers) && Admissible(db, e, n)
    requires y in db.wagers && y != e.row.id && RootOf(db.wagers, e.row) != Some(y)
    ensures Contribution(Apply(db, e).wagers, w, y) == Contribution(db.wagers, w, y)
  {
    if db.wagers[y].order.kind.Bet? || db.wagers[y].order.kind.Win? {
      SlotFlips(db, e, n, y);
    }
  }

  /** The contribution of the root moves by exactly the money the reversal moves. */
  lemma RootMoves(db: Db, e: Effect, n: nat, w: Id)
    requires LinksOk(db.wagers) && SlotsOk(db.wagers) && Admissible(db, e, n) && AppliesReversal(e.row)
    ensures RootOf(db.wagers, e.row).Some?
    ensures var root := RootOf(db.wagers, e.row).value;
            Contribution(Apply(db, e).wagers, w, root) - Contribution(db.wagers, w, root) ==
            if w == e.row.order.walletId then Signed(db.wagers, e.row) else 0
  {
    hide LinksOk, SlotsOk, HasActiveReversal;
    RootShape(db.wagers, e.row);
    SlotFlips(db, e, n, RootOf(db.wagers, e.row).value);
  }

  lemma RowContribution(db: Db, e: Effect, n: nat, w: Id)
    requires LinksOk(db.wagers) && SlotsOk(db.wagers) && Admissible(db, e, n)
    ensures Contribution(db.wagers, w, e.row.id) == 0
    ensures Contribution(Apply(db, e).wagers, w, e.row.id) ==
            if w == e.row.order.walletId && e.row.status.Processed? && !RequiresReference(e.row.order.kind)
            then Signed(db.wagers, e.row) else 0
  {
    WrittenRowUnreversed(db, e, n);
  }

  lemma ReversalContributes(db: Db, e: Effect, n: nat, w: Id)
    requires LinksOk(db.wagers) && SlotsOk(db.wagers) && Admissible(db, e, n) && AppliesReversal(e.row)
    ensures Contribution(Apply(db, e).wagers, w, e.row.id) == 0
    ensures e.row.status.Processed?
  {
  }

  lemma ContributionsAgree(db: Db, e: Effect, n: nat, w: Id)
    requires LinksOk(db.wagers) && SlotsOk(db.wagers) && Admissible(db, e, n)
    ensures forall y :: y in db.wagers && y != e.row.id && RootOf(db.wagers, e.row) != Some(y) ==>
              Contributions(Apply(db, e).wagers, w)(y) == Contributions(db.wagers, w)(y)
  {
    forall y | y in db.wagers && y != e.row.id && RootOf(db.wagers, e.row) != Some(y)
      ensures Contribution(Apply(db, e).wagers, w, y) == Contribution(db.wagers, w, y)
    {
      ContributionElsewhere(db, e, n, w, y);
    }
  }

  lemma RootIsOld(db: Db, e: Effect, n: nat)
    requires LinksOk(db.wagers) && Admissible(db, e, n)
    ensures AppliesReversal(e.row) ==>
              && RootOf(db.wagers, e.row).Some?
              && RootOf(db.wagers, e.row).value in db.wagers && RootOf(db.wagers, e.row).value != e.row.id
    ensures !AppliesReversal(e.row) ==> RootOf(db.wagers, e.row).None?
    ensures e.row.status.Processed? && RequiresReference(e.row.order.kind) ==> AppliesReversal(e.row)
  {
    if AppliesReversal(e.row) {
      RootShape(db.wagers, e.row);
    }
  }

  /** The sum of all contributions moves by the money the commit moves. */
  lemma ContributionsMove(db: Db, e: Effect, n: nat, w: Id)
    requires LinksOk(db.wagers) && SlotsOk(db.wagers) && Admissible(db, e, n)
    ensures Sum(Apply(db, e).wagers.Keys, Contributions(Apply(db, e).wagers, w)) ==
            Sum(db.wagers.Keys, Contributions(db.wagers, w))
            + if w == e.row.order.walletId && e.row.status.Processed? then Signed(db.wagers, e.row) else 0
  {
    hide Admissible, LinksOk, SlotsOk, Contribution, AppliesReversal, RootOf, Signed;
    var f := Contributions(db.wagers, w);
    var g := Contributions(Apply(db, e).wagers, w);
    assert Apply(db, e).wagers.Keys == db.wagers.Keys + {e.row.id};
    RowContribution(db, e, n, w);
    ContributionsAgree(db, e, n, w);
    RootIsOld(db, e, n);
    if AppliesReversal(e.row) {
      RootMoves(db, e, n, w);
      ReversalContributes(db, e, n, w);
      SumWriteTwo(db.wagers.Keys, f, g, e.row.id, RootOf(db.wagers, e.row).value);
    } else {
      SumWrite(db.wagers.Keys, f, g, e.row.id);
    }
  }

  /** The balance moves by the same amount. */
  lemma BalanceMoves(db: Db, e: Effect, n: nat, w: Id)
    requires MoveStep(db, e, n) && e.row.status.Processed? && w in Apply(db, e).wallets
    ensures Apply(db, e).wallets[w].balance.cents ==
            (if w in db.wallets then db.wallets[w].balance.cents else 0)
            + if w == e.row.order.walletId then Signed(db.wagers, e.row) else 0
  {
  }

  lemma BalanceStays(db: Db, e: Effect, n: nat)
    requires MoveStep(db, e, n) && !e.row.status.Processed?
    ensures Apply(db, e).wallets == db.wallets
  {
  }

  lemma KeepsNet(db: Db, e: Effect, n: nat)
    requires RowsOk(db) && LinksOk(db.wagers) && SlotsOk(db.wagers) && NetOk(db) && Admissible(db, e, n)
    ensures NetOk(Apply(db, e))
  {
    var db' := Apply(db, e);
    assert MoveStep(db, e, n);
    forall w | w in db'.wallets
      ensures db'.wallets[w].balance.cents == Sum(db'.wagers.Keys, Contributions(db'.wagers, w))
    {
      hide LinksOk, SlotsOk, RowsOk, Admissible, MoveStep, Apply, Contributions, Signed, Sum;
      ContributionsMove(db, e, n, w);
      if w !in db.wallets {
        NothingBeforeOpening(db, w);
      }
      if e.row.status.Processed? {
        BalanceMoves(db, e, n, w);
      } else {
        BalanceStays(db, e, n);
      }
    }
  }

  // ---------- the reversal trees ----------

  /** A commit rewrites no processed row, so roots and directions stay what they were. */
  lemma RootStays(db: Db, e: Effect, n: nat, t: Wager)
    requires RowStep(db, e.row, n) && t.status.Processed?
    requires t.referenceId.Some? ==> LinkOk(db.wagers, t)
    ensures RootOf(Apply(db, e).wagers, t) == RootOf(db.wagers, t)
    ensures Signed(Apply(db, e).wagers, t) == Signed(db.wagers, t)
  {
    if t.referenceId.Some? {
      assert t.referenceId.value != e.row.id;
    }
  }

  /** Rows already committed stay in their trees, worth what they were. */
  lemma TreeElsewhere(db: Db, e: Effect, n: nat, b: Id, y: Id)
    requires LinksOk(db.wagers) && RowStep(db, e.row, n) && y in db.wagers && y != e.row.id
    ensures TreeMoney(Apply(db, e).wagers, b)(y) == TreeMoney(db.wagers, b)(y)
  {
    hide RowStep, RootOf, Signed, LinkOk;
    if db.wagers[y].status.Processed? {
      RootStays(db, e, n, db.wagers[y]);
    }
  }

  lemma WrittenTreeMoney(db: Db, e: Effect, n: nat, b: Id)
    requires RowStep(db, e.row, n) && LinkStep(db.wagers, e.row)
    ensures TreeMoney(db.wagers, b)(e.row.id) == 0
    ensures TreeMoney(Apply(db, e).wagers, b)(e.row.id) ==
            if InTree(db.wagers, b, e.row) then Signed(db.wagers, e.row) else 0
  {
    if e.row.status.Processed? {
      RootStays(db, e, n, e.row);
    }
  }

  lemma TreeMoneyMoves(db: Db, e: Effect, n: nat, b: Id)
    requires LinksOk(db.wagers) && RowStep(db, e.row, n) && LinkStep(db.wagers, e.row)
    ensures Sum(Apply(db, e).wagers.Keys, TreeMoney(Apply(db, e).wagers, b)) ==
            Sum(db.wagers.Keys, TreeMoney(db.wagers, b))
            + if InTree(db.wagers, b, e.row) then Signed(db.wagers, e.row) else 0
  {
    hide RowsOk, LinksOk, RowStep, LinkStep, InTree, Signed, TreeMoney, Sum;
    var f := TreeMoney(db.wagers, b);
    var g := TreeMoney(Apply(db, e).wagers, b);
    forall y | y in db.wagers && y != e.row.id ensures f(y) == g(y) {
      TreeElsewhere(db, e, n, b, y);
    }
    assert Apply(db, e).wagers.Keys == db.wagers.Keys + {e.row.id};
    WrittenTreeMoney(db, e, n, b);
    SumWrite(db.wagers.Keys, f, g, e.row.id);
  }

  /** A row that is not processed yet has no tree. */
  lemma NoTreeBefore(db: Db, e: Effect, n: nat)
    requires RowsOk(db) && LinksOk(db.wagers) && Admissible(db, e, n)
    ensures Sum(db.wagers.Keys, TreeMoney(db.wagers, e.row.id)) == 0
  {
    forall y | y in db.wagers ensures TreeMoney(db.wagers, e.row.id)(y) == 0 {
      var t := db.wagers[y];
      if AppliesReversal(t) {
        assert LinkOk(db.wagers, t);
        RootIsProcessed(db.wagers, t);
      }
    }
    SumOfNothing(db.wagers.Keys, TreeMoney(db.wagers, e.row.id));
  }

  lemma RootIsProcessed(wagers: map<Id, Wager>, t: Wager)
    requires LinksOk(wagers) && AppliesReversal(t) && LinkOk(wagers, t)
    ensures RootOf(wagers, t).Some? && RootOf(wagers, t).value in wagers
    ensures wagers[RootOf(wagers, t).value].status.Processed?
  {
    var r := wagers[t.referenceId.value];
    if r.order.kind.Refund? {
      assert t.referenceId.value in wagers && LinkOk(wagers, r);
    }
  }

  /** A reversal is worth what its root's tree has to change by. */
  lemma ReversalSettlesTree(db: Db, e: Effect, n: nat, b: Id)
    requires LinksOk(db.wagers) && SlotsOk(db.wagers) && Admissible(db, e, n)
    requires b in db.wagers && IsRoot(db.wagers[b]) && b != e.row.id
    ensures (if HasActiveReversal(Apply(db, e).wagers, b) then 0 else Signed(db.wagers, db.wagers[b]))
            == (if HasActiveReversal(db.wagers, b) then 0 else Signed(db.wagers, db.wagers[b]))
               + if InTree(db.wagers, b, e.row) then Signed(db.wagers, e.row) else 0
  {
    SlotFlips(db, e, n, b);
    if AppliesReversal(e.row) {
      RootShape(db.wagers, e.row);
    }
  }

  lemma StepParts(db: Db, e: Effect, n: nat)
    requires Admissible(db, e, n)
    ensures RowStep(db, e.row, n) && LinkStep(db.wagers, e.row)
  {
    hide RowStep, LinkStep;
  }

  /** The tree that the written row starts. */
  lemma NewTreeOk(db: Db, e: Effect, n: nat)
    requires RowsOk(db) && LinksOk(db.wagers) && SlotsOk(db.wagers) && Admissible(db, e, n)
    requires IsRoot(Apply(db, e).wagers[e.row.id])
    ensures TreeOk(Apply(db, e).wagers, e.row.id)
  {
    hide RowsOk, LinksOk, SlotsOk, Admissible, RowStep, LinkStep, InTree, Sum, HasActiveReversal, TreeMoney;
    StepParts(db, e, n);
    TreeMoneyMoves(db, e, n, e.row.id);
    DirectionStays(db, e, n, e.row);
    NoTreeBefore(db, e, n);
    WrittenRowUnreversed(db, e, n);
    RootInOwnTree(db, e.row);
  }

  /** A tree that was there before. */
  lemma OldTreeOk(db: Db, e: Effect, n: nat, b: Id)
    requires RowsOk(db) && LinksOk(db.wagers) && SlotsOk(db.wagers) && Admissible(db, e, n)
    requires b in db.wagers && b != e.row.id && IsRoot(db.wagers[b]) && TreeOk(db.wagers, b)
    ensures TreeOk(Apply(db, e).wagers, b)
  {
    hide RowsOk, LinksOk, SlotsOk, Admissible, RowStep, LinkStep, InTree, Sum, HasActiveReversal, TreeMoney;
    StepParts(db, e, n);
    TreeMoneyMoves(db, e, n, b);
    DirectionStays(db, e, n, db.wagers[b]);
    ReversalSettlesTree(db, e, n, b);
  }

  lemma KeepsTrees(db: Db, e: Effect, n: nat)
    requires RowsOk(db) && LinksOk(db.wagers) && SlotsOk(db.wagers) && TreesOk(db.wagers) && Admissible(db, e, n)
    ensures TreesOk(Apply(db, e).wagers)
  {
    hide RowsOk, LinksOk, SlotsOk, Admissible, TreeOk;
    var w' := Apply(db, e).wagers;
    forall b | b in w' && IsRoot(w'[b]) ensures TreeOk(w', b) {
      if b == e.row.id {
        NewTreeOk(db, e, n);
      } else {
        OldTreeOk(db, e, n, b);
      }
    }
  }

  lemma RootInOwnTree(db: Db, t: Wager)
    ensures IsRoot(t) ==> InTree(db.wagers, t.id, t)
  {
  }

  /** A BET or a WIN is worth the same before and after the commit. */
  lemma DirectionStays(db: Db, e: Effect, n: nat, t: Wager)
    ensures t.order.kind.Bet? || t.order.kind.Win? ==> Signed(Apply(db, e).wagers, t) == Signed(db.wagers, t)
  {
  }
}
