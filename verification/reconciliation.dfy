/** Reconciliation: the stored balance against the net of the wallet's ledger entries. */
module Reconciliation {
  import opened Wrappers
  import opened Domain
  import opened Store
  import opened Invariants
  import opened Preservation
  import opened Runs
  import opened States
  import opened Persistence

  datatype Report = Report(
    walletId: Id, stored: Cash, calculated: Cash, difference: Cash, consistent: bool, checkedEntries: nat)

  datatype ReconcileError = ResourceNotFound | OutOfRange

  function Amount(e: LedgerEntry): int {
    if e.direction.Credit? then e.money.cents else -e.money.cents
  }

  /** Credits minus debits. */
  function Net(es: seq<LedgerEntry>): int {
    if es == [] then 0 else Net(es[..|es| - 1]) + Amount(es[|es| - 1])
  }

  /** reconstructBalance: the sum is exact; only the result has to fit Money. */
  method ReconstructBalance(db: Database, walletId: Id) returns (net: int, entries: nat)
    ensures net == Net(Entries(db.ledger, walletId))
    ensures entries == |Entries(db.ledger, walletId)|
  {
    net, entries := 0, 0;
    var i := 0;
    while i < |db.ledger|
      invariant 0 <= i <= |db.ledger|
      invariant net == Net(Entries(db.ledger[..i], walletId))
      invariant entries == |Entries(db.ledger[..i], walletId)|
    {
      assert db.ledger[..i + 1] == db.ledger[..i] + [db.ledger[i]];
      EntriesAppend(db.ledger[..i], db.ledger[i], walletId);
      if db.ledger[i].walletId == walletId {
        net := net + Amount(db.ledger[i]);
        entries := entries + 1;
        assert Entries(db.ledger[..i + 1], walletId)[..entries - 1] == Entries(db.ledger[..i], walletId);
      } else {
        assert Entries(db.ledger[..i + 1], walletId) == Entries(db.ledger[..i], walletId);
      }
      i := i + 1;
    }
    assert db.ledger[..|db.ledger|] == db.ledger;
  }

  /** execute: it answers for every state of the tables, consistent or not, that Money can express. */
  method Reconcile(db: Database, walletId: Id) returns (r: Result<Report, ReconcileError>)
    ensures r == ReportOn(db.Value(), walletId)
  {
    var wallet := db.LockWallet(walletId);
    if wallet == null {
      return Failure(ResourceNotFound);
    }
    var net, entries := ReconstructBalance(db, walletId);
    if !FitsNumeric(net) {
      return Failure(OutOfRange);
    }
    var difference := wallet.balance.cents - net;
    if !FitsNumeric(difference) {
      return Failure(OutOfRange);
    }
    var currency := wallet.balance.currency;
    return Success(Report(wallet.id, wallet.balance, Cash(net, currency), Cash(difference, currency),
                          difference == 0, entries));
  }

  function ReportOn(db: Db, walletId: Id): Result<Report, ReconcileError> {
    if walletId !in db.wallets then Failure(ResourceNotFound)
    else
      var w := db.wallets[walletId];
      var net := Net(Entries(db.ledger, walletId));
      if !FitsNumeric(net) || !FitsNumeric(w.balance.cents - net) then Failure(OutOfRange)
      else Success(Report(w.id, w.balance, Cash(net, w.balance.currency),
                          Cash(w.balance.cents - net, w.balance.currency),
                          w.balance.cents == net, |Entries(db.ledger, walletId)|))
  }

  /** A chain of balanced entries that starts at zero nets to its end. */
  lemma {:induction false} ChainNets(es: seq<LedgerEntry>, end: int)
    requires Chained(es, end) && forall i :: 0 <= i < |es| ==> LedgerChecks(es[i])
    ensures Net(es) == end
    decreases |es|
  {
    if es != [] {
      var front := es[..|es| - 1];
      assert Chained(front, es[|es| - 1].before);
      ChainNets(front, es[|es| - 1].before);
    }
  }

  lemma EntriesAreChecked(db: Db, w: Id)
    requires LedgerOk(db)
    ensures forall k :: 0 <= k < |Entries(db.ledger, w)| ==> LedgerChecks(Entries(db.ledger, w)[k])
  {
    forall k | 0 <= k < |Entries(db.ledger, w)| ensures LedgerChecks(Entries(db.ledger, w)[k]) {
      EntriesMembers(db.ledger, w, k);
    }
  }

  /** In every committed state reconciliation answers, within Money's range, that nothing differs. */
  lemma AlwaysConsistent(db: Db, w: Id)
    requires Committed(db) && w in db.wallets
    ensures ReportOn(db, w) ==
            Success(Report(w, db.wallets[w].balance, db.wallets[w].balance, Cash(0, db.wallets[w].balance.currency),
                           true, |Entries(db.ledger, w)|))
  {
    CommittedIsGood(db);
    assert ChainsOk(db) && LedgerOk(db) && WalletsOk(db);
    hide Inv, Committed;
    EntriesAreChecked(db, w);
    ChainNets(Entries(db.ledger, w), db.wallets[w].balance.cents);
  }

  /** And it is not consistent by construction: a balance off by any amount is reported with that difference. */
  lemma EveryDriftIsReported(db: Db, w: Id, drift: int)
    requires Committed(db) && w in db.wallets && drift != 0 && FitsNumeric(drift)
    ensures var balance := db.wallets[w].balance;
            var drifted := db.(wallets := db.wallets[w := db.wallets[w].(balance := balance.(cents := balance.cents + drift))]);
            && ReportOn(drifted, w).Success? && !ReportOn(drifted, w).value.consistent
            && ReportOn(drifted, w).value.difference == Cash(drift, balance.currency)
            && ReportOn(drifted, w).value.stored == Cash(balance.cents + drift, balance.currency)
            && ReportOn(drifted, w).value.calculated == balance
  {
    AlwaysConsistent(db, w);
  }
}
