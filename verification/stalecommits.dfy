/**
 * A commit that is not the atomic operation: a REFUND looks its reference up, the BET it refers to
 * commits on another wallet, and the REFUND, which could now be refused, waits instead.
 */
module StaleCommits {
  import opened Wrappers
  import opened Domain
  import opened Store
  import opened Decisions
  import opened Invariants
  import opened Machine
  import opened Lookups
  import opened Interleaving
  import opened Serialization
  import opened Staleness
  import Payload

  function Refunding(): Command {
    Command("acme", "refund", "refund", "anna", WalletId(0), "round", "game", Refund, Cash(100, "USD"), Some("bet"), "", None)
  }

  function Betting(): Command {
    Command("acme", "bet", "bet", "bert", WalletId(1), "round", "game", Bet, Cash(100, "USD"), None, "", None)
  }

  function RefundJob(): Job { Submission(Refunding(), 10) }

  function BetJob(): Job { Submission(Betting(), 20) }

  function AnnasAccount(): WalletRow { WalletRow(WalletId(0), "anna", Cash(0, "USD"), 1, 0, 0) }

  function BertsAccount(): WalletRow { WalletRow(WalletId(1), "bert", Cash(100, "USD"), 1, 0, 0) }

  function OpenAnna(): Move { OpenWallet(0, CreateCommand("anna", Cash(0, "USD"), ""), 0) }

  function OpenBert(): Move { OpenWallet(1, CreateCommand("bert", Cash(100, "USD"), ""), 0) }

  function OneWallet(): Db {
    Empty().(wallets := map[WalletId(0) := AnnasAccount()])
  }

  function TwoWallets(): Db {
    Apply(OneWallet(), OpeningEffect(CreateCommand("bert", Cash(100, "USD"), ""), 0, 1))
  }

  function RefundRow(): Wager { Candidate(Refunding(), 10, 2) }

  function BetRow(): Wager { Candidate(Betting(), 20, 3) }

  function BetPlaced(): Effect {
    ProcessMove(BetRow(), None, BertsAccount(), Debit, 20, ContextOf(Betting(), 20, 3), 3)
  }

  function AfterBet(): Db { Apply(TwoWallets(), BetPlaced()) }

  function Begun(j: Job): Tx { Tx(j, None, None, None, None, None) }

  function RefundHasRow(): Tx { Begun(RefundJob()).(row := Some(RefundRow())) }

  function RefundHasWallet(): Tx { RefundHasRow().(wallet := Some(Some(AnnasAccount()))) }

  /** The lookup has found nothing. */
  function RefundHasLooked(): Tx { RefundHasWallet().(reference := Some(None)) }

  function BetHasRow(): Tx { Begun(BetJob()).(row := Some(BetRow())) }

  function BetHasWallet(): Tx { BetHasRow().(wallet := Some(Some(BertsAccount()))) }

  lemma WalletsOpen()
    ensures Enabled(Start(), OpenAnna()) && Next(Start(), OpenAnna()) == Sys(OneWallet(), map[])
    ensures Enabled(Sys(OneWallet(), map[]), OpenBert()) && Next(Sys(OneWallet(), map[]), OpenBert()) == Sys(TwoWallets(), map[])
  {
    hide Payload.PayloadHash;
  }

  lemma BertIsRich()
    ensures TwoWallets().wallets == map[WalletId(0) := AnnasAccount(), WalletId(1) := BertsAccount()]
    ensures TwoWallets().wagers.Keys == {WagerId(1)} && TwoWallets().wagers[WagerId(1)].order.providerId == INTERNAL_PROVIDER
    ensures Fresh(TwoWallets(), 2) && Fresh(TwoWallets(), 3)
    ensures "acme" != INTERNAL_PROVIDER
  {
    hide Payload.PayloadHash;
  }

  lemma RefundReserves()
    ensures Enabled(Sys(TwoWallets(), map[]), Begin(2, RefundJob()))
    ensures Next(Sys(TwoWallets(), map[]), Begin(2, RefundJob())) == Sys(TwoWallets(), map[2 := Begun(RefundJob())])
    ensures Enabled(Sys(TwoWallets(), map[2 := Begun(RefundJob())]), TakeRow(2))
    ensures Next(Sys(TwoWallets(), map[2 := Begun(RefundJob())]), TakeRow(2)) == Sys(TwoWallets(), map[2 := RefundHasRow()])
  {
    BertIsRich();
    hide Payload.PayloadHash, TwoWallets;
  }

  lemma RefundLooks()
    ensures Enabled(Sys(TwoWallets(), map[2 := RefundHasRow()]), LockWallet(2))
    ensures Next(Sys(TwoWallets(), map[2 := RefundHasRow()]), LockWallet(2)) == Sys(TwoWallets(), map[2 := RefundHasWallet()])
    ensures Enabled(Sys(TwoWallets(), map[2 := RefundHasWallet()]), ReadReference(2))
    ensures Next(Sys(TwoWallets(), map[2 := RefundHasWallet()]), ReadReference(2)) == Sys(TwoWallets(), map[2 := RefundHasLooked()])
  {
    BertIsRich();
    hide Payload.PayloadHash, TwoWallets;
    NothingThere();
    hide ReferenceOf;
  }

  /** No row carries the BET's external id yet; the REFUND's own is another. */
  lemma NothingThere()
    ensures ReferenceOf(TwoWallets(), RefundRow()).None?
  {
    BertIsRich();
    hide Payload.PayloadHash, TwoWallets;
    assert "bet" != "refund" by {
      assert |"bet"| != |"refund"|;
    }
    var visible := Visible(TwoWallets(), RefundRow());
    forall id | id in visible ensures !IsExternal(visible[id], "acme", "bet") {
      assert id == WagerId(1) || id == WagerId(2);
    }
  }

  lemma BetReserves()
    ensures var looked := Sys(TwoWallets(), map[2 := RefundHasLooked()]);
            var begun := Sys(TwoWallets(), map[2 := RefundHasLooked(), 3 := Begun(BetJob())]);
            && Enabled(looked, Begin(3, BetJob())) && Next(looked, Begin(3, BetJob())) == begun
            && Enabled(begun, TakeRow(3))
            && Next(begun, TakeRow(3)) == Sys(TwoWallets(), map[2 := RefundHasLooked(), 3 := BetHasRow()])
  {
    BertIsRich();
    hide Payload.PayloadHash, TwoWallets;
    assert "bet" != "refund" by {
      assert |"bet"| != |"refund"|;
    }
  }

  lemma BetCommits()
    ensures var reserved := Sys(TwoWallets(), map[2 := RefundHasLooked(), 3 := BetHasRow()]);
            var locked := Sys(TwoWallets(), map[2 := RefundHasLooked(), 3 := BetHasWallet()]);
            && Enabled(reserved, LockWallet(3)) && Next(reserved, LockWallet(3)) == locked
            && Enabled(locked, Commit(3)) && Next(locked, Commit(3)) == Sys(AfterBet(), map[2 := RefundHasLooked()])
  {
    BertIsRich();
    hide Payload.PayloadHash, TwoWallets;
    assert EffectOf(BetHasWallet(), 3) == BetPlaced();
    hide EffectOf, BetPlaced;
    assert Without(map[2 := RefundHasLooked(), 3 := BetHasWallet()], 3) == map[2 := RefundHasLooked()];
  }

  function Overlap(): seq<Move> {
    [OpenAnna()] + ([OpenBert()] + ([Begin(2, RefundJob())] + ([TakeRow(2)] + ([LockWallet(2)] + ([ReadReference(2)]
    + ([Begin(3, BetJob())] + ([TakeRow(3)] + ([LockWallet(3)] + ([Commit(3)] + [])))))))))
  }

  lemma OverlapHappens()
    ensures Reaches(Start(), Overlap(), Sys(AfterBet(), map[2 := RefundHasLooked()]))
  {
    WalletsOpen();
    RefundReserves();
    RefundLooks();
    BetReserves();
    BetCommits();
    hide Enabled, Next, OneWallet, TwoWallets, AfterBet, Begun, RefundHasRow, RefundHasWallet, RefundHasLooked;
    hide BetHasRow, BetHasWallet, RefundJob, BetJob, OpenAnna, OpenBert;
    var end := Sys(AfterBet(), map[2 := RefundHasLooked()]);
    var m9 := [Commit(3)] + [];
    var m8 := [LockWallet(3)] + m9;
    var m7 := [TakeRow(3)] + m8;
    var m6 := [Begin(3, BetJob())] + m7;
    var m5 := [ReadReference(2)] + m6;
    var m4 := [LockWallet(2)] + m5;
    var m3 := [TakeRow(2)] + m4;
    var m2 := [Begin(2, RefundJob())] + m3;
    var m1 := [OpenBert()] + m2;
    assert Reaches(end, [], end);
    FirstMove(Sys(TwoWallets(), map[2 := RefundHasLooked(), 3 := BetHasWallet()]), Commit(3), [], end);
    FirstMove(Sys(TwoWallets(), map[2 := RefundHasLooked(), 3 := BetHasRow()]), LockWallet(3), m9, end);
    FirstMove(Sys(TwoWallets(), map[2 := RefundHasLooked(), 3 := Begun(BetJob())]), TakeRow(3), m8, end);
    FirstMove(Sys(TwoWallets(), map[2 := RefundHasLooked()]), Begin(3, BetJob()), m7, end);
    FirstMove(Sys(TwoWallets(), map[2 := RefundHasWallet()]), ReadReference(2), m6, end);
    FirstMove(Sys(TwoWallets(), map[2 := RefundHasRow()]), LockWallet(2), m5, end);
    FirstMove(Sys(TwoWallets(), map[2 := Begun(RefundJob())]), TakeRow(2), m4, end);
    FirstMove(Sys(TwoWallets(), map[]), Begin(2, RefundJob()), m3, end);
    FirstMove(Sys(OneWallet(), map[]), OpenBert(), m2, end);
    FirstMove(Start(), OpenAnna(), m1, end);
  }

  lemma BetIsThereNow()
    requires IdentitiesOk(Visible(AfterBet(), RefundRow()))
    ensures Stale(AfterBet(), RefundHasLooked())
  {
    var bet := BetPlaced().row;
    assert bet.status.Processed? && bet.id == WagerId(3) && IsExternal(bet, "acme", "bet") by {
      hide Payload.PayloadHash;
    }
    hide Payload.PayloadHash, BetPlaced, TwoWallets, IdentitiesOk;
    assert WagerId(3) in Visible(AfterBet(), RefundRow()) && Visible(AfterBet(), RefundRow())[WagerId(3)] == bet;
    ExternalIsUnique(Visible(AfterBet(), RefundRow()), WagerId(3), "acme", "bet");
  }

  lemma RefundMayCommit()
    ensures Enabled(Sys(AfterBet(), map[2 := RefundHasLooked()]), Commit(2))
  {
    hide Payload.PayloadHash, AfterBet;
  }

  /** The service reaches a state in which a commit is not the atomic submission. */
  lemma StaleCommitHappens()
    ensures exists moves: seq<Move>, s: Sys, n: nat ::
              && Reaches(Start(), moves, s) && Enabled(s, Commit(n)) && s.txs[n].job.Submission?
              && Next(s, Commit(n)).db != Submit(s.db, s.txs[n].job.command, s.txs[n].job.now, n).0
  {
    var s := Sys(AfterBet(), map[2 := RefundHasLooked()]);
    hide SysOk, Next, Submit, Stale, AfterBet, Overlap, TxOk, Enabled, Payload.PayloadHash;
    OverlapHappens();
    StartIsOk();
    InterleavingKeepsOk(Start(), Overlap(), s);
    RefundMayCommit();
    CommitHolds(s, 2);
    assert IdentitiesOk(s.db.wagers) by {
      SysIdentities(s);
    }
    OwnIdentities(s.db, s.txs[2], 2);
    BetIsThereNow();
    ReversalCommitsAtomicallyIff(s, 2);
    assert Reaches(Start(), Overlap(), s) && Enabled(s, Commit(2));
  }

  lemma SysIdentities(s: Sys)
    requires SysOk(s)
    ensures IdentitiesOk(s.db.wagers)
  {
    hide TxOk, Apart;
  }
}
