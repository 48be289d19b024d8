/**
 * Exactly-once under duplication: history is append-only, a replay answers with the stored
 * outcome for ever, and a run with duplicates and conflicts moves the same money as the
 * run with only the submissions whose identities were fresh.
 */
module Idempotency {
  import opened Wrappers
  import opened Domain
  import opened Store
  import opened Decisions
  import opened Invariants
  import opened Commits
  import opened Machine
  import opened Runs
  import opened Lookups
  import Backoff
  import Payload

  // ---------- the life of a row ----------

  /** Rows are never removed or renamed, terminal rows never change, waiting rows only settle. */
  ghost predicate Extends(before: Db, after: Db) {
    forall id :: id in before.wagers ==>
      && id in after.wagers
      && after.wagers[id].order == before.wagers[id].order
      && (IsTerminal(before.wagers[id].status) ==> after.wagers[id] == before.wagers[id])
  }

  lemma ApplyExtends(db: Db, e: Effect, n: nat)
    requires Admissible(db, e, n)
    ensures Extends(db, Apply(db, e))
  {
  }

  lemma SubmitExtends(db: Db, c: Command, now: int, n: nat)
    requires Inv(db) && Fresh(db, n)
    ensures Extends(db, Submit(db, c, now, n).0)
  {
    hide Inv, Fresh, Admissible, SubmissionEffect, Apply;
    if SubmitFailure(c).None? && IdentityFree(db.wagers, Candidate(c, now, n)) {
      SubmitAdmissible(db, c, now, n);
      ApplyExtends(db, SubmissionEffect(db, c, now, n), n);
    }
  }

  lemma CreateExtends(db: Db, c: CreateCommand, now: int, n: nat)
    requires Inv(db) && Fresh(db, n)
    ensures Extends(db, CreateWallet(db, c, now, n).0)
  {
    hide Admissible, OpeningEffect, Apply, Fresh;
    var money := c.initialBalance;
    if 0 < money.cents <= MAX_CENTS && IsCurrency(money.currency) && WalletFree(db, NewWallet(c, now, n)) {
      OpeningAdmissible(db, c, now, n);
      ApplyExtends(db, OpeningEffect(c, now, n), n);
    }
  }

  lemma StepExtends(db: Db, op: Op)
    requires Inv(db) && Fresh(db, op.n)
    ensures Extends(db, Step(db, op))
  {
    hide Inv, Admissible, Fresh, Submit, CreateWallet, TickEffect, DecideFailure, Apply;
    match op.action
    case Creates(c, now) => CreateExtends(db, c, now, op.n);
    case Submits(c, now) => SubmitExtends(db, c, now, op.n);
    case Consumes(d, c, at) =>
      SubmitIgnoresInbox(db, db.inbox[d.key := InboxRow(d.payloadHash, at.receivedAt, None)], c, at.now, op.n);
      SubmitExtends(db, c, at.now, op.n);
    case Ticks(id, now, jitter) =>
      if Due(db, id, now) {
        TickEffectAdmissible(db, id, now, jitter, op.n);
        ApplyExtends(db, TickEffect(db, id, now, jitter, op.n), op.n);
      }
    case Fails(id, now) =>
      if id in db.wagers && db.wagers[id].status.PendingReference? {
        FailEffectAdmissible(db, id, now, op.n);
        ApplyExtends(db, DecideFailure(db.wagers[id], db.wallets[db.wagers[id].order.walletId], now, op.n), op.n);
      }
  }

  /** Statuses only move from waiting to one terminal status, in every run. */
  lemma {:induction false} HistoryIsAppendOnly(db: Db, ops: seq<Op>)
    requires Inv(db) && Numbered(db, ops)
    ensures Extends(db, Run(db, ops))
    decreases |ops|
  {
    if ops != [] {
      StepExtends(db, ops[0]);
      StepKeepsInv(db, ops[0]);
      StepKeepsNumbered(db, ops);
      HistoryIsAppendOnly(Step(db, ops[0]), ops[1..]);
    }
  }

  /**
   * A settled operation answers every later replay alike: same id, status, failure code and
   * historical balance, whatever the run in between did to the wallet; and the replay writes nothing.
   */
  lemma ReplayIsStable(db: Db, ops: seq<Op>, id: Id, c: Command, now: int, n: nat)
    requires Inv(db) && Numbered(db, ops)
    requires id in db.wagers && IsTerminal(db.wagers[id].status)
    requires SubmitFailure(c).None? && SameKey(db.wagers[id].order, OrderOf(c, now))
    requires db.wagers[id].order.payloadHash == OrderOf(c, now).payloadHash
    ensures Submit(Run(db, ops), c, now, n) == (Run(db, ops), Success(ResultOf(db.wagers[id], true)))
  {
    var later := Run(db, ops);
    HistoryIsAppendOnly(db, ops);
    RunKeepsInv(db, ops);
    KeyIsUnique(later.wagers, id, c.providerId, c.idempotencyKey);
    assert !IdentityFree(later.wagers, Candidate(c, now, n)) by {
      assert SameKey(later.wagers[id].order, Candidate(c, now, n).order);
    }
  }

  // ---------- duplicates and conflicts change nothing ----------

  /** Everything a run writes except the inbox. */
  function Finances(db: Db): Db {
    db.(inbox := map[])
  }

  /** The identities a run has used up so far, read off the operations alone. */
  datatype Used = Used(keys: map<(string, string), string>, externals: set<(string, string)>, messages: set<InboxKey>)

  function KeyOf(c: Command): (string, string) { (c.providerId, c.idempotencyKey) }

  function ExternalOf(c: Command): (string, string) { (c.providerId, c.externalId) }

  predicate IsNew(used: Used, c: Command) {
    SubmitFailure(c).None? && KeyOf(c) !in used.keys && ExternalOf(c) !in used.externals
  }

  predicate IsReplay(used: Used, c: Command) {
    SubmitFailure(c).None? && KeyOf(c) in used.keys && used.keys[KeyOf(c)] == OrderOf(c, 0).payloadHash
  }

  predicate Answers(used: Used, d: Delivery, at: Instants) {
    d.key !in used.messages && at.processedAt >= at.receivedAt
  }

  function Using(used: Used, c: Command): Used {
    Used(used.keys[KeyOf(c) := OrderOf(c, 0).payloadHash], used.externals + {ExternalOf(c)}, used.messages)
  }

  function UsedAfter(used: Used, a: Action): Used {
    match a
    case Submits(c, _) => if IsNew(used, c) then Using(used, c) else used
    case Consumes(d, c, at) =>
      if !Answers(used, d, at) then used
      else if IsNew(used, c) then Using(used, c).(messages := used.messages + {d.key})
      else if IsReplay(used, c) then used.(messages := used.messages + {d.key})
      else used
    case _ => used
  }

  /** The operations left when duplicates and conflicts are dropped and deliveries become submissions. */
  function Kept(used: Used, ops: seq<Op>): seq<Op>
    decreases |ops|
  {
    if ops == [] then []
    else
      var rest := Kept(UsedAfter(used, ops[0].action), ops[1..]);
      match ops[0].action
      case Submits(c, _) => if IsNew(used, c) then [ops[0]] + rest else rest
      case Consumes(d, c, at) =>
        if Answers(used, d, at) && IsNew(used, c) then [Op(ops[0].n, Submits(c, at.now))] + rest else rest
      case _ => [ops[0]] + rest
  }

  predicate Recorded(used: Used, o: Order) {
    && (o.providerId, o.idempotencyKey) in used.keys
    && used.keys[(o.providerId, o.idempotencyKey)] == o.payloadHash
    && (o.providerId, o.externalId) in used.externals
  }

  predicate KeyTaken(wagers: map<Id, Wager>, k: (string, string)) {
    exists id :: id in wagers && IsKey(wagers[id], k.0, k.1)
  }

  predicate ExternalTaken(wagers: map<Id, Wager>, x: (string, string)) {
    exists id :: id in wagers && IsExternal(wagers[id], x.0, x.1)
  }

  /** The tables hold exactly the identities used so far; openings have a provider of their own. */
  ghost predicate Tracks(db: Db, used: Used) {
    && (forall id :: id in db.wagers && !db.wagers[id].order.kind.Opening? ==> Recorded(used, db.wagers[id].order))
    && (forall k :: k in used.keys ==> KeyTaken(db.wagers, k))
    && (forall x :: x in used.externals ==> ExternalTaken(db.wagers, x))
    && (forall m :: m in db.inbox <==> m in used.messages)
  }

  lemma TakenMeansNotFree(wagers: map<Id, Wager>, c: Command, now: int, n: nat)
    requires KeyTaken(wagers, KeyOf(c)) || ExternalTaken(wagers, ExternalOf(c))
    ensures !IdentityFree(wagers, Candidate(c, now, n))
  {
    var t := Candidate(c, now, n);
    if KeyTaken(wagers, KeyOf(c)) {
      var id :| id in wagers && IsKey(wagers[id], KeyOf(c).0, KeyOf(c).1);
      assert SameKey(wagers[id].order, t.order);
    } else {
      var id :| id in wagers && IsExternal(wagers[id], ExternalOf(c).0, ExternalOf(c).1);
      assert SameExternal(wagers[id].order, t.order);
    }
  }

  lemma NewMeansFree(db: Db, used: Used, c: Command, now: int, n: nat)
    requires OpeningsOk(db) && Fresh(db, n) && Tracks(db, used) && SubmitFailure(c).None?
    ensures IsNew(used, c) <==> IdentityFree(db.wagers, Candidate(c, now, n))
  {
    hide IdentityFree;
    if IsNew(used, c) {
      NewIsFree(db, used, c, now, n);
    } else {
      TakenMeansNotFree(db.wagers, c, now, n);
    }
  }

  lemma NewIsFree(db: Db, used: Used, c: Command, now: int, n: nat)
    requires OpeningsOk(db) && Fresh(db, n) && Tracks(db, used) && IsNew(used, c)
    ensures IdentityFree(db.wagers, Candidate(c, now, n))
  {
    var t := Candidate(c, now, n);
    forall id | id in db.wagers
      ensures !SameKey(db.wagers[id].order, t.order) && !SameExternal(db.wagers[id].order, t.order)
    {
      assert OpeningOk(db.wallets, db.wagers[id].order);
      if !db.wagers[id].order.kind.Opening? {
        assert Recorded(used, db.wagers[id].order);
      }
    }
  }

  /** The key lookup finds the recorded hash, or nothing when the key is unused. */
  lemma KeyLookup(db: Db, used: Used, c: Command)
    requires OpeningsOk(db) && Tracks(db, used) && SubmitFailure(c).None?
    ensures var found := FindByIdempotencyKey(db.wagers, c.providerId, c.idempotencyKey);
            && (found.Some? <==> KeyOf(c) in used.keys)
            && (found.Some? ==> used.keys[KeyOf(c)] == found.value.order.payloadHash)
  {
    var found := FindByIdempotencyKey(db.wagers, c.providerId, c.idempotencyKey);
    if found.Some? {
      var id :| id in db.wagers && db.wagers[id] == found.value && IsKey(found.value, c.providerId, c.idempotencyKey);
      assert OpeningOk(db.wallets, db.wagers[id].order);
      assert Recorded(used, db.wagers[id].order);
    }
    if KeyOf(c) in used.keys {
      assert KeyTaken(db.wagers, KeyOf(c));
    }
  }

  /** A submission that is not new succeeds exactly when it replays. */
  lemma ReplayMeansSuccess(db: Db, used: Used, c: Command, now: int, n: nat)
    requires OpeningsOk(db) && Tracks(db, used) && SubmitFailure(c).None?
    requires !IdentityFree(db.wagers, Candidate(c, now, n))
    ensures Submit(db, c, now, n).1.Success? <==> IsReplay(used, c)
  {
    hide OpeningsOk, Tracks, IdentityFree;
    KeyLookup(db, used, c);
  }

  // ---------- one step ----------

  lemma TakenGrows(wagers: map<Id, Wager>, row: Wager)
    requires row.id in wagers ==> wagers[row.id].order == row.order
    ensures forall k :: KeyTaken(wagers, k) ==> KeyTaken(wagers[row.id := row], k)
    ensures forall x :: ExternalTaken(wagers, x) ==> ExternalTaken(wagers[row.id := row], x)
    ensures KeyTaken(wagers[row.id := row], (row.order.providerId, row.order.idempotencyKey))
    ensures ExternalTaken(wagers[row.id := row], (row.order.providerId, row.order.externalId))
  {
    var w' := wagers[row.id := row];
    forall k | KeyTaken(wagers, k) ensures KeyTaken(w', k) {
      var id :| id in wagers && IsKey(wagers[id], k.0, k.1);
      assert id in w' && IsKey(w'[id], k.0, k.1);
    }
    forall x | ExternalTaken(wagers, x) ensures ExternalTaken(w', x) {
      var id :| id in wagers && IsExternal(wagers[id], x.0, x.1);
      assert id in w' && IsExternal(w'[id], x.0, x.1);
    }
    assert row.id in w' && IsKey(w'[row.id], row.order.providerId, row.order.idempotencyKey);
    assert IsExternal(w'[row.id], row.order.providerId, row.order.externalId);
  }

  /** A commit that inserts no submission leaves the used identities alone. */
  lemma OldRowTracks(db: Db, used: Used, e: Effect)
    requires Tracks(db, used)
    requires if e.row.id in db.wagers then db.wagers[e.row.id].order == e.row.order else e.row.order.kind.Opening?
    ensures Tracks(Apply(db, e), used)
  {
    TakenGrows(db.wagers, e.row);
    hide KeyTaken, ExternalTaken, Recorded;
  }

  lemma NewRowTracks(db: Db, used: Used, e: Effect, c: Command, now: int)
    requires Tracks(db, used) && IdentityFree(db.wagers, e.row) && e.row.order == OrderOf(c, now)
    ensures Tracks(Apply(db, e), Using(used, c))
  {
    hide Payload.PayloadHash;
    TakenGrows(db.wagers, e.row);
    var w' := Apply(db, e).wagers;
    var used' := Using(used, c);
    forall id | id in w' && !w'[id].order.kind.Opening? ensures Recorded(used', w'[id].order) {
      if id != e.row.id {
        assert Recorded(used, db.wagers[id].order) && !SameKey(db.wagers[id].order, e.row.order);
      }
    }
    hide KeyTaken, ExternalTaken, Recorded, IdentityFree;
  }

  /** A submission answers, and uses identities up, exactly as the operations alone foretell. */
  lemma SubmitTracks(db: Db, used: Used, c: Command, now: int, n: nat)
    requires Inv(db) && Fresh(db, n) && Tracks(db, used)
    ensures Submit(db, c, now, n).1.Success? <==> IsNew(used, c) || IsReplay(used, c)
    ensures !IsNew(used, c) ==> Submit(db, c, now, n).0 == db
    ensures Tracks(Submit(db, c, now, n).0, if IsNew(used, c) then Using(used, c) else used)
  {
    hide Inv, Tracks, IdentityFree, SubmissionEffect, Admissible, Apply, Using, ResolveExisting;
    assert OpeningsOk(db) by {
      GoodParts(db);
    }
    if SubmitFailure(c).None? {
      NewMeansFree(db, used, c, now, n);
      if IsNew(used, c) {
        SubmissionRow(db, c, now, n);
        NewRowTracks(db, used, SubmissionEffect(db, c, now, n), c, now);
      } else {
        ReplayMeansSuccess(db, used, c, now, n);
      }
    }
  }

  lemma GoodParts(db: Db)
    requires Inv(db)
    ensures OpeningsOk(db) && RowsOk(db) && IdentitiesOk(db.wagers)
  {
  }

  /** The decision writes the candidate's own row. */
  lemma SubmissionRow(db: Db, c: Command, now: int, n: nat)
    requires IdentityFree(db.wagers, Candidate(c, now, n))
    ensures SubmissionEffect(db, c, now, n).row.id == WagerId(n)
    ensures SubmissionEffect(db, c, now, n).row.order == OrderOf(c, now)
    ensures IdentityFree(db.wagers, SubmissionEffect(db, c, now, n).row)
  {
    hide ReadsFor;
  }

  lemma MessageTracks(db: Db, used: Used, inbox: map<InboxKey, InboxRow>, key: InboxKey)
    requires Tracks(db, used) && inbox.Keys == db.inbox.Keys + {key}
    ensures Tracks(db.(inbox := inbox), used.(messages := used.messages + {key}))
  {
    hide KeyTaken, ExternalTaken;
  }

  /** A delivery with a fresh message is the submission plus one processed inbox row, or nothing. */
  lemma ConsumeIsSubmit(db: Db, d: Delivery, c: Command, at: Instants, n: nat)
    ensures Consume(db, d, c, at, n).0 ==
            if d.key in db.inbox || at.processedAt < at.receivedAt || Submit(db, c, at.now, n).1.Failure? then db
            else
              var after := Submit(db, c, at.now, n).0;
              after.(inbox := after.inbox[d.key := InboxRow(d.payloadHash, at.receivedAt, Some(at.processedAt))])
  {
    hide Submit;
    SubmitIgnoresInbox(db, db.inbox[d.key := InboxRow(d.payloadHash, at.receivedAt, None)], c, at.now, n);
  }

  /** What a delivery does to the money: one submission if it is answered and new, else nothing. */
  lemma ConsumeStep(db: Db, used: Used, d: Delivery, c: Command, at: Instants, n: nat)
    requires Inv(db) && Fresh(db, n) && Tracks(db, used)
    ensures Finances(Consume(db, d, c, at, n).0) ==
            if Answers(used, d, at) && IsNew(used, c) then Finances(Submit(db, c, at.now, n).0) else Finances(db)
    ensures Tracks(Consume(db, d, c, at, n).0, UsedAfter(used, Consumes(d, c, at)))
  {
    hide Inv, Fresh, Tracks, Submit, Consume, IsNew, IsReplay, Using;
    MessagesTracked(db, used, d.key);
    ConsumeIsSubmit(db, d, c, at, n);
    if Answers(used, d, at) {
      SubmitTracks(db, used, c, at.now, n);
      var after := Submit(db, c, at.now, n).0;
      var row := InboxRow(d.payloadHash, at.receivedAt, Some(at.processedAt));
      var used' := if IsNew(used, c) then Using(used, c) else used;
      MessageTracks(after, used', after.inbox[d.key := row], d.key);
      UsingKeepsMessages(used, c);
    }
  }

  lemma MessagesTracked(db: Db, used: Used, key: InboxKey)
    requires Tracks(db, used)
    ensures key in db.inbox <==> key in used.messages
  {
  }

  lemma UsingKeepsMessages(used: Used, c: Command)
    ensures Using(used, c).messages == used.messages
  {
  }

  lemma CreateIgnoresInbox(db: Db, inbox: map<InboxKey, InboxRow>, c: CreateCommand, now: int, n: nat)
    ensures CreateWallet(db.(inbox := inbox), c, now, n).0 == CreateWallet(db, c, now, n).0.(inbox := inbox)
  {
    hide OpeningEffect, FindWallet;
  }

  lemma TickIgnoresInbox(db: Db, inbox: map<InboxKey, InboxRow>, id: Id, now: int, jitter: Backoff.Jitter, n: nat)
    ensures Tick(db.(inbox := inbox), id, now, jitter, n) == Tick(db, id, now, jitter, n).(inbox := inbox)
  {
    if id in db.wagers {
      assert ReadsFor(db.(inbox := inbox), db.wagers[id]) == ReadsFor(db, db.wagers[id]);
    }
    hide ReadsFor, ReferenceOf, DecideTick;
  }

  lemma StepIgnoresInbox(db: Db, inbox: map<InboxKey, InboxRow>, op: Op)
    requires !op.action.Consumes?
    ensures Finances(Step(db.(inbox := inbox), op)) == Finances(Step(db, op))
  {
    hide CreateWallet, Submit, Tick, DecideFailure;
    match op.action
    case Creates(c, now) => CreateIgnoresInbox(db, inbox, c, now, op.n);
    case Submits(c, now) => SubmitIgnoresInbox(db, inbox, c, now, op.n);
    case Ticks(id, now, jitter) => TickIgnoresInbox(db, inbox, id, now, jitter, op.n);
    case Fails(id, now) =>
  }

  lemma OtherStepTracks(db: Db, used: Used, op: Op)
    requires Inv(db) && Fresh(db, op.n) && Tracks(db, used)
    requires op.action.Creates? || op.action.Ticks? || op.action.Fails?
    ensures Tracks(Step(db, op), used)
  {
    hide Inv, Fresh, Admissible, Recorded, KeyTaken, ExternalTaken, Tracks, TickEffect, DecideFailure, Apply, RowsOk;
    hide IdentitiesOk, OpeningsOk, Payload.PayloadHash;
    FreshIsUnused(db, op.n);
    GoodParts(db);
    match op.action
    case Creates(c, now) =>
      OldRowTracks(db, used, OpeningEffect(c, now, op.n));
      EmptyWalletTracks(db, used, NewWallet(c, now, op.n));
    case Ticks(id, now, jitter) =>
      if Due(db, id, now) {
        TickEffectAdmissible(db, id, now, jitter, op.n);
        TickRow(db, id, now, jitter, op.n);
        OldRowTracks(db, used, TickEffect(db, id, now, jitter, op.n));
      }
    case Fails(id, now) =>
      if id in db.wagers && db.wagers[id].status.PendingReference? {
        RowIsNamed(db, id);
        FailEffectAdmissible(db, id, now, op.n);
        FailedKeepsOrder(db.wagers[id], db.wallets[db.wagers[id].order.walletId], now, op.n);
        OldRowTracks(db, used, DecideFailure(db.wagers[id], db.wallets[db.wagers[id].order.walletId], now, op.n));
      }
  }

  lemma EmptyWalletTracks(db: Db, used: Used, w: WalletRow)
    requires Tracks(db, used)
    ensures Tracks(db.(wallets := db.wallets[w.id := w]), used)
  {
    hide Recorded, KeyTaken, ExternalTaken;
  }

  lemma FailedKeepsOrder(t: Wager, w: WalletRow, now: int, n: nat)
    ensures DecideFailure(t, w, now, n).row.id == t.id && DecideFailure(t, w, now, n).row.order == t.order
  {
  }

  lemma TickKeepsOrder(t: Wager, first: Option<Wager>, r: Reads, now: int, jitter: Backoff.Jitter, n: nat)
    ensures var row := DecideTick(t, first, r, now, jitter, n).row;
            row.id == t.id && row.order == t.order
  {
  }

  lemma TickRow(db: Db, id: Id, now: int, jitter: Backoff.Jitter, n: nat)
    requires Inv(db) && Due(db, id, now)
    ensures var row := TickEffect(db, id, now, jitter, n).row;
            row.id == id && row.order == db.wagers[id].order
  {
    GoodParts(db);
    hide Inv, ReadsFor, DecideTick;
    TickKeepsOrder(db.wagers[id], ReferenceOf(db, db.wagers[id]), ReadsFor(db, db.wagers[id]), now, jitter, n);
  }

  /** The operation the filter keeps for this one, if any. */
  function KeptOp(used: Used, op: Op): Option<Op> {
    match op.action
    case Submits(c, _) => if IsNew(used, c) then Some(op) else None
    case Consumes(d, c, at) =>
      if Answers(used, d, at) && IsNew(used, c) then Some(Op(op.n, Submits(c, at.now))) else None
    case _ => Some(op)
  }

  lemma KeptStep(db: Db, used: Used, op: Op)
    requires Inv(db) && Fresh(db, op.n) && Tracks(db, used)
    ensures Finances(Step(db, op)) ==
            if KeptOp(used, op).Some? then Finances(Step(db, KeptOp(used, op).value)) else Finances(db)
    ensures Tracks(Step(db, op), UsedAfter(used, op.action))
  {
    hide Inv, Fresh, Tracks, Submit, Consume, CreateWallet, Tick, RecordFailure, IsNew, Using, Answers;
    match op.action
    case Submits(c, now) => SubmitTracks(db, used, c, now, op.n);
    case Consumes(d, c, at) => ConsumeStep(db, used, d, c, at, op.n);
    case _ => OtherStepTracks(db, used, op);
  }

  lemma KeptUnfold(used: Used, ops: seq<Op>)
    requires ops != []
    ensures Kept(used, ops) ==
            (if KeptOp(used, ops[0]).Some? then [KeptOp(used, ops[0]).value] else [])
            + Kept(UsedAfter(used, ops[0].action), ops[1..])
  {
  }

  /**
   * Running any list of operations leaves the same wallets, wagers, ledger and outbox as running
   * only those whose submissions were new, told from the operations alone.
   */
  lemma {:induction false} DuplicatesChangeNothing(db: Db, other: Db, used: Used, ops: seq<Op>)
    requires Inv(db) && Numbered(db, ops) && Tracks(db, used) && Finances(other) == Finances(db)
    ensures Finances(Run(db, ops)) == Finances(Run(other, Kept(used, ops)))
    decreases |ops|
  {
    if ops != [] {
      var op := ops[0];
      KeptStep(db, used, op);
      KeptUnfold(used, ops);
      StepKeepsInv(db, op);
      StepKeepsNumbered(db, ops);
      var used' := UsedAfter(used, op.action);
      var rest := Kept(used', ops[1..]);
      if KeptOp(used, op).Some? {
        var kept := KeptOp(used, op).value;
        assert other == db.(inbox := other.inbox);
        StepIgnoresInbox(db, other.inbox, kept);
        DuplicatesChangeNothing(Step(db, op), Step(other, kept), used', ops[1..]);
        assert ([kept] + rest)[1..] == rest;
      } else {
        DuplicatesChangeNothing(Step(db, op), other, used', ops[1..]);
        assert [] + rest == rest;
      }
    }
  }

  /** From empty tables, with nothing used up yet. */
  lemma DuplicatesChangeNothingFromEmpty(ops: seq<Op>)
    requires Numbered(Empty(), ops)
    ensures Finances(Run(Empty(), ops)) == Finances(Run(Empty(), Kept(Used(map[], {}, {}), ops)))
  {
    EmptyIsGood();
    DuplicatesChangeNothing(Empty(), Empty(), Used(map[], {}, {}), ops);
  }
}
