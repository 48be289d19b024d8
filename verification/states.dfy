/**
 * The database states the service can commit: those of any sequence of atomic operations, and
 * those of any interleaving of transactions, both from empty tables.
 */
module States {
  import opened Store
  import opened Invariants
  import opened Machine
  import opened Runs
  import opened Interleaving
  import Serialization

  ghost predicate InterleavingCommits(db: Db) {
    exists moves: seq<Interleaving.Move>, s: Sys :: Serialization.Reaches(Serialization.Start(), moves, s) && s.db == db
  }

  ghost predicate Committed(db: Db) {
    Reachable(db) || InterleavingCommits(db)
  }

  /** Every committed state satisfies the invariant. */
  lemma CommittedIsGood(db: Db)
    requires Committed(db)
    ensures Inv(db)
  {
    if Reachable(db) {
      ReachableIsGood(db);
    } else {
      var moves: seq<Interleaving.Move>, s: Sys :|
        Serialization.Reaches(Serialization.Start(), moves, s) && s.db == db;
      Serialization.StartIsOk();
      Serialization.InterleavingKeepsOk(Serialization.Start(), moves, s);
    }
  }
}
