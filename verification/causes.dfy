/** Whether a failure is worth retrying, read off the chain of its causes; the chain may be a cycle. */
module Causes {
  import opened Wrappers

  /** The fields of an error the classification looks at, each only when it is a string or an error. */
  datatype Failure = Failure(
    code: Option<string>,
    errno: Option<string>,
    sqlState: Option<string>,
    message: Option<string>,
    previous: Option<nat>,
    cause: Option<nat>)

  /** Errors refer to each other by identity. */
  type Graph = map<nat, Failure>

  predicate Closed(g: Graph) {
    forall n :: n in g ==> (Link(g[n]).Some? ==> Link(g[n]).value in g)
  }

  /** link.previous ?? link.cause */
  function Link(f: Failure): Option<nat> {
    if f.previous.Some? then f.previous else f.cause
  }

  predicate IsState(s: string) {
    |s| == 5 && forall i :: 0 <= i < 5 ==> '0' <= s[i] <= '9' || 'A' <= s[i] <= 'Z'
  }

  function SqlStateOf(f: Failure): Option<string> {
    if f.code.Some? && IsState(f.code.value) then f.code
    else if f.errno.Some? && IsState(f.errno.value) then f.errno
    else if f.sqlState.Some? && IsState(f.sqlState.value) then f.sqlState
    else None
  }

  const TRANSIENT_SQLSTATES: set<string> := {"40001", "40P01", "55P03", "53300", "57P01", "57P02", "57P03"}
  const TRANSIENT_CONNECTION_STATES: set<string> := {"08000", "08001", "08003", "08004", "08006", "08007"}
  const TRANSIENT_SOCKET_CODES: set<string> :=
    {"ECONNRESET", "ECONNREFUSED", "ECONNABORTED", "EPIPE", "ETIMEDOUT", "EHOSTUNREACH", "ENETUNREACH", "ENETDOWN",
     "ENOTFOUND", "EAI_AGAIN"}
  const TRANSIENT_MESSAGES: seq<string> :=
    ["connection terminated", "connection ended", "server closed the connection", "socket hang up",
     "timeout exceeded when trying to connect", "pool is draining"]

  function LowerChar(c: char): char {
    if 'A' <= c <= 'Z' then c - 'A' + 'a' else c
  }

  function Lower(s: string): string {
    seq(|s|, i requires 0 <= i < |s| => LowerChar(s[i]))
  }

  predicate StartsAt(s: string, i: nat, phrase: string) {
    i + |phrase| <= |s| && s[i..i + |phrase|] == phrase
  }

  predicate Contains(s: string, phrase: string) {
    exists i :: 0 <= i <= |s| - |phrase| && StartsAt(s, i, phrase)
  }

  predicate TransientMessage(s: string) {
    exists k :: 0 <= k < |TRANSIENT_MESSAGES| && Contains(Lower(s), TRANSIENT_MESSAGES[k])
  }

  /** The SQLSTATE of an error is the first of code, errno and sqlState that has the form of one. */
  lemma SqlStateIsFirst(f: Failure)
    ensures var fields := [f.code, f.errno, f.sqlState];
            if SqlStateOf(f).None? then forall i :: 0 <= i < 3 ==> fields[i].None? || !IsState(fields[i].value)
            else
              exists i :: 0 <= i < 3 && fields[i] == SqlStateOf(f) && IsState(SqlStateOf(f).value)
                && forall j :: 0 <= j < i ==> fields[j].None? || !IsState(fields[j].value)
  {
    var fields := [f.code, f.errno, f.sqlState];
    if f.code.Some? && IsState(f.code.value) {
      assert fields[0] == SqlStateOf(f);
    } else if f.errno.Some? && IsState(f.errno.value) {
      assert fields[1] == SqlStateOf(f);
    } else if f.sqlState.Some? && IsState(f.sqlState.value) {
      assert fields[2] == SqlStateOf(f);
    }
  }

  /** A phrase is found wherever it stands in a message, and however it is capitalised. */
  lemma PhraseIsFound(before: string, phrase: string, after: string, k: nat)
    requires k < |TRANSIENT_MESSAGES| && Lower(phrase) == TRANSIENT_MESSAGES[k]
    ensures TransientMessage(before + phrase + after)
  {
    var s := Lower(before + phrase + after);
    assert s[|before|..|before| + |phrase|] == Lower(phrase);
    assert StartsAt(s, |before|, TRANSIENT_MESSAGES[k]);
    assert Contains(s, TRANSIENT_MESSAGES[k]);
  }

  // ---------- the chain ----------

  /** The k-th error of the chain, if it gets that far. */
  function Nth(g: Graph, start: Option<nat>, k: nat): Option<nat>
    requires Closed(g) && (start.Some? ==> start.value in g)
    ensures Nth(g, start, k).Some? ==> Nth(g, start, k).value in g
    decreases k
  {
    if start.None? || k == 0 then start else Nth(g, Link(g[start.value]), k - 1)
  }

  lemma {:induction false} NthNext(g: Graph, start: Option<nat>, k: nat)
    requires Closed(g) && (start.Some? ==> start.value in g)
    ensures Nth(g, start, k + 1) ==
            if Nth(g, start, k).None? then None else Link(g[Nth(g, start, k).value])
    ensures Nth(g, start, k).Some? ==>
              var f := g[Nth(g, start, k).value];
              Nth(g, start, k + 1) == if f.previous.Some? then f.previous else f.cause
    decreases k
  {
    if start.Some? && k > 0 {
      NthNext(g, Link(g[start.value]), k - 1);
    }
  }

  /** A chain that comes back to what it has seen never leaves it. */
  lemma {:induction false} NeverLeaves(g: Graph, start: Option<nat>, seen: set<nat>, k: nat)
    requires Closed(g) && (start.Some? ==> start.value in g)
    requires start.Some? ==> start.value in seen
    requires forall n :: n in seen ==> n in g && (Link(g[n]).Some? ==> Link(g[n]).value in seen)
    ensures Nth(g, start, k).Some? ==> Nth(g, start, k).value in seen
    decreases k
  {
    if start.Some? && k > 0 {
      NeverLeaves(g, Link(g[start.value]), seen, k - 1);
    }
  }

  function PickAt<T>(f: Failure, pick: string -> Option<T>): Option<T> {
    if SqlStateOf(f).Some? then pick(SqlStateOf(f).value) else None
  }

  /** What has been visited is the chain so far, and every link of it but the last leads back into it. */
  ghost predicate Visited(g: Graph, error: Option<nat>, current: Option<nat>, seen: set<nat>, k: nat)
    requires Closed(g) && (error.Some? ==> error.value in g)
  {
    && current == Nth(g, error, k)
    && (forall n :: n in seen ==> n in g && exists j :: 0 <= j < k && Nth(g, error, j) == Some(n))
    && (forall n :: n in seen && Link(g[n]).Some? ==> Link(g[n]).value in seen || Link(g[n]) == current)
    && (k > 0 ==> error.Some? && error.value in seen)
  }

  lemma VisitOne(g: Graph, error: Option<nat>, current: Option<nat>, seen: set<nat>, k: nat)
    requires Closed(g) && (error.Some? ==> error.value in g)
    requires Visited(g, error, current, seen, k) && current.Some? && current.value in g
    ensures Visited(g, error, Link(g[current.value]), seen + {current.value}, k + 1)
  {
    NthNext(g, error, k);
    assert Nth(g, error, k) == Some(current.value);
    forall n | n in seen + {current.value}
      ensures n in g && exists j :: 0 <= j < k + 1 && Nth(g, error, j) == Some(n)
    {
      if n in seen {
        var j :| 0 <= j < k && Nth(g, error, j) == Some(n);
      }
    }
    if k == 0 {
      assert Nth(g, error, 0) == error;
    }
  }

  /** When the walk stops, everything the chain ever reaches has been visited. */
  lemma AllVisited(g: Graph, error: Option<nat>, current: Option<nat>, seen: set<nat>, k: nat, i: nat)
    requires Closed(g) && (error.Some? ==> error.value in g)
    requires Visited(g, error, current, seen, k) && (current.None? || current.value in seen)
    ensures Nth(g, error, i).Some? ==> Nth(g, error, i).value in seen
  {
    if error.Some? && k > 0 {
      NeverLeaves(g, error, seen, i);
    }
  }

  /** r is what the first error along the chain that is picked at all is picked as. */
  ghost predicate IsFirstPick<T>(g: Graph, error: Option<nat>, pick: string -> Option<T>, r: Option<T>)
    requires Closed(g) && (error.Some? ==> error.value in g)
  {
    if r.None? then forall i: nat :: Nth(g, error, i).Some? ==> PickAt(g[Nth(g, error, i).value], pick).None?
    else
      exists i: nat ::
        && Nth(g, error, i).Some? && PickAt(g[Nth(g, error, i).value], pick) == r
        && forall j :: 0 <= j < i && Nth(g, error, j).Some? ==> PickAt(g[Nth(g, error, j).value], pick).None?
  }

  /** findInCauseChain: the first pick along the chain, and none only when no error of it is picked. */
  method FindInCauseChain<T>(g: Graph, error: Option<nat>, pick: string -> Option<T>) returns (r: Option<T>)
    requires Closed(g) && (error.Some? ==> error.value in g)
    ensures IsFirstPick(g, error, pick, r)
  {
    var seen: set<nat> := {};
    var current := error;
    ghost var k: nat := 0;
    while current.Some? && current.value !in seen
      invariant current.Some? ==> current.value in g
      invariant Visited(g, error, current, seen, k)
      invariant forall n :: n in seen ==> PickAt(g[n], pick).None?
      invariant forall j :: 0 <= j < k && Nth(g, error, j).Some? ==> Nth(g, error, j).value in seen
      decreases g.Keys - seen
    {
      var state := SqlStateOf(g[current.value]);
      if state.Some? {
        var picked := pick(state.value);
        if picked.Some? {
          assert Nth(g, error, k) == current;
          return picked;
        }
      }
      VisitOne(g, error, current, seen, k);
      seen := seen + {current.value};
      current := Link(g[current.value]);
      k := k + 1;
    }
    forall i: nat | Nth(g, error, i).Some? ensures PickAt(g[Nth(g, error, i).value], pick).None? {
      AllVisited(g, error, current, seen, k, i);
    }
    return None;
  }

  predicate LostConnection(f: Failure) {
    || (f.code.Some? && f.code.value in TRANSIENT_SOCKET_CODES)
    || (f.message.Some? && TransientMessage(f.message.value))
  }

  predicate TransientState(f: Failure) {
    SqlStateOf(f).Some?
    && (SqlStateOf(f).value in TRANSIENT_SQLSTATES || SqlStateOf(f).value in TRANSIENT_CONNECTION_STATES)
  }

  /** isTransientConnectionLoss */
  method IsTransientConnectionLoss(g: Graph, error: Option<nat>) returns (r: bool)
    requires Closed(g) && (error.Some? ==> error.value in g)
    ensures r <==> exists i: nat :: Nth(g, error, i).Some? && LostConnection(g[Nth(g, error, i).value])
  {
    var seen: set<nat> := {};
    var current := error;
    ghost var k: nat := 0;
    while current.Some? && current.value !in seen
      invariant current.Some? ==> current.value in g
      invariant Visited(g, error, current, seen, k)
      invariant forall n :: n in seen ==> !LostConnection(g[n])
      decreases g.Keys - seen
    {
      var candidate := g[current.value];
      if candidate.code.Some? && candidate.code.value in TRANSIENT_SOCKET_CODES {
        assert Nth(g, error, k) == current;
        return true;
      }
      if candidate.message.Some? && TransientMessage(candidate.message.value) {
        assert Nth(g, error, k) == current;
        return true;
      }
      VisitOne(g, error, current, seen, k);
      seen := seen + {current.value};
      current := Link(candidate);
      k := k + 1;
    }
    forall i: nat | Nth(g, error, i).Some? ensures !LostConnection(g[Nth(g, error, i).value]) {
      AllVisited(g, error, current, seen, k, i);
    }
    return false;
  }

  function PickTransient(state: string): Option<bool> {
    if state in TRANSIENT_SQLSTATES || state in TRANSIENT_CONNECTION_STATES then Some(true) else None
  }

  /**
   * isTransientDatabaseFailure ends on every graph of causes, cycles included, and says yes exactly
   * when some error along `previous ?? cause` is transient by its state, its socket code or its message.
   */
  method IsTransientDatabaseFailure(g: Graph, error: Option<nat>) returns (r: bool)
    requires Closed(g) && (error.Some? ==> error.value in g)
    ensures r <==>
            exists i: nat ::
              Nth(g, error, i).Some?
              && (TransientState(g[Nth(g, error, i).value]) || LostConnection(g[Nth(g, error, i).value]))
  {
    var bySqlState := FindInCauseChain(g, error, PickTransient);
    if bySqlState.Some? {
      ghost var i: nat :| Nth(g, error, i).Some? && PickAt(g[Nth(g, error, i).value], PickTransient).Some?;
      assert TransientState(g[Nth(g, error, i).value]);
      return true;
    }
    forall i: nat | Nth(g, error, i).Some? ensures !TransientState(g[Nth(g, error, i).value]) {
      assert PickAt(g[Nth(g, error, i).value], PickTransient).None?;
    }
    r := IsTransientConnectionLoss(g, error);
  }

  datatype Conflict = LockTimeout | Deadlock

  function PickConflict(state: string): Option<Conflict> {
    if state == "55P03" then Some(LockTimeout) else if state == "40P01" then Some(Deadlock) else None
  }

  /** lockConflictReason */
  method LockConflictReason(g: Graph, error: Option<nat>) returns (r: Option<Conflict>)
    requires Closed(g) && (error.Some? ==> error.value in g)
    ensures IsFirstPick(g, error, PickConflict, r)
  {
    r := FindInCauseChain(g, error, PickConflict);
  }

  /** Every conflict it can name is also classified as transient. */
  lemma ConflictsAreTransient(g: Graph, error: Option<nat>, r: Option<Conflict>)
    requires Closed(g) && (error.Some? ==> error.value in g)
    requires IsFirstPick(g, error, PickConflict, r) && r.Some?
    ensures exists i: nat :: Nth(g, error, i).Some? && TransientState(g[Nth(g, error, i).value])
  {
    var i: nat :| Nth(g, error, i).Some? && PickAt(g[Nth(g, error, i).value], PickConflict) == r;
    assert TransientState(g[Nth(g, error, i).value]);
  }
}
