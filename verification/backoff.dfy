/**
 * The retry clock of a reversal that waits for its reference: exponential backoff with
 * jitter, raced against a six hour lifetime and a cap of one hundred attempts.
 */
module Backoff {
  import opened Wrappers

  const BASE_DELAY_MS := 5_000
  const MAX_DELAY_MS := 300_000
  const MAX_ATTEMPTS := 100
  const TTL_MS := 21_600_000
  const FIRST_RETRY_DELAY_MS := 5_000

  /** The largest number of reschedules any pending reference can see. */
  const MOST_RESCHEDULES := 95

  /** Math.random() lies in [0, 1). */
  type Jitter = j: real | 0.0 <= j < 1.0 witness 0.0

  function Pow2(n: nat): (p: nat)
    ensures p >= 1
  {
    if n == 0 then 1 else 2 * Pow2(n - 1)
  }

  /** Math.round: half up. */
  function Round(x: real): int {
    (x + 0.5).Floor
  }

  function CappedDelay(attempts: nat): nat
    requires attempts >= 1
  {
    var delay := BASE_DELAY_MS * Pow2(attempts - 1);
    if delay < MAX_DELAY_MS then delay else MAX_DELAY_MS
  }

  /** pendingReferenceBackoffMs */
  function DelayMs(attempts: nat, jitter: Jitter): int
    requires attempts >= 1
  {
    Round(CappedDelay(attempts) as real * (0.8 + jitter * 0.4))
  }

  predicate Exhausted(attempts: nat, expiresAt: Option<int>, now: int) {
    attempts >= MAX_ATTEMPTS || (expiresAt.Some? && now >= expiresAt.value)
  }

  /** A pending reference as the retry clock sees it. */
  datatype Clock = Clock(createdAt: int, attempts: nat, nextAttemptAt: int, expiresAt: int)

  function Start(now: int): Clock {
    Clock(now, 0, now + FIRST_RETRY_DELAY_MS, now + TTL_MS)
  }

  /** lockDuePendingReference only hands out rows that are due. */
  predicate Reschedules(c: Clock, now: int) {
    c.nextAttemptAt <= now && !Exhausted(c.attempts, Some(c.expiresAt), now)
  }

  function Reschedule(c: Clock, now: int, jitter: Jitter): Clock {
    c.(attempts := c.attempts + 1, nextAttemptAt := now + DelayMs(c.attempts + 1, jitter))
  }

  /** A tick that found no reference: the instant its instance read, and its jitter. */
  datatype Tick = Tick(now: int, jitter: Jitter)

  /** The clock after the ticks; the ones that are early or too late leave it alone. */
  function After(c: Clock, ticks: seq<Tick>): Clock
    decreases |ticks|
  {
    if ticks == [] then c
    else
      var t := ticks[0];
      After(if Reschedules(c, t.now) then Reschedule(c, t.now, t.jitter) else c, ticks[1..])
  }

  /** The least time the first n delays can add up to. */
  function LeastElapsed(n: nat): int {
    if n <= 6 then 4_000 * (Pow2(n) - 1) else 252_000 + 240_000 * (n - 6)
  }

  predicate Valid(c: Clock) {
    && c.expiresAt == c.createdAt + TTL_MS
    && c.createdAt + FIRST_RETRY_DELAY_MS + LeastElapsed(c.attempts) <= c.nextAttemptAt < c.expiresAt + 360_000
    && c.attempts <= MOST_RESCHEDULES
  }

  lemma {:induction false} Pow2Values()
    ensures Pow2(0) == 1 && Pow2(1) == 2 && Pow2(2) == 4 && Pow2(3) == 8
    ensures Pow2(4) == 16 && Pow2(5) == 32 && Pow2(6) == 64
  {
    assert Pow2(3) == 8;
    assert Pow2(5) == 32;
  }

  lemma {:induction false} Pow2Large(n: nat)
    requires n >= 6
    ensures Pow2(n) >= 64
  {
    if n == 6 {
      Pow2Values();
    } else {
      Pow2Large(n - 1);
    }
  }

  lemma CappedDelayValues(n: nat)
    requires n >= 1
    ensures n <= 6 ==> CappedDelay(n) == 5_000 * Pow2(n - 1) && Pow2(n) == 2 * Pow2(n - 1)
    ensures n >= 7 ==> CappedDelay(n) == 300_000
  {
    Pow2Values();
    if n >= 7 {
      Pow2Large(n - 1);
    }
  }

  lemma DelayBounds(n: nat, jitter: Jitter)
    requires n >= 1
    ensures LeastElapsed(n) - LeastElapsed(n - 1) <= DelayMs(n, jitter) <= 360_000
  {
    CappedDelayValues(n);
    Pow2Values();
    var d := CappedDelay(n);
    assert 0 <= d <= 300_000;
    assert d as real * (0.8 + jitter * 0.4) >= d as real * 0.8 by {
      assert jitter * 0.4 >= 0.0;
    }
    assert d as real * (0.8 + jitter * 0.4) <= d as real * 1.2 by {
      assert 0.8 + jitter * 0.4 <= 1.2;
    }
    assert LeastElapsed(n) - LeastElapsed(n - 1) == d * 4 / 5;
  }

  /** x is the whole number closest to y, halves up. */
  predicate Nearest(x: int, y: real) {
    y - 0.5 < x as real <= y + 0.5
  }

  /** The steps double from five seconds and stay at five minutes, each spread by a fifth either way. */
  function Step(attempts: nat): int {
    if attempts <= 1 then 5_000
    else if attempts == 2 then 10_000
    else if attempts == 3 then 20_000
    else if attempts == 4 then 40_000
    else if attempts == 5 then 80_000
    else if attempts == 6 then 160_000
    else 300_000
  }

  lemma DelayIs(n: nat, jitter: Jitter)
    requires n >= 1
    ensures Nearest(DelayMs(n, jitter), Step(n) as real * (0.8 + jitter * 0.4))
  {
    CappedDelayValues(n);
    Pow2Values();
  }

  /** One reschedule keeps the clock valid; in particular it was at most the 95th. */
  lemma RescheduleKeepsValid(c: Clock, now: int, jitter: Jitter)
    requires Valid(c) && Reschedules(c, now)
    ensures Valid(Reschedule(c, now, jitter))
  {
    DelayBounds(c.attempts + 1, jitter);
    Pow2Values();
  }

  /**
   * Whatever the clocks and the jitter: at most 95 reschedules, so the attempt cap never
   * decides, and the next attempt stays within six minutes of the expiry.
   */
  lemma {:induction false} TtlAlwaysFiresFirst(c: Clock, ticks: seq<Tick>)
    requires Valid(c)
    ensures Valid(After(c, ticks))
    ensures After(c, ticks).attempts <= MOST_RESCHEDULES < MAX_ATTEMPTS
    decreases |ticks|
  {
    if ticks != [] {
      var t := ticks[0];
      if Reschedules(c, t.now) {
        RescheduleKeepsValid(c, t.now, t.jitter);
        TtlAlwaysFiresFirst(Reschedule(c, t.now, t.jitter), ticks[1..]);
      } else {
        TtlAlwaysFiresFirst(c, ticks[1..]);
      }
    }
  }

  lemma StartIsValid(now: int)
    ensures Valid(Start(now))
  {
    Pow2Values();
  }

  /** On a valid clock the row is exhausted exactly when its lifetime is over. */
  lemma ExhaustedMeansExpired(c: Clock, now: int)
    requires Valid(c)
    ensures Exhausted(c.attempts, Some(c.expiresAt), now) <==> now >= c.expiresAt
  {
  }

  /** Prompt ticks without jitter, from reschedule k on. */
  function PromptTicks(createdAt: int, k: nat): seq<Tick>
    requires k <= MOST_RESCHEDULES
    decreases MOST_RESCHEDULES - k
  {
    if k == MOST_RESCHEDULES then []
    else [Tick(createdAt + FIRST_RETRY_DELAY_MS + LeastElapsed(k), 0.0)] + PromptTicks(createdAt, k + 1)
  }

  lemma {:induction false} PromptTicksRescheduleEachTime(c: Clock)
    requires Valid(c)
    requires c.nextAttemptAt == c.createdAt + FIRST_RETRY_DELAY_MS + LeastElapsed(c.attempts)
    ensures After(c, PromptTicks(c.createdAt, c.attempts)).attempts == MOST_RESCHEDULES
    decreases MOST_RESCHEDULES - c.attempts
  {
    if c.attempts < MOST_RESCHEDULES {
      var ticks := PromptTicks(c.createdAt, c.attempts);
      Pow2Values();
      CappedDelayValues(c.attempts + 1);
      RescheduleKeepsValid(c, ticks[0].now, 0.0);
      assert Reschedules(c, ticks[0].now);
      var next := Reschedule(c, ticks[0].now, 0.0);
      assert LeastElapsed(c.attempts + 1) - LeastElapsed(c.attempts) == CappedDelay(c.attempts + 1) * 4 / 5;
      PromptTicksRescheduleEachTime(next);
      assert ticks[1..] == PromptTicks(c.createdAt, c.attempts + 1);
    }
  }

  /** The bound is exact: a run with ninety-five reschedules exists. */
  lemma NinetyFiveIsReached(now: int)
    ensures exists ticks: seq<Tick> :: After(Start(now), ticks).attempts == MOST_RESCHEDULES
  {
    StartIsValid(now);
    Pow2Values();
    PromptTicksRescheduleEachTime(Start(now));
  }
}
