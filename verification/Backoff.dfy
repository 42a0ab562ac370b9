/** The delays of the reconnect loop, in 64-bit nanoseconds. */
module Backoff {
  import opened Options
  import opened Integers

  datatype Config = Config(minDelay: Int64, maxDelay: Int64, jitter: bool, reconnect: bool)

  const SECOND := 1_000_000_000

  /** Delays that are not positive get their defaults: a quarter of a second and half a minute. */
  function Normalized(cfg: Config): (r: Config)
    ensures 4 * r.minDelay == (if cfg.minDelay > 0 then 4 * cfg.minDelay else SECOND)
    ensures 2 * r.maxDelay == (if cfg.maxDelay > 0 then 2 * cfg.maxDelay else 60 * SECOND)
    ensures r.minDelay > 0 && r.maxDelay > 0 && r.jitter == cfg.jitter && r.reconnect == cfg.reconnect
  {
    cfg.(minDelay := if cfg.minDelay <= 0 then 250_000_000 else cfg.minDelay,
         maxDelay := if cfg.maxDelay <= 0 then 30_000_000_000 else cfg.maxDelay)
  }

  /** What happens to the subscription: a message arrives, it fails, or the bus is stopped by
      cancellation or Close; `draw` is what the random source holds at a failure. */
  datatype Event = Message | Failure(draw: nat) | Stop

  /** A draw from [0, n); `None` stands for the panic on an empty range. */
  function Int63n(n: Int64, draw: nat): Option<Int64> {
    if n <= 0 then None else Some(draw % n)
  }

  function Sleep(cfg: Config, cur: Int64, draw: nat): Option<Int64> {
    if cfg.jitter && cur > 2 then
      match Int63n(cur / 2, draw)
      case None => None
      case Some(j) => Some(Wrap(cur + j))
    else
      Some(cur)
  }

  function Doubled(cfg: Config, cur: Int64): Int64 {
    var next := Wrap(cur * 2);
    if next > cfg.maxDelay then cfg.maxDelay else next
  }

  /** The stored delay after `n` failures in a row. */
  function After(cfg: Config, n: nat): Int64 {
    if n == 0 then cfg.minDelay else Doubled(cfg, After(cfg, n - 1))
  }

  function Pow2(n: nat): (p: nat)
    ensures p > 0
  {
    if n == 0 then 1 else 2 * Pow2(n - 1)
  }

  function Min(a: int, b: int): int {
    if a < b then a else b
  }

  /** The failures before position `i` since the last message. */
  function Streak(events: seq<Event>, i: nat): nat
    requires i <= |events|
  {
    if i == 0 || !events[i - 1].Failure? then 0 else 1 + Streak(events, i - 1)
  }

  /** The streak is made of failures, and what comes before it is not one. */
  lemma {:induction false} StreakMeans(events: seq<Event>, i: nat)
    requires i <= |events|
    ensures Streak(events, i) <= i
    ensures forall j :: i - Streak(events, i) <= j < i ==> events[j].Failure?
    ensures Streak(events, i) < i ==> !events[i - Streak(events, i) - 1].Failure?
  {
    if i == 0 || !events[i - 1].Failure? {
    } else {
      StreakMeans(events, i - 1);
    }
  }

  /** Positive limits in order, such that twice the longest delay is still a 64-bit number. */
  ghost predicate Sane(cfg: Config) {
    0 < cfg.minDelay <= cfg.maxDelay && 2 * cfg.maxDelay <= MAX_INT64
  }

  /** A sleep lies between the delay and one and a half times the delay. */
  ghost predicate Within(sleep: int, delay: int) {
    delay <= sleep && 2 * sleep <= 3 * delay
  }

  /** Doubling a limited delay. */
  lemma DoubledMeans(cfg: Config, cur: Int64, ideal: nat)
    requires Sane(cfg) && cur == Min(cfg.maxDelay, ideal)
    ensures Doubled(cfg, cur) == Min(cfg.maxDelay, 2 * ideal)
  {
  }

  lemma {:induction false} AfterMeans(cfg: Config, n: nat)
    requires Sane(cfg)
    ensures After(cfg, n) == Min(cfg.maxDelay, cfg.minDelay * Pow2(n))
  {
    if n == 0 {
      assert Pow2(0) == 1;
    } else {
      AfterMeans(cfg, n - 1);
      PositiveProduct(cfg.minDelay, Pow2(n - 1));
      DoubledMeans(cfg, After(cfg, n - 1), cfg.minDelay * Pow2(n - 1));
      Twice(cfg.minDelay, n);
    }
  }

  lemma Twice(m: int, n: nat)
    requires n > 0
    ensures m * Pow2(n) == 2 * (m * Pow2(n - 1))
  {
    assert Pow2(n) == 2 * Pow2(n - 1);
  }

  /** After `n` failures in a row the delay is the least one doubled `n` times, up to the limit;
      neither its doubling nor the jitter leaves the 64-bit range; and the sleep lies between the
      delay and one and a half times the delay. */
  lemma SaneDelays(cfg: Config, n: nat, draw: nat)
    requires Sane(cfg)
    ensures var d := After(cfg, n);
      && d == Min(cfg.maxDelay, cfg.minDelay * Pow2(n)) && 0 < d
      && Wrap(d * 2) == d * 2
      && Sleep(cfg, d, draw).Some? && Within(Sleep(cfg, d, draw).value, d)
      && Sleep(cfg, d, draw).value == d + (if cfg.jitter && d > 2 then draw % (d / 2) else 0)
  {
    AfterMeans(cfg, n);
    PositiveProduct(cfg.minDelay, Pow2(n));
  }

  lemma PositiveProduct(a: int, b: int)
    requires a > 0 && b > 0
    ensures a * b > 0 && a * b >= b
  {
  }

  lemma {:induction false} Pow2Exceeds(n: nat)
    ensures Pow2(n) > n
  {
    if n == 0 {
      assert Pow2(0) == 1;
    } else {
      Pow2Exceeds(n - 1);
    }
  }

  /** The law of the delays holds after any number of failures exactly when the limits are in
      order and twice the longest delay is a 64-bit number: otherwise the first delay is too
      long, or the doubling wraps around once the longest delay is reached. */
  lemma DelayLawExact(cfg: Config)
    requires 0 < cfg.minDelay && 0 < cfg.maxDelay
    ensures (forall n: nat :: After(cfg, n) == Min(cfg.maxDelay, cfg.minDelay * Pow2(n)))
            <==> cfg.minDelay <= cfg.maxDelay && 2 * cfg.maxDelay <= MAX_INT64
  {
    if cfg.minDelay > cfg.maxDelay {
      assert After(cfg, 0) != Min(cfg.maxDelay, cfg.minDelay * Pow2(0));
    } else if 2 * cfg.maxDelay <= MAX_INT64 {
      forall n: nat ensures After(cfg, n) == Min(cfg.maxDelay, cfg.minDelay * Pow2(n)) {
        AfterMeans(cfg, n);
      }
    } else {
      var n: nat := cfg.maxDelay;
      ReachesLimit(cfg, n);
      ReachesLimit(cfg, n + 1);
      WrapsNegative(cfg.maxDelay);
      assert After(cfg, n + 1) == Doubled(cfg, After(cfg, n));
    }
  }

  lemma ReachesLimit(cfg: Config, n: nat)
    requires 0 < cfg.minDelay && cfg.maxDelay <= n
    ensures Min(cfg.maxDelay, cfg.minDelay * Pow2(n)) == cfg.maxDelay
  {
    Pow2Exceeds(n);
    PositiveProduct(cfg.minDelay, Pow2(n));
  }

  lemma WrapsNegative(x: Int64)
    requires 2 * x > MAX_INT64
    ensures Wrap(x * 2) < 0
  {
  }

  /** The sleep that event `i` leads to: none for a message. */
  function SleepAt(cfg: Config, events: seq<Event>, i: nat): (sleep: Option<Int64>)
    requires i < |events|
    ensures events[i].Failure? <==> sleep.Some?
  {
    match events[i]
    case Failure(draw) => Sleep(cfg, After(cfg, Streak(events, i)), draw)
    case _ => None
  }

  /** The loop: a message resets the delay; a failure sleeps for the delay plus jitter and
      doubles the delay up to its limit.  A stop ends it, also during a sleep, and without
      reconnection the first failure does.  No draw is from an empty range: every failure
      leads to a sleep. */
  method RunSubscribeLoop(config: Config, events: seq<Event>) returns (sleeps: seq<Option<Int64>>)
    ensures |sleeps| <= |events|
    ensures |sleeps| < |events| ==> events[|sleeps|].Stop? || (!config.reconnect && events[|sleeps|].Failure?)
    ensures forall i :: 0 <= i < |sleeps| ==> !events[i].Stop? && (events[i].Failure? ==> config.reconnect)
    ensures forall i :: 0 <= i < |sleeps| ==> sleeps[i] == SleepAt(Normalized(config), events, i)
    ensures forall i :: 0 <= i < |sleeps| ==> (sleeps[i].Some? <==> events[i].Failure?)
  {
    var cfg := Normalized(config);
    var backoff := cfg.minDelay;
    sleeps := [];
    while |sleeps| < |events|
      invariant |sleeps| <= |events| && backoff == After(cfg, Streak(events, |sleeps|))
      invariant forall i :: 0 <= i < |sleeps| ==> !events[i].Stop? && (events[i].Failure? ==> config.reconnect)
      invariant forall i :: 0 <= i < |sleeps| ==> sleeps[i] == SleepAt(cfg, events, i)
    {
      var n := |sleeps|;
      match events[n] {
        case Stop =>
          return;
        case Message =>
          backoff := cfg.minDelay;
          sleeps := sleeps + [None];
        case Failure(draw) =>
          if !config.reconnect {
            return;
          }
          var sleep := Sleep(cfg, backoff, draw);
          assert sleep == SleepAt(cfg, events, n);
          sleeps := sleeps + [sleep];
          backoff := Doubled(cfg, backoff);
      }
    }
  }
}
