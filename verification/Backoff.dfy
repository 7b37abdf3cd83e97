/**
 * The reconnect delays computed by scheduleReconnect
 * (api-gateway/src/queue/queue.service.ts:196-211).
 *
 * Delays are integers in milliseconds.  The draw stands for Math.random(), a
 * real number in [0, 1); products that the source computes in floating point
 * are exact here.
 */
module Backoff {
  import opened Numbers

  datatype Config = Config(urlAccepted: bool, initialDelayMs: int, maxDelayMs: int)

  /** The bounds that the configuration schema puts on both delays, relaxed to zero. */
  predicate ValidConfig(cfg: Config) {
    0 <= cfg.initialDelayMs && 0 <= cfg.maxDelayMs
  }

  predicate ValidDraw(draw: real) {
    0.0 <= draw < 1.0
  }

  function Pow2(n: nat): nat {
    if n == 0 then 1 else 2 * Pow2(n - 1)
  }

  function MaxReal(a: real, b: real): real {
    if a >= b then a else b
  }

  function BaseDelay(cfg: Config, attempt: nat): int {
    Min(cfg.maxDelayMs, cfg.initialDelayMs * Pow2(attempt))
  }

  /** What the draw is multiplied with. */
  function Spread(base: int): real {
    MaxReal(1.0, base as real * 0.2)
  }

  function Part(draw: real, whole: real): int {
    (draw * whole).Floor
  }

  function Jitter(base: int, draw: real): int {
    Part(draw, Spread(base))
  }

  function Delay(cfg: Config, attempt: nat, draw: real): int {
    var base := BaseDelay(cfg, attempt);
    Min(cfg.maxDelayMs, base + Jitter(base, draw))
  }

  /**
   * A delay after n failures, in the numbers of the configuration alone: the
   * initial delay doubled n times and at most a fifth more, cut off at the cap.
   */
  ghost predicate Fits(cfg: Config, n: nat, delay: int) {
    var doubled := cfg.initialDelayMs * Pow2(n);
    && (if doubled <= cfg.maxDelayMs then doubled <= delay <= cfg.maxDelayMs else delay == cfg.maxDelayMs)
    && 5 * delay <= 6 * doubled
  }

  /** The delays of consecutive attempts, counted from the last reset. */
  ghost predicate DelaysOf(cfg: Config, delays: seq<int>) {
    forall n :: 0 <= n < |delays| ==> Fits(cfg, n, delays[n])
  }

  function Sum(xs: seq<int>): int {
    if xs == [] then 0 else Sum(xs[..|xs| - 1]) + xs[|xs| - 1]
  }

  /** The draw times the whole, rounded down, is below the whole. */
  lemma PartIsBounded(draw: real, whole: real)
    requires ValidDraw(draw) && whole > 0.0
    ensures 0 <= Part(draw, whole) && Part(draw, whole) as real < whole
  {
    assert 0.0 <= draw * whole < whole;
  }

  lemma BelowSpread(base: int, part: int)
    requires 0 <= base && 0 <= part && part as real < Spread(base)
    ensures part == 0 || 5 * part < base
  {
  }

  lemma JitterIsBounded(base: int, draw: real)
    requires 0 <= base && ValidDraw(draw)
    ensures Jitter(base, draw) == 0 || (0 < Jitter(base, draw) && 5 * Jitter(base, draw) < base)
  {
    var spread := Spread(base);
    PartIsBounded(draw, spread);
    BelowSpread(base, Part(draw, spread));
  }

  lemma QuotientOf(part: real, whole: real)
    requires 0.0 <= part < whole
    ensures 0.0 <= part / whole < 1.0 && (part / whole) * whole == part
  {
  }

  /** The jitter can be zero and every whole number below a fifth of the base delay, and nothing else. */
  lemma JitterRangeIff(base: int, jitter: int)
    requires 0 <= base
    ensures (exists draw :: ValidDraw(draw) && Jitter(base, draw) == jitter)
            <==> jitter == 0 || (0 < jitter && 5 * jitter < base)
  {
    if jitter == 0 || (0 < jitter && 5 * jitter < base) {
      QuotientOf(jitter as real, Spread(base));
      assert Jitter(base, jitter as real / Spread(base)) == jitter;
    } else {
      forall draw | ValidDraw(draw)
        ensures Jitter(base, draw) != jitter
      {
        JitterIsBounded(base, draw);
      }
    }
  }

  lemma Doubling(cfg: Config, n: nat)
    requires ValidConfig(cfg)
    ensures 0 <= cfg.initialDelayMs * Pow2(n)
    ensures cfg.initialDelayMs * Pow2(n + 1) == 2 * (cfg.initialDelayMs * Pow2(n))
  {
  }

  /** Jitter never lifts a delay past the base delay of the next attempt, whatever is drawn. */
  lemma DelayIsBracketed(cfg: Config, attempt: nat, draw: real)
    requires ValidConfig(cfg) && ValidDraw(draw)
    ensures BaseDelay(cfg, attempt) <= Delay(cfg, attempt, draw) <= BaseDelay(cfg, attempt + 1) <= cfg.maxDelayMs
    ensures Fits(cfg, attempt, Delay(cfg, attempt, draw))
  {
    Doubling(cfg, attempt);
    JitterIsBounded(BaseDelay(cfg, attempt), draw);
  }

  /**
   * The delays there can be after so many failures: below the cap, the doubled
   * delay and every whole number less than a fifth above it that the cap
   * allows; at the cap, the cap alone.
   */
  lemma DelayRangeIff(cfg: Config, attempt: nat, delay: int)
    requires ValidConfig(cfg)
    ensures (exists draw :: ValidDraw(draw) && Delay(cfg, attempt, draw) == delay) <==>
            var doubled := cfg.initialDelayMs * Pow2(attempt);
            if cfg.maxDelayMs <= doubled then delay == cfg.maxDelayMs
            else doubled <= delay <= cfg.maxDelayMs && (delay == doubled || 5 * (delay - doubled) < doubled)
  {
    var base := BaseDelay(cfg, attempt);
    Doubling(cfg, attempt);
    if delay == cfg.maxDelayMs <= cfg.initialDelayMs * Pow2(attempt) {
      JitterIsBounded(base, 0.0);
      assert Delay(cfg, attempt, 0.0) == delay;
    } else if base <= delay <= cfg.maxDelayMs && (delay == base || 5 * (delay - base) < base) {
      JitterRangeIff(base, delay - base);
      var draw :| ValidDraw(draw) && Jitter(base, draw) == delay - base;
      assert Delay(cfg, attempt, draw) == delay;
    }
    forall draw | ValidDraw(draw)
      ensures base <= Delay(cfg, attempt, draw) <= cfg.maxDelayMs
      ensures Delay(cfg, attempt, draw) == base || 5 * (Delay(cfg, attempt, draw) - base) < base
    {
      JitterIsBounded(base, draw);
    }
  }

  lemma {:induction false} BaseDelayGrows(cfg: Config, m: nat, n: nat)
    requires ValidConfig(cfg) && m <= n
    ensures BaseDelay(cfg, m) <= BaseDelay(cfg, n)
    ensures cfg.initialDelayMs * Pow2(m) <= cfg.initialDelayMs * Pow2(n)
    decreases n - m
  {
    if m < n {
      Doubling(cfg, m);
      BaseDelayGrows(cfg, m + 1, n);
    }
  }

  /** Between two resets: nondecreasing, under the cap, and at the cap once doubling has reached it. */
  lemma DelaysBackOff(cfg: Config, delays: seq<int>, i: nat, j: nat)
    requires ValidConfig(cfg) && DelaysOf(cfg, delays) && i <= j < |delays|
    ensures delays[i] <= delays[j] <= cfg.maxDelayMs
    ensures cfg.maxDelayMs <= cfg.initialDelayMs * Pow2(i) ==> delays[j] == cfg.maxDelayMs
  {
    assert Fits(cfg, i, delays[i]) && Fits(cfg, j, delays[j]);
    BaseDelayGrows(cfg, i, j);
    if i < j {
      Doubling(cfg, i);
      BaseDelayGrows(cfg, i + 1, j);
    }
  }

  /** k delays that the cap did not shorten add up to at least initial * (2^k - 1). */
  lemma {:induction false} UncappedDelaysAddUp(cfg: Config, delays: seq<int>)
    requires ValidConfig(cfg) && DelaysOf(cfg, delays)
    requires delays == [] || cfg.initialDelayMs * Pow2(|delays| - 1) <= cfg.maxDelayMs
    ensures cfg.initialDelayMs * Pow2(|delays|) - cfg.initialDelayMs <= Sum(delays)
  {
    if delays != [] {
      var k := |delays| - 1;
      if k > 0 {
        Doubling(cfg, k - 1);
      }
      Doubling(cfg, k);
      UncappedDelaysAddUp(cfg, delays[..k]);
      assert Fits(cfg, k, delays[k]);
    }
  }
}
