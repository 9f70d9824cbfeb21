/** Exponential backoff with jitter (app/state/retry_apply.py). */
module Backoff {

  /** base * 2^e, by doubling. */
  function Doubled(base: real, e: nat): real {
    if e == 0 then base else 2.0 * Doubled(base, e - 1)
  }

  function Exponent(epoch: int): nat {
    if epoch < 1 then 0 else epoch - 1
  }

  /** compute_backoff, with its random factor `jitter` as a parameter. */
  function ComputeBackoff(epoch: int, base: real, jitter: real): real {
    Doubled(base, Exponent(epoch)) * jitter
  }

  /** 1.0 plus a draw from [-0.2, 0.2]. */
  predicate Jitter(j: real) {
    0.8 <= j <= 1.2
  }

  function Pow2(n: nat): (p: nat)
    ensures p >= 1
  {
    if n == 0 then 1 else 2 * Pow2(n - 1)
  }

  lemma {:induction false} DoubledIsPower(base: real, e: nat)
    ensures Doubled(base, e) == base * Pow2(e) as real
  {
    if e > 0 {
      DoubledIsPower(base, e - 1);
      var p := Pow2(e - 1) as real;
      assert Pow2(e) as real == 2.0 * p;
      assert 2.0 * (base * p) == base * (2.0 * p);
    }
  }

  /** The band a retry with exponent `e` waits in: base * 2^e, give or take a fifth. */
  predicate InBand(wait: real, base: real, e: nat) {
    0.8 * Doubled(base, e) <= wait <= 1.2 * Doubled(base, e)
  }

  lemma {:induction false} DoubledPositive(base: real, e: nat)
    requires base > 0.0
    ensures Doubled(base, e) > 0.0
  {
    if e > 0 {
      DoubledPositive(base, e - 1);
    }
  }

  lemma JitterScales(scale: real, jitter: real, wait: real)
    requires scale > 0.0 && Jitter(jitter) && wait == scale * jitter
    ensures 0.8 * scale <= wait <= 1.2 * scale
  {
    NotNegative(scale, jitter - 0.8);
    assert scale * (jitter - 0.8) == wait - 0.8 * scale;
    NotNegative(scale, 1.2 - jitter);
    assert scale * (1.2 - jitter) == 1.2 * scale - wait;
  }

  lemma NotNegative(x: real, y: real)
    requires x >= 0.0 && y >= 0.0
    ensures x * y >= 0.0
  {
  }

  /** `wait` is a delay that compute_backoff can draw for this epoch. */
  predicate IsBackoff(wait: real, epoch: int, base: real) {
    InBand(wait, base, Exponent(epoch))
  }

  lemma DrawIsInBand(epoch: int, base: real, jitter: real)
    requires base > 0.0 && Jitter(jitter)
    ensures IsBackoff(ComputeBackoff(epoch, base, jitter), epoch, base)
  {
    var scale, wait := Doubled(base, Exponent(epoch)), ComputeBackoff(epoch, base, jitter);
    DoubledPositive(base, Exponent(epoch));
    assert wait == scale * jitter;
    JitterScales(scale, jitter, wait);
  }

  /** The delay is base * 2^(epoch - 1) times the draw; the first attempt, and any epoch below it, waits base. */
  lemma BackoffIs(epoch: int, base: real, jitter: real)
    ensures epoch <= 1 ==> ComputeBackoff(epoch, base, jitter) == base * jitter
    ensures epoch >= 1 ==> ComputeBackoff(epoch, base, jitter) == base * Pow2(epoch - 1) as real * jitter
  {
    if epoch >= 1 {
      DoubledIsPower(base, epoch - 1);
    }
  }

  /** The delays in the band are exactly the results of compute_backoff over all its draws. */
  lemma BackoffDraws(wait: real, epoch: int, base: real)
    requires base > 0.0
    ensures IsBackoff(wait, epoch, base) <==> exists jitter :: Jitter(jitter) && wait == ComputeBackoff(epoch, base, jitter)
  {
    if IsBackoff(wait, epoch, base) {
      DoubledPositive(base, Exponent(epoch));
      var jitter := DrawFor(wait, Doubled(base, Exponent(epoch)));
      assert wait == ComputeBackoff(epoch, base, jitter);
    }
    if jitter :| Jitter(jitter) && wait == ComputeBackoff(epoch, base, jitter) {
      DrawIsInBand(epoch, base, jitter);
    }
  }

  lemma DrawFor(wait: real, scale: real) returns (jitter: real)
    requires scale > 0.0 && 0.8 * scale <= wait <= 1.2 * scale
    ensures Jitter(jitter) && wait == scale * jitter
  {
    jitter := wait / scale;
    ScaledOrder(scale, jitter, 0.8);
    ScaledOrder(scale, 1.2, jitter);
  }

  lemma ScaledOrder(scale: real, a: real, b: real)
    requires scale > 0.0
    ensures a < b ==> scale * a < scale * b
  {
  }

  lemma {:induction false} DoubledGrows(base: real, i: nat, j: nat)
    requires base > 0.0 && i < j
    ensures 0.0 < 2.0 * Doubled(base, i) <= Doubled(base, j)
  {
    DoubledPositive(base, i);
    if i < j - 1 {
      DoubledGrows(base, i, j - 1);
    }
  }

  /** The bands of different exponents do not meet. */
  lemma BandsAreDisjoint(base: real, i: nat, j: nat, wait: real, later: real)
    requires base > 0.0 && i < j && InBand(wait, base, i) && InBand(later, base, j)
    ensures wait < later
  {
    DoubledGrows(base, i, j);
  }

  /** Whatever the jitters, the delay of a later attempt strictly exceeds that of an earlier one. */
  lemma LaterAttemptWaitsLonger(n: int, m: int, base: real, jn: real, jm: real)
    requires 1 <= n < m && base > 0.0 && Jitter(jn) && Jitter(jm)
    ensures ComputeBackoff(n, base, jn) < ComputeBackoff(m, base, jm)
  {
    DrawIsInBand(n, base, jn);
    DrawIsInBand(m, base, jm);
    BandsAreDisjoint(base, n - 1, m - 1, ComputeBackoff(n, base, jn), ComputeBackoff(m, base, jm));
  }

  function Total(waits: seq<real>): real {
    if waits == [] then 0.0 else Total(waits[..|waits| - 1]) + waits[|waits| - 1]
  }

  /** The k-th wait is in band k. */
  predicate Climbs(waits: seq<real>, base: real) {
    forall k :: 0 <= k < |waits| ==> InBand(waits[k], base, k)
  }

  /** R climbing waits add up to base * (2^R - 1), give or take a fifth. */
  lemma {:induction false} TotalDoubled(waits: seq<real>, base: real)
    requires Climbs(waits, base)
    ensures 0.8 * (Doubled(base, |waits|) - base) <= Total(waits) <= 1.2 * (Doubled(base, |waits|) - base)
  {
    if waits != [] {
      var n := |waits| - 1;
      TotalDoubled(waits[..n], base);
      assert InBand(waits[n], base, n);
    }
  }
}
