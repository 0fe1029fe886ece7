/** `compute_mix` (controller/main.py:88-107): splits a total rate across
    the write path and the three read generators. Rates are exact reals, so
    the binary rounding of `0.35 * t` is not part of this model; Python's
    `round` (half to even) is written out. */
module Presets {

  /** Python's `round(x)` for a float: the nearest integer, a tie going to
      the even neighbour. */
  function PyRound(x: real): (r: int)
    ensures -0.5 <= r as real - x <= 0.5
    ensures r as real - x == 0.5 || x - r as real == 0.5 ==> r % 2 == 0
  {
    var f := x.Floor;
    var d := x - f as real;
    if d < 0.5 then f
    else if d > 0.5 then f + 1
    else if f % 2 == 0 then f else f + 1
  }

  /** Rounding never reverses an order. */
  lemma RoundMonotone(x: real, y: real)
    requires x <= y
    ensures PyRound(x) <= PyRound(y)
  {
  }

  /** Rounding stays at or below an even bound n exactly up to n + 1/2. */
  lemma RoundAtMostEven(x: real, n: int)
    requires n % 2 == 0
    ensures PyRound(x) <= n <==> x <= n as real + 0.5
  {
    if x <= n as real + 0.5 {
      RoundMonotone(x, n as real + 0.5);
      assert PyRound(n as real + 0.5) == n;
    } else {
      assert PyRound(x) as real >= x - 0.5;
    }
  }

  datatype Mix = Mix(tps: int, rpsBlock: int, rpsBal: int, rpsCall: int)

  /** `max(float(total_tps), 0.0)` */
  function Clamped(total: real): (c: real)
    ensures c >= 0.0 && c >= total
    ensures c == total || c == 0.0
  {
    if total > 0.0 then total else 0.0
  }

  /** The preset split: "even" gives all four a fifth of the total, anything
      else is write-heavy with 35% for sending and 10% for each read. */
  function ComputeMix(total: real, preset: string): (m: Mix)
    ensures m.tps >= 0 && m.rpsBlock >= 0 && m.rpsBal >= 0 && m.rpsCall >= 0
    ensures m.rpsBlock == m.rpsBal == m.rpsCall
    ensures preset == "even" ==> m.tps == m.rpsBlock
  {
    var t := Clamped(total);
    if preset == "even" then
      var per := PyRound(t / 5.0);
      Mix(per, per, per, per)
    else
      var send := PyRound(0.35 * t);
      var read := PyRound(0.10 * t);
      Mix(send, read, read, read)
  }

  /** "even": each share is a fifth of the clamped total, to the nearest
      integer, so five shares (send, the fee query that goes with it, and
      three reads) come within 5/2 of the total. */
  lemma EvenMix(total: real)
    ensures var m := ComputeMix(total, "even");
      && -0.5 <= m.tps as real - Clamped(total) / 5.0 <= 0.5
      && -2.5 <= 5.0 * m.tps as real - Clamped(total) <= 2.5
  {
  }

  /** Any other preset: sending gets 35% and each read 10%, to the nearest
      integer; sending is never below a read share; and counting the fee
      query that accompanies each send, the five methods add up to the
      total within 5/2. */
  lemma WriteMix(total: real, preset: string)
    requires preset != "even"
    ensures var m := ComputeMix(total, preset);
      var t := Clamped(total);
      && -0.5 <= m.tps as real - 0.35 * t <= 0.5
      && -0.5 <= m.rpsBlock as real - 0.10 * t <= 0.5
      && m.tps >= m.rpsBlock
      && -2.5 <= (2 * m.tps + 3 * m.rpsBlock) as real - t <= 2.5
  {
    var t := Clamped(total);
    RoundMonotone(0.10 * t, 0.35 * t);
  }

  /** A negative total is treated as zero. */
  lemma NegativeTotalIsZero(total: real, preset: string)
    requires total < 0.0
    ensures ComputeMix(total, preset) == Mix(0, 0, 0, 0)
  {
    assert PyRound(0.0) == 0;
  }
}
