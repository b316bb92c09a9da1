/**
 * The loop and big-cycle arithmetic shared by the control panel's scheduler
 * (`loops_per_big_cycle`, configurable) and the standalone bot (a fixed 50).
 * Loops are numbered from 1; every `perBig` consecutive loops form a big cycle.
 * The group size comes from a configuration value that may be any non-zero
 * integer, so `%` is Python's: its result takes the sign of the divisor.
 */
module Schedule {

  /** `a % b` in Python, which rounds the quotient toward minus infinity. */
  function PyMod(a: int, b: int): (r: int)
    requires b != 0
    ensures b > 0 ==> 0 <= r < b && (a - r) % b == 0
    ensures b < 0 ==> b < r <= 0 && (a - r) % b == 0
    ensures r == 0 <==> a % b == 0
  {
    var q := a / b;
    var m := a % b;
    assert a == q * b + m;
    if b > 0 || m == 0 then
      ModOfMultiplePlus(q, b, 0);
      assert a - m == q * b + 0;
      m
    else
      ModOfMultiplePlus(q - 1, b, 0);
      assert a - (m + b) == (q - 1) * b + 0;
      m + b
  }

  /** Euclidean division of `q * d + r` by `d` gives back `q` and `r`. */
  lemma ModOfMultiplePlus(q: int, d: int, r: int)
    requires d != 0 && 0 <= r && (r < d || r < -d)
    ensures (q * d + r) % d == r && (q * d + r) / d == q
  {
    var a := q * d + r;
    var k := a / d - q;
    var e := a % d;
    assert a == (a / d) * d + e;
    assert k * d == (a / d) * d - q * d;
    assert k * d == r - e;
    MulAwayFromZero(k, d);
  }

  /** A non-zero multiple of `d` is at least `|d|` away from zero. */
  lemma MulAwayFromZero(k: int, d: int)
    ensures k >= 1 && d > 0 ==> k * d >= d
    ensures k <= -1 && d > 0 ==> k * d <= -d
    ensures k >= 1 && d < 0 ==> k * d <= d
    ensures k <= -1 && d < 0 ==> k * d >= -d
  {
    if k >= 1 {
      assert k * d == (k - 1) * d + d;
    } else if k <= -1 {
      assert k * d == (k + 1) * d - d;
    }
  }

  /**
   * `((loop - 1) % per_big) + 1`: the position of a loop inside its big cycle.
   * For a positive group size it lies in `1..perBig`, agrees with `loop` modulo
   * `perBig`, and reaches `perBig` exactly on the last loop of a big cycle; for a
   * negative one Python's `%` puts it in `perBig + 2..1`.
   */
  function LoopsInCycle(loop: int, perBig: int): (r: int)
    requires perBig != 0
    ensures perBig > 0 ==> 1 <= r <= perBig && r % perBig == loop % perBig
    ensures perBig > 0 ==> (r == perBig <==> loop % perBig == 0)
    ensures perBig < 0 ==> perBig + 1 < r <= 1
  {
    if perBig > 0 then PositionFacts(loop, perBig); PyMod(loop - 1, perBig) + 1
    else PyMod(loop - 1, perBig) + 1
  }

  lemma PositionFacts(loop: int, perBig: int)
    requires perBig >= 1
    ensures ((loop - 1) % perBig + 1) % perBig == loop % perBig
    ensures (loop - 1) % perBig + 1 == perBig <==> loop % perBig == 0
  {
    var q := (loop - 1) / perBig;
    var m := (loop - 1) % perBig;
    assert loop == q * perBig + (m + 1);
    if m + 1 < perBig {
      ModOfMultiplePlus(q, perBig, m + 1);
      ModOfMultiplePlus(0, perBig, m + 1);
    } else {
      ModOfMultiplePlus(q + 1, perBig, 0);
      ModOfMultiplePlus(1, perBig, 0);
      assert loop == (q + 1) * perBig + 0;
    }
  }

  /** `loop % per_big == 0`: the loop that closes a big cycle. */
  predicate CompletesBigCycle(loop: int, perBig: int)
    requires perBig != 0
  {
    PyMod(loop, perBig) == 0
  }

  /** `next % per_big == 1`: the condition under which the wait before loop `next` is skipped. */
  predicate SkipsWait(next: int, perBig: int)
    requires perBig != 0
  {
    PyMod(next, perBig) == 1
  }

  /**
   * The pause before the next loop is skipped exactly after a loop that closes a
   * big cycle, except when a big cycle is a single loop (`x % 1 == 1` never
   * holds) or the group size is negative (Python's `%` is then never positive):
   * in those cases the scheduler always waits.
   */
  lemma SkipsWaitAfterBoundary(loop: int, perBig: int)
    requires perBig != 0
    ensures SkipsWait(loop + 1, perBig) <==> perBig >= 2 && CompletesBigCycle(loop, perBig)
  {
    if perBig > 0 {
      var q := loop / perBig;
      var m := loop % perBig;
      assert loop == q * perBig + m;
      if m + 1 < perBig {
        ModOfMultiplePlus(q, perBig, m + 1);
        assert loop + 1 == q * perBig + (m + 1);
      } else {
        ModOfMultiplePlus(q + 1, perBig, 0);
        assert loop + 1 == (q + 1) * perBig + 0;
      }
    }
  }

  /** Consecutive loops count 1, 2, ..., perBig, 1, 2, ... inside their big cycles. */
  lemma LoopsInCycleNext(loop: int, perBig: int)
    requires perBig >= 1
    ensures LoopsInCycle(loop + 1, perBig) == if LoopsInCycle(loop, perBig) == perBig then 1 else LoopsInCycle(loop, perBig) + 1
  {
    var q := (loop - 1) / perBig;
    var m := (loop - 1) % perBig;
    assert loop - 1 == q * perBig + m;
    if m + 1 < perBig {
      ModOfMultiplePlus(q, perBig, m + 1);
      assert loop == q * perBig + (m + 1);
    } else {
      ModOfMultiplePlus(q + 1, perBig, 0);
      assert loop == (q + 1) * perBig + 0;
    }
  }

  /** How many of the loops `1..n` close a big cycle. */
  function BigCyclesCompleted(n: nat, perBig: int): nat
    requires perBig != 0
  {
    if n == 0 then 0
    else BigCyclesCompleted(n - 1, perBig) + (if CompletesBigCycle(n, perBig) then 1 else 0)
  }

  /** After `n` loops with a fixed positive group size, `n / perBig` big cycles are complete. */
  lemma {:induction false} BigCyclesCompletedIsQuotient(n: nat, perBig: int)
    requires perBig >= 1
    ensures BigCyclesCompleted(n, perBig) == n / perBig
  {
    if n > 0 {
      BigCyclesCompletedIsQuotient(n - 1, perBig);
      QuotientStep(n, perBig);
      assert CompletesBigCycle(n, perBig) <==> n % perBig == 0;
    }
  }

  lemma QuotientStep(n: int, perBig: int)
    requires perBig >= 1
    ensures n / perBig == (n - 1) / perBig + (if n % perBig == 0 then 1 else 0)
  {
    var q := (n - 1) / perBig;
    var m := (n - 1) % perBig;
    assert n - 1 == q * perBig + m;
    if m + 1 < perBig {
      ModOfMultiplePlus(q, perBig, m + 1);
      assert n == q * perBig + (m + 1);
    } else {
      ModOfMultiplePlus(q + 1, perBig, 0);
      assert n == (q + 1) * perBig + 0;
    }
  }
}
