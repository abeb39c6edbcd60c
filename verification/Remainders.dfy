/** Quotients and remainders by a variable period. */
module Remainders {
  function Quotient(x: nat, period: nat): nat
    requires period > 0
  {
    x / period
  }

  function Rest(x: nat, period: nat): (r: nat)
    requires period > 0
    ensures r < period
  {
    x % period
  }

  lemma DivMod(x: nat, period: nat)
    requires period > 0
    ensures x == x % period + (x / period) * period
  {
  }

  lemma Farther(q: nat, k: nat, period: nat)
    requires q > k
    ensures q * period >= k * period + period
  {
    AtLeastOne(q - k, period);
    Distribute(k, q - k, period);
  }

  lemma AtLeastOne(k: nat, period: nat)
    requires k > 0
    ensures k * period >= period
  {
  }

  lemma Distribute(k: nat, d: nat, period: nat)
    ensures (k + d) * period == k * period + d * period
  {
  }

  /** The remainder is the only one. */
  lemma ModUnique(x: nat, q: nat, r: nat, period: nat)
    requires r < period && x == r + q * period
    ensures x % period == r
  {
    var q', r' := x / period, x % period;
    DivMod(x, period);
    if q > q' {
      Farther(q, q', period);
    } else if q < q' {
      Farther(q', q, period);
    }
  }

  lemma ModPeriods(x: nat, k: nat, period: nat)
    requires period > 0
    ensures (x + k * period) % period == x % period
  {
    var q, r := x / period, x % period;
    DivMod(x, period);
    assert x + k * period == r + (q + k) * period;
    ModUnique(x + k * period, q + k, r, period);
  }

  lemma ModOnce(x: nat, period: nat)
    requires period > 0
    ensures (x + period) % period == x % period
  {
    ModPeriods(x, 1, period);
  }

  lemma ModSum(x: nat, y: nat, period: nat)
    requires period > 0
    ensures (x + y) % period == (x % period + y) % period
  {
    DivMod(x, period);
    ModPeriods(x % period + y, x / period, period);
  }

  lemma SmallMod(x: nat, period: nat)
    requires x < period
    ensures x % period == x
  {
  }

  lemma ShiftedMod(x: nat, y: nat, period: nat)
    requires x < period && 0 < y < period
    ensures (x + y) % period != x
  {
    if x + y < period {
      SmallMod(x + y, period);
    } else {
      ModOnce(x + y - period, period);
      SmallMod(x + y - period, period);
    }
  }

  /** The quotient is the only one. */
  lemma DivUnique(x: nat, q: nat, r: nat, period: nat)
    requires r < period && x == r + q * period
    ensures x / period == q
  {
    var k := x / period;
    DivMod(x, period);
    ModUnique(x, q, r, period);
    if q > k {
      Farther(q, k, period);
    } else if q < k {
      Farther(k, q, period);
    }
  }

  /** Counting on by one, around a period. */
  lemma NextCount(x: nat, period: nat)
    requires period > 0
    ensures x % period + 1 < period ==> (x + 1) / period == x / period && (x + 1) % period == x % period + 1
    ensures x % period + 1 == period ==> (x + 1) / period == x / period + 1 && (x + 1) % period == 0
  {
    var q, r := x / period, x % period;
    DivMod(x, period);
    if r + 1 < period {
      DivUnique(x + 1, q, r + 1, period);
      ModUnique(x + 1, q, r + 1, period);
    } else {
      Distribute(q, 1, period);
      DivUnique(x + 1, q + 1, 0, period);
      ModUnique(x + 1, q + 1, 0, period);
    }
  }
}
