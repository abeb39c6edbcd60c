/**
 Wall time to Q32 service: elapsed nanoseconds become whole ticks at once and Q32
 fractions at settlement, with two residues kept in between. Whole runs of
 account and settle calls stay within a bound of the exact rate, and the budget
 they are charged to ends where one charge of the total would have put it.
 */
module RuntimeAccounting {
  import opened Words
  import opened Remainders
  import opened RoundRobinService

  /** Nanoseconds below one period, a conversion residue, and the period they belong to (0 when there is none). */
  datatype Residue = Residue(remainder: nat, conversion: nat, owner: nat)

  /** The new residues, and the Q32 service that is delivered. */
  datatype Outcome = Outcome(residue: Residue, delivered: nat)

  /** The residues are below the period and belong to it. */
  predicate Coherent(r: Residue, period: nat) {
    r.remainder < period && r.conversion < period && (r.remainder != 0 || r.conversion != 0 ==> r.owner == period)
  }

  function Published(remainder: nat, conversion: nat, period: nat): Residue {
    Residue(remainder, conversion, if remainder == 0 && conversion == 0 then 0 else period)
  }

  function OldConversion(r: Residue, period: nat): nat { if r.owner == period then r.conversion else 0 }

  function Accounted(r: Residue, elapsed: nat, period: nat): Outcome
    requires period > 0
  {
    var total := r.remainder + elapsed;
    var numerator := Rest(total, period) * ONE + OldConversion(r, period);
    var extra := Quotient(numerator, period);
    if extra >= ONE
        then Outcome(Published(0, Rest(numerator, period), period), (Quotient(total, period) + extra / ONE) * ONE)
    else Outcome(Published(Rest(total, period), Rest(numerator, period), period), Quotient(total, period) * ONE)
  }

  function Settled(r: Residue, period: nat): Outcome
    requires period > 0
  {
    var numerator := r.remainder * ONE + OldConversion(r, period);
    Outcome(Published(0, Rest(numerator, period), period), Quotient(numerator, period))
  }

  /** A running round-robin task with its residues. */
  class RuntimeAccount {
    const task: RoundRobinTask
    var remainder: nat
    var conversion: nat
    var owner: nat

    function Value(): Residue
      reads this
    {
      Residue(remainder, conversion, owner)
    }

    constructor (task: RoundRobinTask)
      ensures this.task == task && Value() == Residue(0, 0, 0)
    {
      this.task := task;
      remainder, conversion, owner := 0, 0, 0;
    }

    method PublishOwner(residue: nat, period: nat)
      modifies this`conversion, this`owner
      ensures Value() == Published(remainder, residue, period)
    {
      conversion := residue;
      if residue == 0 {
        owner := if remainder == 0 then 0 else period;
      } else {
        owner := period;
      }
    }

    /** Charges the task's budget. */
    method Deliver(ticks: nat, fraction: nat, peers: Peers, slice: nat) returns (r: Result<bool, ServiceError>)
      requires slice > 0
      modifies task
      ensures r.Err? ==> task.Value() == old(task.Value())
                         && (old(task.fraction) >= ONE || ticks * ONE + fraction > U128_MAX * ONE)
      ensures r.Ok? ==> Served(task.Value(), r.value) == Charge(old(task.Value()), peers, slice, ticks * ONE + fraction)
    {
      OnlyAmountMatters(task.Value(), peers, slice, ticks, fraction);
      Overflows(ticks, fraction, task.fraction);
      r := task.Service(ticks, fraction, peers, slice);
      if r.Err? {
        assert r == Err(r.error) && (r.error.InconsistentState? || r.error.ArithmeticExhausted?);
      }
    }

    /** The checks that come before any change. */
    predicate Sound(period: nat)
      reads this
      ensures Sound(period) <==> Coherent(Value(), period)
    {
      && period != 0
      && !(remainder >= period || (remainder != 0 && owner != 0 && owner != period)
           || (conversion != 0 && (owner == 0 || conversion >= owner)) || (conversion != 0 && owner != period))
      && !((remainder != 0 || conversion != 0) && owner == 0)
    }

    /** Whole periods of a sample, and the residues it leaves. */
    method Convert(elapsed: nat, period: nat) returns (periods: nat, rest: nat, residue: nat)
      requires Coherent(Value(), period)
      ensures Accounted(Value(), elapsed, period) == Outcome(Published(rest, residue, period), periods * ONE)
    {
      var total := remainder + elapsed;
      periods := Quotient(total, period);
      rest := Rest(total, period);
      var numerator := rest * ONE + if owner == period then conversion else 0;
      var extra := Quotient(numerator, period);
      residue := Rest(numerator, period);
      if extra >= ONE {
        periods := periods + extra / ONE;
        rest := 0;
      }
    }

    /** Accounts a wall-clock sample; a failure leaves everything as it was. */
    method Account(elapsed: nat, period: nat, peers: Peers, slice: nat) returns (r: Result<bool, ServiceError>)
      requires slice > 0
      modifies this, task
      ensures r.Err? ==> unchanged(this) && task.Value() == old(task.Value())
      ensures !Coherent(old(Value()), period) ==> r == Err(InconsistentState)
      ensures r.Ok? ==>
                && Coherent(old(Value()), period)
                && var o := Accounted(old(Value()), elapsed, period);
                   Value() == o.residue
                     && Served(task.Value(), r.value) == Charge(old(task.Value()), peers, slice, o.delivered)
      ensures Coherent(old(Value()), period) && r.Err? ==>
                old(task.fraction) >= ONE || Accounted(old(Value()), elapsed, period).delivered > U128_MAX * ONE
    {
      if !Sound(period) {
        return Err(InconsistentState);
      }
      var periods, rest, residue := Convert(elapsed, period);
      var reschedule := false;
      if periods != 0 {
        var served := Deliver(periods, 0, peers, slice);
        if served.Err? {
          return served;
        }
        reschedule := served.value;
      }
      remainder := rest;
      PublishOwner(residue, period);
      return Ok(reschedule);
    }

    /** What the residues are worth in Q32 units, and what is left of them. */
    method ConvertAll(period: nat) returns (units: nat, residue: nat)
      requires Coherent(Value(), period)
      ensures Settled(Value(), period) == Outcome(Published(0, residue, period), units) && units <= ONE
    {
      var carried := if owner == period then conversion else 0;
      var numerator := remainder * ONE + carried;
      AtMostOneTick(remainder, carried, period);
      units, residue := Quotient(numerator, period), Rest(numerator, period);
    }

    /** Delivers what the residues are worth. */
    method Settle(period: nat, peers: Peers, slice: nat) returns (r: Result<bool, ServiceError>)
      requires slice > 0
      modifies this, task
      ensures r.Err? ==> unchanged(this) && task.Value() == old(task.Value())
      ensures !Coherent(old(Value()), period) ==> r == Err(InconsistentState)
      ensures r.Ok? ==>
                && Coherent(old(Value()), period)
                && var o := Settled(old(Value()), period);
                   Value() == o.residue
                     && Served(task.Value(), r.value) == Charge(old(task.Value()), peers, slice, o.delivered)
      ensures Coherent(old(Value()), period) && r.Err? ==> old(task.fraction) >= ONE
    {
      if !Sound(period) {
        return Err(InconsistentState);
      }
      var units, residue := ConvertAll(period);
      if units > ONE {
        return Err(InconsistentState);
      }
      var served := Deliver(units / ONE, units % ONE, peers, slice);
      if served.Err? {
        return served;
      }
      remainder := 0;
      PublishOwner(residue, period);
      return served;
    }
  }

  /** The residues are worth at most one tick, so the settlement check for more never fails. */
  lemma AtMostOneTick(remainder: nat, conversion: nat, period: nat)
    requires remainder < period && conversion < period
    ensures (remainder * ONE + conversion) / period <= ONE
  {
    var x := remainder * ONE + conversion;
    DivMod(x, period);
    if x / period > ONE {
      Farther(x / period, ONE, period);
    }
  }

  lemma Overflows(ticks: nat, fraction: nat, base: nat)
    ensures base < ONE && ticks + (base + fraction) / ONE > U128_MAX ==> ticks * ONE + fraction > U128_MAX * ONE
  {
    assert base + fraction >= (base + fraction) / ONE * ONE;
  }

  // ----- one call -----

  /** What a task has been given and still holds, in units of one Q32 unit per period. */
  function Worth(r: Residue): nat { r.remainder * ONE + r.conversion }

  /** Settlement conserves exactly and keeps the residues coherent. */
  lemma SettleConserves(r: Residue, period: nat)
    requires Coherent(r, period)
    ensures var o := Settled(r, period);
            Coherent(o.residue, period) && o.residue.remainder == 0 && o.delivered <= ONE
              && o.delivered * period + Worth(o.residue) == Worth(r)
  {
    AtMostOneTick(r.remainder, r.conversion, period);
    DivMod(Worth(r), period);
  }

  lemma SplitTotal(total: nat, period: nat)
    requires period > 0
    ensures (total / period) * ONE * period + (total % period) * ONE == total * ONE
  {
    DivMod(total, period);
    assert total * ONE == (total % period + (total / period) * period) * ONE;
  }

  /** What accounting rewrites: the conversion residue, while the remainder is kept whole. */
  function Rewritten(r: Residue, elapsed: nat, period: nat): int
    requires period > 0
  {
    var rest := (r.remainder + elapsed) % period;
    var numerator := rest * ONE + r.conversion;
    if numerator / period >= ONE then 0 else numerator % period - r.conversion
  }

  lemma AccountKeepsTick(r: Residue, elapsed: nat, period: nat)
    requires Coherent(r, period) && ((r.remainder + elapsed) % period * ONE + r.conversion) / period >= ONE
    ensures var o := Accounted(r, elapsed, period);
            Coherent(o.residue, period) && o.delivered * period + Worth(o.residue) == Worth(r) + elapsed * ONE
  {
    var total := r.remainder + elapsed;
    var rest := total % period;
    var numerator := rest * ONE + r.conversion;
    AtMostOneTick(rest, r.conversion, period);
    DivMod(numerator, period);
    SplitTotal(total, period);
    assert numerator / period == ONE;
    var o := Accounted(r, elapsed, period);
    assert o.delivered == (total / period) * ONE + ONE;
    Distribute((total / period) * ONE, ONE, period);
  }

  lemma AccountKeepsRest(r: Residue, elapsed: nat, period: nat)
    requires Coherent(r, period) && ((r.remainder + elapsed) % period * ONE + r.conversion) / period < ONE
    ensures var o := Accounted(r, elapsed, period);
            && Coherent(o.residue, period)
            && o.delivered * period + Worth(o.residue) == Worth(r) + elapsed * ONE + Rewritten(r, elapsed, period)
  {
    SplitTotal(r.remainder + elapsed, period);
  }

  /** One account call is off by what it rewrites, which is less than one Q32 unit. */
  lemma AccountDrift(r: Residue, elapsed: nat, period: nat)
    requires Coherent(r, period)
    ensures var o := Accounted(r, elapsed, period);
            && Coherent(o.residue, period) && 0 - period < Rewritten(r, elapsed, period) < period
            && o.delivered * period + Worth(o.residue) == Worth(r) + elapsed * ONE + Rewritten(r, elapsed, period)
  {
    if ((r.remainder + elapsed) % period * ONE + r.conversion) / period >= ONE {
      AccountKeepsTick(r, elapsed, period);
    } else {
      AccountKeepsRest(r, elapsed, period);
    }
  }

  /**
   Accounting is exact exactly when the sample completes a whole extra tick or the kept nanoseconds
   convert without a residue.
   */
  lemma AccountExactly(r: Residue, elapsed: nat, period: nat)
    requires Coherent(r, period)
    ensures var o, kept := Accounted(r, elapsed, period), (r.remainder + elapsed) % period * ONE;
            o.delivered * period + Worth(o.residue) == Worth(r) + elapsed * ONE <==>
            (kept + r.conversion) / period >= ONE || kept % period == 0
  {
    AccountDrift(r, elapsed, period);
    var kept := (r.remainder + elapsed) % period * ONE;
    if (kept + r.conversion) / period < ONE {
      ResidueKept(kept, r.conversion, period);
    }
  }

  /** Adding to a residue keeps it exactly when a multiple of the period is added. */
  lemma ResidueKept(x: nat, conversion: nat, period: nat)
    requires conversion < period
    ensures (x + conversion) % period == conversion <==> x % period == 0
  {
    ModSum(x, conversion, period);
    if x % period == 0 {
      SmallMod(conversion, period);
    } else if conversion == 0 {
      SmallMod(x % period, period);
    } else {
      ShiftedMod(conversion, x % period, period);
    }
  }

  // ----- whole runs with one period -----

  datatype Call = Sample(elapsed: nat) | Settlement

  function Answer(r: Residue, c: Call, period: nat): Outcome
    requires period > 0
  {
    if c.Sample? then Accounted(r, c.elapsed, period) else Settled(r, period)
  }

  /** The residues at the end of a run. */
  function Ending(r: Residue, calls: seq<Call>, period: nat): Residue
    requires period > 0
    decreases calls
  {
    if calls == [] then r else Ending(Answer(r, calls[0], period).residue, calls[1..], period)
  }

  /** The Q32 amounts that the calls of a run deliver. */
  function Deliveries(r: Residue, calls: seq<Call>, period: nat): seq<nat>
    requires period > 0
    decreases calls
  {
    if calls == [] then [] else
      var o := Answer(r, calls[0], period);
      [o.delivered] + Deliveries(o.residue, calls[1..], period)
  }

  function Elapsed(calls: seq<Call>): nat {
    if calls == [] then 0 else (if calls[0].Sample? then calls[0].elapsed else 0) + Elapsed(calls[1..])
  }

  function Samples(calls: seq<Call>): nat {
    if calls == [] then 0 else (if calls[0].Sample? then 1 else 0) + Samples(calls[1..])
  }

  /** How far a run is from exact conversion, in units of one Q32 unit per period. */
  function Drift(r: Residue, calls: seq<Call>, period: nat): int
    requires period > 0
  {
    Sum(Deliveries(r, calls, period)) * period + Worth(Ending(r, calls, period)) - Worth(r) - Elapsed(calls) * ONE
  }

  lemma StepDrift(r: Residue, c: Call, period: nat)
    requires Coherent(r, period)
    ensures var o := Answer(r, c, period);
            && Coherent(o.residue, period)
            && var d := o.delivered * period + Worth(o.residue) - Worth(r) - (if c.Sample? then c.elapsed else 0) * ONE;
               if c.Sample? then 0 - period < d < period else d == 0
  {
    if c.Sample? {
      AccountDrift(r, c.elapsed, period);
    } else {
      SettleConserves(r, period);
    }
  }

  lemma DriftSplits(r: Residue, calls: seq<Call>, period: nat)
    requires Coherent(r, period) && calls != []
    ensures var o := Answer(r, calls[0], period);
            Drift(r, calls, period) ==
            o.delivered * period +
              Worth(o.residue) - Worth(r) - (if calls[0].Sample? then calls[0].elapsed else 0) * ONE
            + Drift(o.residue, calls[1..], period)
  {
    var o := Answer(r, calls[0], period);
    assert Deliveries(r, calls, period)[1..] == Deliveries(o.residue, calls[1..], period);
    Distribute(o.delivered, Sum(Deliveries(o.residue, calls[1..], period)), period);
  }

  /** In any run both residues stay below the period, and each sample adds less than one Q32 unit of drift. */
  lemma {:induction false} RunDrift(r: Residue, calls: seq<Call>, period: nat)
    requires Coherent(r, period)
    ensures Coherent(Ending(r, calls, period), period)
    ensures -(Samples(calls) * period) <= Drift(r, calls, period) <= Samples(calls) * period
    ensures Samples(calls) > 0 ==> -(Samples(calls) * period) < Drift(r, calls, period) < Samples(calls) * period
    decreases calls
  {
    if calls != [] {
      var o := Answer(r, calls[0], period);
      StepDrift(r, calls[0], period);
      RunDrift(o.residue, calls[1..], period);
      DriftSplits(r, calls, period);
      Distribute(if calls[0].Sample? then 1 else 0, Samples(calls[1..]), period);
    }
  }

  /**
   A settled run has delivered the elapsed time at the Q32 rate, give or take one unit per sample and
   one for the last residue.
   */
  lemma SettledRun(calls: seq<Call>, period: nat)
    requires period > 0 && calls != [] && calls[|calls| - 1].Settlement?
    ensures var delivered := Sum(Deliveries(Residue(0, 0, 0), calls, period));
            -((Samples(calls) + 1) * period) < delivered * period - Elapsed(calls) * ONE <= Samples(calls) * period
  {
    RunDrift(Residue(0, 0, 0), calls, period);
    EndsSettled(Residue(0, 0, 0), calls, period);
    Distribute(Samples(calls), 1, period);
  }

  lemma {:induction false} EndsSettled(r: Residue, calls: seq<Call>, period: nat)
    requires Coherent(r, period) && calls != [] && calls[|calls| - 1].Settlement?
    ensures Ending(r, calls, period).remainder == 0 && Ending(r, calls, period).conversion < period
    decreases calls
  {
    StepDrift(r, calls[0], period);
    if |calls| > 1 {
      EndsSettled(Answer(r, calls[0], period).residue, calls[1..], period);
    }
  }

  /** The budget that a run is charged to ends where a single charge of everything it delivered would have put it. */
  lemma RunChargesBudget(b: Budget, p: Peers, slice: nat, calls: seq<Call>, period: nat)
    requires slice > 0 && Steady(b, p) && period > 0
    ensures var amounts := Deliveries(Residue(0, 0, 0), calls, period);
            Stepwise(b, p, slice, amounts) == Charge(b, p, slice, Sum(amounts))
  {
    StepwiseEqualsBulk(b, p, slice, Deliveries(Residue(0, 0, 0), calls, period));
  }

  /**
   The drift is real: two samples of one nanosecond in total, settled, deliver more than their share of
   a 3 ns period.
   */
  lemma DriftIsReal()
    ensures Sum(Deliveries(Residue(0, 0, 0), [Sample(1), Sample(0), Settlement], 3)) * 3 > 1 * ONE
  {
    var a := Residue(1, 1, 3);
    var b := Residue(1, 2, 3);
    assert Accounted(Residue(0, 0, 0), 1, 3) == Outcome(a, 0);
    assert Accounted(a, 0, 3) == Outcome(b, 0);
    var calls := [Sample(1), Sample(0), Settlement];
    assert calls[1..] == [Sample(0), Settlement] && calls[1..][1..] == [Settlement];
    assert Deliveries(b, [Settlement], 3) == [Settled(b, 3).delivered];
    assert Deliveries(a, [Sample(0), Settlement], 3) == [0] + Deliveries(b, [Settlement], 3);
    assert Deliveries(Residue(0, 0, 0), calls, 3) == [0] + Deliveries(a, [Sample(0), Settlement], 3);
    assert Deliveries(Residue(0, 0, 0), calls, 3) == [0, 0, 1431655766];
  }
}
