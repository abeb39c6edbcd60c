/**
 Round-robin budgets of the EEVDF scheduler: service is charged in whole ticks and
 Q32 fractions, and a slice is renewed at its boundary when no peer waits.
 */
module RoundRobinService {
  import opened Words
  import opened Remainders

  /** One tick in Q32 units. */
  const ONE: nat := 0x1_0000_0000

  const U128_MAX: nat := 0xffff_ffff_ffff_ffff_ffff_ffff_ffff_ffff

  /** Whole ticks left in the slice, and progress within the current tick. */
  datatype Budget = Budget(remaining: nat, fraction: nat)

  /** Whether higher-priority or equal-priority real-time work is waiting. */
  datatype Peers = Peers(higher: bool, same: bool)

  datatype Served = Served(budget: Budget, reschedule: bool)

  datatype ServiceError = InconsistentState | ArithmeticExhausted

  /** What is left of a fresh slice after an overshoot of whole ticks. */
  function Renewed(slice: nat, overshoot: nat): nat
    requires slice > 0
  {
    if overshoot % slice == 0 then slice else slice - overshoot % slice
  }

  /** The staged transaction. */
  function Serve(b: Budget, p: Peers, slice: nat, ticks: nat, fraction: nat): Served
    requires slice > 0
  {
    if ticks == 0 && fraction == 0 then Served(b, false)
    else
      var total := b.fraction + fraction;
      var service := ticks + total / ONE;
      var next := total % ONE;
      if p.higher then
        if b.remaining == 0 || service >= b.remaining then Served(Budget(0, 0), true)
        else Served(Budget(b.remaining - service, next), true)
      else if b.remaining == 0 then
        if p.same then Served(Budget(0, 0), true)
        else Served(Budget(Renewed(slice, if service == 0 then 0 else service - 1), next), false)
      else if service < b.remaining then Served(Budget(b.remaining - service, next), false)
      else if p.same then Served(Budget(0, 0), true)
      else Served(Budget(Renewed(slice, service - b.remaining), next), false)
  }

  /** A task's round-robin budget, updated in place. */
  class RoundRobinTask {
    var remaining: nat
    var fraction: nat

    function Value(): Budget
      reads this
    {
      Budget(remaining, fraction)
    }

    constructor (slice: nat)
      ensures Value() == Budget(slice, 0)
    {
      remaining, fraction := slice, 0;
    }

    method Service(ticks: nat, fractionQ: nat, peers: Peers, slice: nat) returns (r: Result<bool, ServiceError>)
      requires slice > 0
      modifies this
      ensures r == Err(InconsistentState) <==> (ticks != 0 || fractionQ != 0) && old(fraction) >= ONE
      ensures r == Err(ArithmeticExhausted) <==>
                (ticks != 0 || fractionQ != 0) && old(fraction) < ONE
                  && ticks + (old(fraction) + fractionQ) / ONE > U128_MAX
      ensures r.Err? ==> unchanged(this)
      ensures r.Ok? ==> Served(Value(), r.value) == Serve(old(Value()), peers, slice, ticks, fractionQ)
    {
      if ticks == 0 && fractionQ == 0 {
        return Ok(false);
      }
      if fraction >= ONE {
        return Err(InconsistentState);
      }
      var total := fraction + fractionQ;
      var nextFraction := total % ONE;
      var service := ticks + total / ONE;
      if service > U128_MAX {
        return Err(ArithmeticExhausted);
      }
      var reschedule := peers.higher;
      var nextRemaining;
      if peers.higher {
        if remaining == 0 || service >= remaining {
          nextRemaining, nextFraction := 0, 0;
        } else {
          nextRemaining := remaining - service;
        }
      } else if remaining == 0 {
        if peers.same {
          reschedule, nextRemaining, nextFraction := true, 0, 0;
        } else {
          var within := (if service == 0 then 0 else service - 1) % slice;
          nextRemaining := if within == 0 then slice else slice - within;
        }
      } else if service < remaining {
        nextRemaining := remaining - service;
      } else if peers.same {
        reschedule, nextRemaining, nextFraction := true, 0, 0;
      } else {
        var within := (service - remaining) % slice;
        nextRemaining := if within == 0 then slice else slice - within;
      }
      remaining, fraction := nextRemaining, nextFraction;
      return Ok(reschedule);
    }
  }

  // ----- the same service on the Q32 line -----

  /** A charge of a Q32 amount. */
  function Charge(b: Budget, p: Peers, slice: nat, amount: nat): Served
    requires slice > 0
  {
    Serve(b, p, slice, amount / ONE, amount % ONE)
  }

  lemma SplitAmount(ticks: nat, fraction: nat, base: nat)
    ensures var a := ticks * ONE + fraction;
            && (a == 0 <==> ticks == 0 && fraction == 0)
            && ticks + (base + fraction) / ONE == (base + a) / ONE && (base + fraction) % ONE == (base + a) % ONE
  {
  }

  /** Only the Q32 amount matters, not how it is split into ticks and a fraction. */
  lemma OnlyAmountMatters(b: Budget, p: Peers, slice: nat, ticks: nat, fraction: nat)
    requires slice > 0
    ensures Serve(b, p, slice, ticks, fraction) == Charge(b, p, slice, ticks * ONE + fraction)
  {
    var a := ticks * ONE + fraction;
    SplitAmount(ticks, fraction, b.fraction);
    SplitAmount(a / ONE, a % ONE, b.fraction);
  }

  /** Q32 units to the slice boundary. */
  function Left(b: Budget): int { b.remaining * ONE - b.fraction }

  predicate Fine(b: Budget) { b.fraction < ONE }

  lemma LeftDetermines(b: Budget, c: Budget)
    requires Fine(b) && Fine(c) && Left(b) == Left(c)
    ensures b == c
  {
  }

  /** A clock that counts down from `left` and restarts at `period`. */
  function CountDown(period: nat, left: nat, amount: nat): nat
    requires period > 0
  {
    if amount < left then left - amount else period - (amount - left) % period
  }

  /** Counting down twice is counting down once by the sum. */
  lemma CountDownTwice(period: nat, left: nat, a: nat, b: nat)
    requires period > 0
    ensures CountDown(period, left, a) > 0 || left == 0 || a < left
    ensures CountDown(period, CountDown(period, left, a), b) == CountDown(period, left, a + b)
  {
    if a >= left {
      var m := (a - left) % period;
      ModSum(a - left, b, period);
      if b < period - m {
        SmallMod(m + b, period);
      } else {
        ModOnce(b - (period - m), period);
      }
    }
  }

  lemma ScaledMod(x: nat, fraction: nat, slice: nat)
    requires slice > 0 && fraction < ONE
    ensures (x * ONE + fraction) % (slice * ONE) == (x % slice) * ONE + fraction
  {
    var w, q := x % slice, x / slice;
    DivMod(x, slice);
    assert x * ONE + fraction == (w * ONE + fraction) + q * (slice * ONE);
    ModPeriods(w * ONE + fraction, q, slice * ONE);
    SmallMod(w * ONE + fraction, slice * ONE);
  }

  lemma RenewedLeft(slice: nat, overshoot: nat, fraction: nat)
    requires slice > 0 && fraction < ONE
    ensures Renewed(slice, overshoot) > 0
    ensures Left(Budget(Renewed(slice, overshoot), fraction)) ==
            slice * ONE - (overshoot * ONE + fraction) % (slice * ONE)
  {
    ScaledMod(overshoot, fraction, slice);
  }

  lemma RunningCharge(b: Budget, p: Peers, slice: nat, amount: nat)
    requires slice > 0 && b.remaining > 0 && !p.higher && !p.same && amount > 0
    ensures var service, next := (b.fraction + amount) / ONE, (b.fraction + amount) % ONE;
            Charge(b, p, slice, amount) ==
            Served(Budget(if service < b.remaining then b.remaining - service
                          else Renewed(slice, service - b.remaining), next), false)
  {
    SplitAmount(amount / ONE, amount % ONE, b.fraction);
  }

  /** Without peers a running budget is a clock that restarts at the slice boundary. */
  lemma ChargeCountsDown(b: Budget, p: Peers, slice: nat, amount: nat)
    requires slice > 0 && Fine(b) && b.remaining > 0 && !p.higher && !p.same
    ensures var s := Charge(b, p, slice, amount);
            Fine(s.budget) && s.budget.remaining > 0 && !s.reschedule
              && Left(s.budget) == CountDown(slice * ONE, Left(b), amount)
  {
    if amount > 0 {
      RunningCharge(b, p, slice, amount);
      var service, next := (b.fraction + amount) / ONE, (b.fraction + amount) % ONE;
      if service >= b.remaining {
        RenewedLeft(slice, service - b.remaining, next);
      }
    }
  }

  lemma SpentCharge(b: Budget, p: Peers, slice: nat, amount: nat)
    requires slice > 0 && Fine(b) && b.remaining == 0 && !p.higher && !p.same && amount > 0
    ensures var service, next := (b.fraction + amount) / ONE, (b.fraction + amount) % ONE;
            Charge(b, p, slice, amount) ==
              Served(Budget(Renewed(slice, if service == 0 then 0 else service - 1), next), false)
  {
    SplitAmount(amount / ONE, amount % ONE, b.fraction);
  }

  /** What a renewal leaves of a fresh slice. */
  lemma RenewalLeft(slice: nat, total: nat)
    requires slice > 0
    ensures var service, next := total / ONE, total % ONE;
            var renewed := Budget(Renewed(slice, if service == 0 then 0 else service - 1), next);
            && Fine(renewed) && renewed.remaining > 0
            && (total < ONE ==> renewed == Budget(slice, total))
            && (total >= ONE ==> Left(renewed) == CountDown(slice * ONE, slice * ONE, total - ONE))
  {
    var service, next := total / ONE, total % ONE;
    if total < ONE {
      RenewedLeft(slice, 0, next);
    } else {
      RenewedLeft(slice, service - 1, next);
      assert total - ONE == (service - 1) * ONE + next;
      FreshSlice(slice * ONE, total - ONE);
    }
  }

  /** A spent budget without peers: the renewal takes the first whole tick. */
  lemma RenewalCountsDown(b: Budget, p: Peers, slice: nat, amount: nat)
    requires slice > 0 && Fine(b) && b.remaining == 0 && !p.higher && !p.same && amount > 0
    ensures var s := Charge(b, p, slice, amount);
            && Fine(s.budget) && s.budget.remaining > 0 && !s.reschedule
            && (b.fraction + amount < ONE ==> s.budget == Budget(slice, b.fraction + amount))
            && (b.fraction + amount >= ONE ==>
                  Left(s.budget) == CountDown(slice * ONE, slice * ONE, b.fraction + amount - ONE))
  {
    SpentCharge(b, p, slice, amount);
    RenewalLeft(slice, b.fraction + amount);
  }

  lemma FreshSlice(period: nat, amount: nat)
    requires period > 0
    ensures CountDown(period, period, amount) == period - amount % period
  {
    if amount < period {
      SmallMod(amount, period);
    } else {
      ModOnce(amount - period, period);
    }
  }

  /** With peers a budget is spent once the boundary is reached, and stays spent. */
  lemma ChargeWithPeers(b: Budget, p: Peers, slice: nat, amount: nat)
    requires slice > 0 && Fine(b) && (p.higher || p.same) && amount > 0
    ensures var s := Charge(b, p, slice, amount);
            && s.budget == (if amount < Left(b) then BudgetOf(Left(b) - amount) else Budget(0, 0))
            && (s.reschedule <==> p.higher || amount >= Left(b))
  {
    SplitAmount(amount / ONE, amount % ONE, b.fraction);
    var service, next := (b.fraction + amount) / ONE, (b.fraction + amount) % ONE;
    if amount < Left(b) {
      LeftDetermines(Budget(b.remaining - service, next), BudgetOf(Left(b) - amount));
    }
  }

  /** The budget at a distance from the boundary. */
  function BudgetOf(left: nat): (b: Budget)
    ensures Fine(b) && Left(b) == left
  {
    Budget((left + ONE - 1) / ONE, ((left + ONE - 1) / ONE) * ONE - left)
  }

  // ----- service in pieces -----

  function Twice(b: Budget, p: Peers, slice: nat, first: nat, second: nat): Served
    requires slice > 0
  {
    var s := Charge(b, p, slice, first);
    var t := Charge(s.budget, p, slice, second);
    Served(t.budget, s.reschedule || t.reschedule)
  }

  /** The one case in which pieces differ: a spent budget is renewed before its first whole tick is complete. */
  predicate Swallowed(b: Budget, p: Peers, slice: nat, first: nat, second: nat) {
    && b.remaining == 0 && !p.higher && !p.same && slice > 1
    && first > 0 && b.fraction + first < ONE <= b.fraction + first + second
  }

  lemma NoService(b: Budget, p: Peers, slice: nat)
    requires slice > 0
    ensures Charge(b, p, slice, 0) == Served(b, false)
  {
  }

  lemma SplitRunning(b: Budget, p: Peers, slice: nat, first: nat, second: nat)
    requires slice > 0 && Fine(b) && b.remaining > 0 && !p.higher && !p.same
    ensures Twice(b, p, slice, first, second) == Charge(b, p, slice, first + second)
  {
    var s := Charge(b, p, slice, first);
    ChargeCountsDown(b, p, slice, first);
    ChargeCountsDown(s.budget, p, slice, second);
    ChargeCountsDown(b, p, slice, first + second);
    CountDownTwice(slice * ONE, Left(b), first, second);
    LeftDetermines(Charge(s.budget, p, slice, second).budget, Charge(b, p, slice, first + second).budget);
  }

  lemma SplitWithPeers(b: Budget, p: Peers, slice: nat, first: nat, second: nat)
    requires slice > 0 && Fine(b) && (p.higher || p.same) && first > 0 && second > 0
    ensures Twice(b, p, slice, first, second) == Charge(b, p, slice, first + second)
  {
    ChargeWithPeers(b, p, slice, first);
    ChargeWithPeers(Charge(b, p, slice, first).budget, p, slice, second);
    ChargeWithPeers(b, p, slice, first + second);
  }

  lemma SplitRenewal(b: Budget, p: Peers, slice: nat, first: nat, second: nat)
    requires slice > 0 && Fine(b) && b.remaining == 0 && !p.higher && !p.same && first > 0 && second > 0
    ensures Twice(b, p, slice, first, second) == Charge(b, p, slice, first + second) <==>
              !Swallowed(b, p, slice, first, second)
  {
    var s := Charge(b, p, slice, first);
    RenewalCountsDown(b, p, slice, first);
    RenewalCountsDown(b, p, slice, first + second);
    ChargeCountsDown(s.budget, p, slice, second);
    RenewalCompares(slice, b.fraction, first, second, s.budget, Charge(s.budget, p, slice, second).budget,
                    Charge(b, p, slice, first + second).budget);
  }

  /** A renewal in two pieces, compared with one in a single piece. */
  lemma RenewalCompares(slice: nat, base: nat, first: nat, second: nat, s: Budget, two: Budget, one: Budget)
    requires slice > 0 && base < ONE && first > 0 && second > 0 && Fine(s) && Fine(two) && Fine(one) && s.remaining > 0
    requires base + first < ONE ==> s == Budget(slice, base + first)
    requires base + first >= ONE ==> Left(s) == CountDown(slice * ONE, slice * ONE, base + first - ONE)
    requires Left(two) == CountDown(slice * ONE, Left(s), second)
    requires base + first + second < ONE ==> one == Budget(slice, base + first + second)
    requires base + first + second >= ONE ==>
               Left(one) == CountDown(slice * ONE, slice * ONE, base + first + second - ONE)
    ensures two == one <==> !(slice > 1 && base + first < ONE <= base + first + second)
  {
    if base + first >= ONE {
      CountDownTwice(slice * ONE, slice * ONE, base + first - ONE, second);
      LeftDetermines(one, two);
    } else if base + first + second >= ONE {
      SwallowedTick(slice, base + first, second);
      if slice == 1 {
        LeftDetermines(one, two);
      }
    } else {
      LeftDetermines(one, two);
    }
  }

  lemma SwallowedTick(slice: nat, first: nat, second: nat)
    requires slice > 0 && 0 < first < ONE <= first + second
    ensures
      CountDown(slice * ONE, slice * ONE - first, second) == CountDown(slice * ONE, slice * ONE, first + second - ONE)
      <==> slice == 1
  {
    var period, x := slice * ONE, first + second - ONE;
    CountDownTwice(period, period, first, second);
    FreshSlice(period, first + second);
    FreshSlice(period, x);
    if slice == 1 {
      ModOnce(x, ONE);
    } else {
      ModSum(x, ONE, period);
      assert ONE < period;
      ShiftedMod(x % period, ONE, period);
    }
  }

  /** Charging in two pieces equals charging once, exactly when no renewal swallows the completed tick. */
  lemma SplitServiceExactly(b: Budget, p: Peers, slice: nat, first: nat, second: nat)
    requires slice > 0 && Fine(b)
    ensures Twice(b, p, slice, first, second) == Charge(b, p, slice, first + second) <==>
              !Swallowed(b, p, slice, first, second)
  {
    if first == 0 || second == 0 {
      NoService(b, p, slice);
      NoService(Charge(b, p, slice, first).budget, p, slice);
    } else if p.higher || p.same {
      SplitWithPeers(b, p, slice, first, second);
    } else if b.remaining > 0 {
      SplitRunning(b, p, slice, first, second);
    } else {
      SplitRenewal(b, p, slice, first, second);
    }
  }

  // ----- any number of pieces -----

  function Sum(amounts: seq<nat>): nat { if amounts == [] then 0 else amounts[0] + Sum(amounts[1..]) }

  function Stepwise(b: Budget, p: Peers, slice: nat, amounts: seq<nat>): Served
    requires slice > 0
    decreases amounts
  {
    if amounts == [] then Served(b, false)
    else
      var s := Charge(b, p, slice, amounts[0]);
      var t := Stepwise(s.budget, p, slice, amounts[1..]);
      Served(t.budget, s.reschedule || t.reschedule)
  }

  /** A budget from which pieces never differ: running, or with a peer waiting. */
  predicate Steady(b: Budget, p: Peers) { Fine(b) && (b.remaining > 0 || p.higher || p.same) }

  lemma SteadyKept(b: Budget, p: Peers, slice: nat, amount: nat)
    requires slice > 0 && Steady(b, p)
    ensures Steady(Charge(b, p, slice, amount).budget, p)
  {
    if amount == 0 {
      NoService(b, p, slice);
    } else if p.higher || p.same {
      ChargeWithPeers(b, p, slice, amount);
    } else {
      ChargeCountsDown(b, p, slice, amount);
    }
  }

  /** From a running budget, any number of charges equals one charge of their sum, through any number of renewals. */
  lemma {:induction false} StepwiseEqualsBulk(b: Budget, p: Peers, slice: nat, amounts: seq<nat>)
    requires slice > 0 && Steady(b, p)
    ensures Stepwise(b, p, slice, amounts) == Charge(b, p, slice, Sum(amounts))
    decreases amounts
  {
    if amounts == [] {
      NoService(b, p, slice);
    } else {
      SteadyKept(b, p, slice, amounts[0]);
      StepwiseEqualsBulk(Charge(b, p, slice, amounts[0]).budget, p, slice, amounts[1..]);
      SplitServiceExactly(b, p, slice, amounts[0], Sum(amounts[1..]));
    }
  }

  /** The first piece that is charged at all renews a spent budget, and the rest completes the tick it swallows. */
  predicate AnySwallowed(b: Budget, p: Peers, slice: nat, amounts: seq<nat>) {
    amounts != [] &&
    if amounts[0] == 0 then AnySwallowed(b, p, slice, amounts[1..])
    else Swallowed(b, p, slice, amounts[0], Sum(amounts[1..]))
  }

  lemma SteadyAfter(b: Budget, p: Peers, slice: nat, amount: nat)
    requires slice > 0 && Fine(b) && amount > 0
    ensures Steady(Charge(b, p, slice, amount).budget, p)
  {
    if Steady(b, p) {
      SteadyKept(b, p, slice, amount);
    } else {
      RenewalCountsDown(b, p, slice, amount);
    }
  }

  /** From any budget, any number of charges equals one charge of their sum, exactly when no tick is swallowed. */
  lemma {:induction false} StepwiseExactly(b: Budget, p: Peers, slice: nat, amounts: seq<nat>)
    requires slice > 0 && Fine(b)
    ensures Stepwise(b, p, slice, amounts) == Charge(b, p, slice, Sum(amounts)) <==> !AnySwallowed(b, p, slice, amounts)
    decreases amounts
  {
    NoService(b, p, slice);
    if amounts != [] && amounts[0] == 0 {
      StepwiseExactly(b, p, slice, amounts[1..]);
    } else if amounts != [] {
      SteadyAfter(b, p, slice, amounts[0]);
      StepwiseEqualsBulk(Charge(b, p, slice, amounts[0]).budget, p, slice, amounts[1..]);
      SplitServiceExactly(b, p, slice, amounts[0], Sum(amounts[1..]));
    }
  }
}
