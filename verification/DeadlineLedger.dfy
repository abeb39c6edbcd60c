/**
 Deadline admission: a queue's own ledger of rounded-up utilisations and the ledger
 of the domain it shares with other queues, with the steps of every admission and
 release interleaved arbitrarily.
 */
module DeadlineLedger {
  import opened Words

  const SCALE: nat := 1_000_000_000

  datatype Config = Config(runtime: nat, deadline: nat, period: nat) {
    predicate Valid() { runtime != 0 && runtime <= deadline <= period }
  }

  datatype LedgerError = InvalidParameters | TaskBusy | ArithmeticExhausted | InconsistentState

  /** The share of the period, in parts of a thousand million, rounded up. */
  function Utilization(c: Config): nat
    requires c.Valid()
  {
    (c.runtime * SCALE + (c.period - 1)) / c.period
  }

  lemma RoundedUp(x: nat, period: nat)
    requires period > 0
    ensures x <= ((x + (period - 1)) / period) * period < x + period
  {
    var y := x + (period - 1);
    assert y == (y / period) * period + y % period;
  }

  /** The charge covers the exact share and exceeds it by less than one part. */
  lemma UtilizationCovers(c: Config)
    requires c.Valid()
    ensures c.runtime * SCALE <= Utilization(c) * c.period < c.runtime * SCALE + c.period
  {
    RoundedUp(c.runtime * SCALE, c.period);
  }

  /** No smaller charge covers the share. */
  lemma UtilizationLeast(c: Config, n: nat)
    requires c.Valid() && c.runtime * SCALE <= n * c.period
    ensures Utilization(c) <= n
  {
    UtilizationCovers(c);
    if n < Utilization(c) {
      Product(n + 1, Utilization(c), c.period);
    }
  }

  lemma Product(a: nat, b: nat, period: nat)
    requires a <= b
    ensures a * period <= b * period
  {
  }

  /** A whole processor is the most a task can ask for, and exactly what one that never pauses is charged. */
  lemma WholeProcessor(c: Config)
    requires c.Valid()
    ensures Utilization(c) <= SCALE
    ensures c.runtime == c.period ==> Utilization(c) == SCALE
  {
    Product(c.runtime, c.period, SCALE);
    UtilizationLeast(c, SCALE);
    UtilizationCovers(c);
    if c.runtime == c.period && Utilization(c) < SCALE {
      Product(Utilization(c) + 1, SCALE, c.period);
    }
  }

  function Held(configs: seq<Config>): nat
    requires AllValid(configs)
  {
    if configs == [] then 0 else Utilization(configs[0]) + Held(configs[1..])
  }

  predicate AllValid(configs: seq<Config>) { forall i :: 0 <= i < |configs| ==> configs[i].Valid() }

  // ----- in place, one caller at a time -----

  class DeadlineDomain {
    const capacity: nat
    var utilization: nat

    ghost predicate Valid()
      reads this
    {
      utilization <= capacity < B64
    }

    /** A root domain of several processors. */
    constructor (cpus: nat)
      ensures Valid() && utilization == 0 && capacity >= SCALE
      ensures cpus <= 1 ==> capacity == SCALE
      ensures SCALE * cpus < B64 && cpus >= 1 ==> capacity == SCALE * cpus
    {
      var wanted := SCALE * (if cpus == 0 then 1 else cpus);
      capacity := if wanted >= B64 then B64 - 1 else wanted;
      utilization := 0;
    }

    /**
     Exchanges one reservation for another. Each entry of `others` is an exchange that fails, and what the ledger
     holds then, put there by other queues or left as it was. The outcome is decided by the ledger as it stands
     after `tries` failed exchanges.
     */
    method Replace(before: nat, after: nat, others: seq<nat>)
      returns (r: Result<bool, LedgerError>, ghost tries: nat)
      requires Valid() && before < B64 && after < B64 && forall i :: 0 <= i < |others| ==> others[i] <= capacity
      modifies this
      ensures Valid() && tries <= |others|
      ensures var seen := SeenAt(old(utilization), others, tries);
              && (r.Ok? <==> before <= seen && seen - before + after <= capacity)
              && utilization == (if r.Ok? then seen - before + after else seen)
              && (r.Ok? ==> tries == |others|)
              && (r.Err? ==> r.error == if seen < before then InconsistentState
                                        else if seen - before + after >= B64 then ArithmeticExhausted else TaskBusy)
    {
      var current, i := utilization, 0;
      while true
        invariant i <= |others| && current == utilization == SeenAt(old(utilization), others, i)
        decreases |others| - i
      {
        if current < before {
          return Err(InconsistentState), i;
        }
        var total := current - before + after;
        if total >= B64 {
          return Err(ArithmeticExhausted), i;
        }
        if total > capacity {
          return Err(TaskBusy), i;
        }
        if i == |others| {
          utilization := total;
          return Ok(true), i;
        }
        utilization := others[i];
        current := utilization;
        i := i + 1;
      }
    }
  }

  /** The ledger after so many failed exchanges. */
  function SeenAt(first: nat, others: seq<nat>, tries: nat): nat
    requires tries <= |others|
  {
    if tries == 0 then first else others[tries - 1]
  }

  class DeadlineQueue {
    const domain: DeadlineDomain?
    var utilization: nat

    constructor (domain: DeadlineDomain?)
      ensures this.domain == domain && utilization == 0
    {
      this.domain := domain;
      utilization := 0;
    }

    method AdmitLocal(c: Config) returns (r: Result<bool, LedgerError>)
      modifies this
      ensures r.Ok? <==> c.Valid() && old(utilization) + Utilization(c) <= SCALE
      ensures r.Ok? ==> utilization == old(utilization) + Utilization(c)
      ensures r.Err? ==> utilization == old(utilization) && r.error == if c.Valid() then TaskBusy else InvalidParameters
    {
      if !c.Valid() {
        return Err(InvalidParameters);
      }
      var total := utilization + Utilization(c);
      if total > SCALE {
        return Err(TaskBusy);
      }
      utilization := total;
      return Ok(true);
    }

    method ReleaseLocal(c: Config)
      modifies this
      ensures utilization == if c.Valid() && old(utilization) >= Utilization(c) then old(utilization) - Utilization(c)
                             else if c.Valid() then 0 else old(utilization)
    {
      var share := if c.Valid() then Utilization(c) else 0;
      utilization := if utilization >= share then utilization - share else 0;
    }

    /**
     Reserves locally, then in the domain while other queues change it; a refusal by either leaves this queue as it
     was and the domain as the others left it.
     */
    method Admit(c: Config, others: seq<nat>) returns (r: Result<bool, LedgerError>, ghost tries: nat)
      requires domain != null ==> domain.Valid() && forall i :: 0 <= i < |others| ==> others[i] <= domain.capacity
      modifies this, domain
      ensures domain != null ==> domain.Valid()
      ensures tries <= |others|
      ensures r.Ok? <==> c.Valid() && old(utilization) + Utilization(c) <= SCALE
                         && (domain != null ==>
                               SeenAt(old(domain.utilization), others, tries) + Utilization(c) <= domain.capacity)
      ensures utilization == old(utilization) + if r.Ok? then Utilization(c) else 0
      ensures domain != null ==>
                domain.utilization ==
                SeenAt(old(domain.utilization), others, tries) + if r.Ok? then Utilization(c) else 0
      ensures c.Valid() && old(utilization) == 0
              && (domain != null ==> SeenAt(old(domain.utilization), others, tries) + SCALE <= domain.capacity)
              ==> r.Ok?
    {
      if c.Valid() {
        WholeProcessor(c);
      }
      tries := 0;
      r := AdmitLocal(c);
      if r.Ok? && domain != null {
        r, tries := domain.Replace(0, Utilization(c), others);
        if r.Err? {
          ReleaseLocal(c);
        }
      }
    }

    /** Gives an admitted reservation back to both ledgers; the others leave it in the domain until then. */
    method Release(c: Config, others: seq<nat>)
      requires c.Valid() && Utilization(c) <= utilization && Utilization(c) < B64
      requires domain != null ==> domain.Valid() && Utilization(c) <= domain.utilization
      requires domain != null ==> forall i :: 0 <= i < |others| ==> Utilization(c) <= others[i] <= domain.capacity
      modifies this, domain
      ensures domain != null ==> domain.Valid()
      ensures domain != null ==>
                domain.utilization == SeenAt(old(domain.utilization), others, |others|) - Utilization(c)
      ensures utilization == old(utilization) - Utilization(c)
    {
      if domain != null {
        ghost var tries;
        var released;
        released, tries := domain.Replace(Utilization(c), 0, others);
        assert released.Ok?;
      }
      ReleaseLocal(c);
    }
  }

  // ----- any interleaving of several queues -----

  /** Where a queue is in an admission or release; `seen` is the domain ledger as last read. */
  datatype Phase =
    | Idle
    | Admitting(config: Config, seen: nat)
    | Refunding(config: Config)
    | Releasing(config: Config, seen: nat)

  datatype Queue = Queue(local: nat, held: seq<Config>, phase: Phase)

  datatype System = System(queues: seq<Queue>, ledger: nat, capacity: nat)

  datatype Step =
    | Reserve(config: Config)
    | Attempt
    | Reread
    | Refund
    | Return(index: nat)

  /** The reservation that is on its way in or out. */
  function InFlight(q: Queue): nat
    requires q.phase.Idle? || q.phase.config.Valid()
  {
    if q.phase.Idle? then 0 else Utilization(q.phase.config)
  }

  predicate QueueOk(q: Queue) {
    && AllValid(q.held) && (q.phase.Idle? || q.phase.config.Valid())
    && q.local == Held(q.held) + InFlight(q) <= SCALE
    && (q.phase.Releasing? ==> q.phase.seen >= InFlight(q))
  }

  /** A queue's part of the domain ledger: what it holds and what it has not given back yet. */
  function Share(q: Queue): nat
    requires QueueOk(q)
  {
    Held(q.held) + if q.phase.Releasing? then InFlight(q) else 0
  }

  predicate AllOk(queues: seq<Queue>) { forall i :: 0 <= i < |queues| ==> QueueOk(queues[i]) }

  function Shares(queues: seq<Queue>): nat
    requires AllOk(queues)
  {
    if queues == [] then 0 else Share(queues[0]) + Shares(queues[1..])
  }

  ghost predicate Inv(s: System) { AllOk(s.queues) && s.ledger == Shares(s.queues) <= s.capacity < B64 }

  function WithoutAt(configs: seq<Config>, k: nat): seq<Config>
    requires k < |configs|
  {
    configs[..k] + configs[k + 1..]
  }

  /**
   One queue's next state and the ledger after it; `None` when the step does not apply or would fail
   its assertion.
   */
  function Taken(q: Queue, ledger: nat, capacity: nat, step: Step): Option<(Queue, nat)> {
    match step
    case Reserve(c) =>
      if q.phase.Idle? && c.Valid() && q.local + Utilization(c) <= SCALE
      then Some((Queue(q.local + Utilization(c), q.held, Admitting(c, ledger)), ledger)) else None
    case Attempt =>
      if q.phase.Admitting? && q.phase.config.Valid() then
        var c := q.phase.config;
        var total := q.phase.seen + Utilization(c);
        if total >= B64 || total > capacity then Some((q.(phase := Refunding(c)), ledger))
        else if ledger == q.phase.seen then Some((Queue(q.local, q.held + [c], Idle), total))
        else Some((q.(phase := Admitting(c, ledger)), ledger))
      else if q.phase.Releasing? && q.phase.config.Valid() && q.phase.seen >= Utilization(q.phase.config) then
        var c := q.phase.config;
        if ledger == q.phase.seen && q.local >= Utilization(c)
        then Some((Queue(q.local - Utilization(c), q.held, Idle), q.phase.seen - Utilization(c)))
        else Some((q.(phase := Releasing(c, ledger)), ledger))
      else None
    case Reread =>
      if q.phase.Admitting? then Some((q.(phase := Admitting(q.phase.config, ledger)), ledger))
      else if q.phase.Releasing? then Some((q.(phase := Releasing(q.phase.config, ledger)), ledger))
      else None
    case Refund =>
      if q.phase.Refunding? && q.phase.config.Valid() && q.local >= Utilization(q.phase.config)
      then Some((Queue(q.local - Utilization(q.phase.config), q.held, Idle), ledger)) else None
    case Return(k) =>
      if q.phase.Idle? && k < |q.held|
          then Some((Queue(q.local, WithoutAt(q.held, k), Releasing(q.held[k], ledger)), ledger)) else None
  }

  ghost predicate Next(s: System, t: System, i: nat, step: Step) {
    && i < |s.queues|
    && var r := Taken(s.queues[i], s.ledger, s.capacity, step);
       r.Some? && t == System(s.queues[i := r.value.0], r.value.1, s.capacity)
  }

  // ----- sums -----

  lemma {:induction false} HeldAppend(configs: seq<Config>, c: Config)
    requires AllValid(configs) && c.Valid()
    ensures Held(configs + [c]) == Held(configs) + Utilization(c)
    decreases configs
  {
    if configs == [] {
      assert configs + [c] == [c];
    } else {
      HeldAppend(configs[1..], c);
      assert (configs + [c])[1..] == configs[1..] + [c];
    }
  }

  lemma {:induction false} HeldWithout(configs: seq<Config>, k: nat)
    requires AllValid(configs) && k < |configs|
    ensures AllValid(WithoutAt(configs, k)) && Held(WithoutAt(configs, k)) + Utilization(configs[k]) == Held(configs)
    decreases configs
  {
    var rest := WithoutAt(configs, k);
    if k == 0 {
      assert rest == configs[1..];
    } else {
      HeldWithout(configs[1..], k - 1);
      assert rest[0] == configs[0] && rest[1..] == WithoutAt(configs[1..], k - 1);
    }
  }

  lemma {:induction false} SharesUpdate(queues: seq<Queue>, i: nat, q: Queue)
    requires AllOk(queues) && i < |queues| && QueueOk(q)
    ensures AllOk(queues[i := q]) && Shares(queues[i := q]) == Shares(queues) - Share(queues[i]) + Share(q)
    decreases queues
  {
    if i == 0 {
      assert queues[i := q][1..] == queues[1..];
    } else {
      SharesUpdate(queues[1..], i - 1, q);
      assert queues[i := q][1..] == queues[1..][i - 1 := q];
    }
  }

  lemma {:induction false} ShareWithin(queues: seq<Queue>, i: nat)
    requires AllOk(queues) && i < |queues|
    ensures Share(queues[i]) <= Shares(queues)
    decreases queues
  {
    if i > 0 {
      ShareWithin(queues[1..], i - 1);
    }
  }

  /** A step keeps its own queue's ledger exact and changes the domain ledger by the change of its share. */
  lemma TakenOk(q: Queue, ledger: nat, capacity: nat, step: Step)
    requires QueueOk(q) && Taken(q, ledger, capacity, step).Some? && Share(q) <= ledger <= capacity
    ensures var r := Taken(q, ledger, capacity, step).value;
            QueueOk(r.0) && r.1 == ledger - Share(q) + Share(r.0) && r.1 <= capacity
  {
    match step
    case Reserve(_) =>
    case Attempt =>
      if q.phase.Admitting? {
        HeldAppend(q.held, q.phase.config);
      }
    case Reread =>
    case Refund =>
    case Return(k) => HeldWithout(q.held, k);
  }

  lemma NextInv(s: System, t: System, i: nat, step: Step)
    requires Inv(s) && Next(s, t, i, step)
    ensures Inv(t)
  {
    ShareWithin(s.queues, i);
    TakenOk(s.queues[i], s.ledger, s.capacity, step);
    SharesUpdate(s.queues, i, t.queues[i]);
  }

  /** A release never finds too little in the domain ledger, and a refund never too little in its own. */
  lemma NeverStuck(s: System, i: nat)
    requires Inv(s) && i < |s.queues|
    ensures s.queues[i].phase.Releasing? ==> s.queues[i].phase.seen >= Utilization(s.queues[i].phase.config)
    ensures !s.queues[i].phase.Idle? ==> s.queues[i].local >= Utilization(s.queues[i].phase.config)
    ensures s.queues[i].phase.Refunding? ==> Taken(s.queues[i], s.ledger, s.capacity, Refund).Some?
    ensures s.queues[i].phase.Admitting? || s.queues[i].phase.Releasing? ==>
              Taken(s.queues[i], s.ledger, s.capacity, Attempt).Some?
  {
    assert QueueOk(s.queues[i]);
  }

  ghost predicate IsRun(states: seq<System>, who: seq<nat>, steps: seq<Step>) {
    && |states| == |steps| + 1 && |who| == |steps| && Inv(states[0])
    && forall k :: 0 <= k < |steps| ==> Next(states[k], states[k + 1], who[k], steps[k])
  }

  /** In every state of every interleaving the ledgers are exact and within their caps. */
  lemma {:induction false} RunInv(states: seq<System>, who: seq<nat>, steps: seq<Step>, k: nat)
    requires IsRun(states, who, steps) && k < |states|
    ensures Inv(states[k])
    decreases k
  {
    if k > 0 {
      RunInv(states, who, steps, k - 1);
      NextInv(states[k - 1], states[k], who[k - 1], steps[k - 1]);
    }
  }

  // ----- a refused admission -----

  /**
   Queue `i` reserves at step `first`, only retries in between, and gives up at step `last`; other
   queues do anything.
   */
  ghost predicate IsRefused(states: seq<System>, who: seq<nat>, steps: seq<Step>, i: nat, first: nat, last: nat) {
    && IsRun(states, who, steps) && first < last < |steps| && who[first] == i == who[last] && steps[first].Reserve?
       && steps[last].Refund?
    && forall k :: first < k < last && who[k] == i ==> steps[k].Attempt? || steps[k].Reread?
  }

  lemma QueuesStay(states: seq<System>, who: seq<nat>, steps: seq<Step>, k: nat, i: nat)
    requires IsRun(states, who, steps) && k < |steps| && i < |states[k].queues|
    ensures |states[k + 1].queues| == |states[k].queues|
    ensures who[k] != i ==> states[k + 1].queues[i] == states[k].queues[i]
    ensures who[k] == i ==>
              var r := Taken(states[k].queues[i], states[k].ledger, states[k].capacity, steps[k]);
              r.Some? && states[k + 1].queues[i] == r.value.0 && states[k + 1].ledger == r.value.1
  {
    assert Next(states[k], states[k + 1], who[k], steps[k]);
  }

  /** An admission that ends in a refund was never committed on the way. */
  lemma {:induction false} NotCommitted(states: seq<System>, who: seq<nat>, steps: seq<Step>, i: nat, first: nat,
                                        last: nat, k: nat)
    requires IsRefused(states, who, steps, i, first, last) && first < k <= last && i < |states[k].queues|
    ensures !states[k].queues[i].phase.Idle?
    decreases last - k
  {
    QueuesStay(states, who, steps, k, i);
    if k < last {
      NotCommitted(states, who, steps, i, first, last, k + 1);
    }
  }

  /** A queue in the middle of the admission of `c` that began at `q`. */
  predicate Underway(q: Queue, c: Config, now: Queue) {
    c.Valid() && now.held == q.held && now.local == q.local + Utilization(c)
      && (now.phase.Admitting? || now.phase.Refunding?) && now.phase.config == c
  }

  lemma ReserveStarts(states: seq<System>, who: seq<nat>, steps: seq<Step>, i: nat, first: nat, last: nat)
    requires IsRefused(states, who, steps, i, first, last)
    ensures i < |states[first].queues| == |states[first + 1].queues| && states[first].queues[i].phase.Idle?
    ensures Underway(states[first].queues[i], steps[first].config, states[first + 1].queues[i])
            && states[first + 1].ledger == states[first].ledger
  {
    assert Next(states[first], states[first + 1], who[first], steps[first]);
  }

  lemma {:induction false} StaysUnderway(states: seq<System>, who: seq<nat>, steps: seq<Step>, i: nat, first: nat,
                                         last: nat, k: nat)
    requires IsRefused(states, who, steps, i, first, last) && first < k <= last
    ensures i < |states[first].queues| == |states[k].queues|
    ensures Underway(states[first].queues[i], steps[first].config, states[k].queues[i])
    decreases k
  {
    ReserveStarts(states, who, steps, i, first, last);
    if k > first + 1 {
      StaysUnderway(states, who, steps, i, first, last, k - 1);
      QueuesStay(states, who, steps, k - 1, i);
      NotCommitted(states, who, steps, i, first, last, k);
    }
  }

  /** No step of a refused admission touches the domain ledger. */
  lemma RefusalKeepsLedger(states: seq<System>, who: seq<nat>, steps: seq<Step>, i: nat, first: nat, last: nat, k: nat)
    requires IsRefused(states, who, steps, i, first, last) && first <= k <= last && who[k] == i
    ensures states[k + 1].ledger == states[k].ledger
  {
    ReserveStarts(states, who, steps, i, first, last);
    if k > first {
      StaysUnderway(states, who, steps, i, first, last, k);
      QueuesStay(states, who, steps, k, i);
      if k < last {
        NotCommitted(states, who, steps, i, first, last, k + 1);
      }
    }
  }

  /** A refused admission leaves its own queue exactly as it found it. */
  lemma RefusalRestores(states: seq<System>, who: seq<nat>, steps: seq<Step>, i: nat, first: nat, last: nat)
    requires IsRefused(states, who, steps, i, first, last)
    ensures i < |states[first].queues| && i < |states[last + 1].queues|
            && states[last + 1].queues[i] == states[first].queues[i]
  {
    ReserveStarts(states, who, steps, i, first, last);
    StaysUnderway(states, who, steps, i, first, last, last);
    QueuesStay(states, who, steps, last, i);
  }

  // ----- what the ledger is for -----

  function Rate(c: Config): real
    requires c.Valid()
  {
    c.runtime as real / c.period as real
  }

  function Rates(configs: seq<Config>): real
    requires AllValid(configs)
  {
    if configs == [] then 0.0 else Rate(configs[0]) + Rates(configs[1..])
  }

  lemma CrossMultiply(a: real, b: real, c: real, d: real)
    requires b > 0.0 && d > 0.0 && a * d <= c * b
    ensures a / b <= c / d
  {
    var x, y := a / b, c / d;
    assert x * (b * d) == (x * b) * d && y * (b * d) == (y * d) * b;
    Cancel(x, y, b * d);
  }

  lemma Cancel(x: real, y: real, k: real)
    requires k > 0.0 && x * k <= y * k
    ensures x <= y
  {
  }

  lemma RateCovered(c: Config)
    requires c.Valid()
    ensures Rate(c) <= Utilization(c) as real / SCALE as real
  {
    UtilizationCovers(c);
    assert c.runtime as real * SCALE as real == (c.runtime * SCALE) as real;
    assert Utilization(c) as real * c.period as real == (Utilization(c) * c.period) as real;
    CrossMultiply(c.runtime as real, c.period as real, Utilization(c) as real, SCALE as real);
  }

  lemma {:induction false} RatesCovered(configs: seq<Config>)
    requires AllValid(configs)
    ensures Rates(configs) <= Held(configs) as real / SCALE as real
    decreases configs
  {
    if configs != [] {
      RateCovered(configs[0]);
      RatesCovered(configs[1..]);
    }
  }

  /** No queue is ever given more deadline work than one processor can do. */
  lemma QueueNeverOverloaded(states: seq<System>, who: seq<nat>, steps: seq<Step>, k: nat, i: nat)
    requires IsRun(states, who, steps) && k < |states| && i < |states[k].queues|
    ensures AllValid(states[k].queues[i].held) && Rates(states[k].queues[i].held) <= 1.0
  {
    RunInv(states, who, steps, k);
    assert QueueOk(states[k].queues[i]);
    RatesCovered(states[k].queues[i].held);
  }

  function AllRates(queues: seq<Queue>): real
    requires AllOk(queues)
  {
    if queues == [] then 0.0 else Rates(queues[0].held) + AllRates(queues[1..])
  }

  lemma {:induction false} AllRatesCovered(queues: seq<Queue>)
    requires AllOk(queues)
    ensures AllRates(queues) <= Shares(queues) as real / SCALE as real
    decreases queues
  {
    if queues != [] {
      RatesCovered(queues[0].held);
      AllRatesCovered(queues[1..]);
    }
  }

  /** All queues of a domain together stay within its capacity. */
  lemma DomainNeverOverloaded(states: seq<System>, who: seq<nat>, steps: seq<Step>, k: nat)
    requires IsRun(states, who, steps) && k < |states|
    ensures AllOk(states[k].queues) && AllRates(states[k].queues) <= states[k].capacity as real / SCALE as real
  {
    RunInv(states, who, steps, k);
    AllRatesCovered(states[k].queues);
  }
}
