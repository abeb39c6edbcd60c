/**
 What the CFS scheduler's arithmetic and placement mean: the weight of a nice value,
 how fast vruntime grows, where a task enters, and who runs next after a task was
 preempted, yielded, migrated or reconfigured.
 */
module CfsLaws {
  import opened Words
  import opened LinkedLists
  import opened ReadyOrder
  import opened Remainders
  import opened CfsQueue
  import opened CfsScheduler

  // ----- weights -----

  function NiceParams(nice: int): Params { Params(Normal, nice, 0) }

  /** Between 20 and 30 per cent more. */
  predicate Level(heavier: nat, lighter: nat) { 12 * lighter <= 10 * heavier <= 13 * lighter && lighter < heavier }

  lemma LightLevel(i: nat)
    requires i < 19
    ensures Level(LIGHT[i], LIGHT[i + 1])
  {
  }

  lemma HeavyLevel(i: nat)
    requires i < 20
    ensures Level(HEAVY[i + 1], HEAVY[i])
  {
  }

  lemma NiceWeight(nice: int)
    requires -20 <= nice <= 19
    ensures Weight(NiceParams(nice)) == if nice > 0 then LIGHT[nice] else HEAVY[-nice]
  {
  }

  /** One nice level is worth between 20 and 30 per cent of weight. */
  lemma LevelStep(nice: int)
    requires -20 <= nice < 19
    ensures Level(Weight(NiceParams(nice)), Weight(NiceParams(nice + 1)))
  {
    NiceWeight(nice);
    NiceWeight(nice + 1);
    if nice >= 0 {
      LightLevel(nice);
    } else {
      HeavyLevel(-nice - 1);
    }
  }

  lemma {:induction false} NiceFalls(low: int, high: int)
    requires -20 <= low < high <= 19
    ensures Weight(NiceParams(high)) < Weight(NiceParams(low))
    decreases high - low
  {
    LevelStep(high - 1);
    if low < high - 1 {
      NiceFalls(low, high - 1);
    }
  }

  /** A larger nice value is a smaller weight; an idle task is as light as the largest, a real-time one as nice 0. */
  lemma WeightFalls(p: Params, q: Params)
    requires ValidParams(p) && ValidParams(q) && !RealTime(p) && !RealTime(q)
    ensures p.nice < q.nice ==> Weight(q) < Weight(p)
    ensures p.nice == q.nice ==> Weight(q) == Weight(p)
    ensures p.class_.IdleClass? ==> Weight(p) <= Weight(q)
  {
    assert Weight(p) == Weight(NiceParams(p.nice)) && Weight(q) == Weight(NiceParams(q.nice));
    if p.nice < q.nice {
      NiceFalls(p.nice, q.nice);
    } else if q.nice < p.nice {
      NiceFalls(q.nice, p.nice);
    }
  }

  lemma WeightScale(p: Params)
    requires ValidParams(p) && (RealTime(p) || p.nice == 0)
    ensures Weight(p) == 1024
  {
  }

  // ----- vruntime -----

  predicate InRange(x: int) { ISIZE_MIN <= x <= ISIZE_MAX }

  /** Ticks whose product with 1024 does not saturate. */
  predicate Plain(t: Task) { t.delta * 1024 <= ISIZE_MAX }

  lemma AtLeastItself(q: nat, w: nat)
    requires w > 0
    ensures q <= q * w
  {
  }

  lemma QuotientBounds(a: nat, w: nat)
    requires w > 0
    ensures a / w * w <= a < a / w * w + w && 0 <= a / w <= a
  {
    DivMod(a, w);
    AtLeastItself(a / w, w);
  }

  /** The end of the range that a number is nearest to, or the number itself. */
  predicate Clamps(r: int, x: int) {
    InRange(r) && (InRange(x) ==> r == x) && (x > ISIZE_MAX ==> r == ISIZE_MAX) && (x < ISIZE_MIN ==> r == ISIZE_MIN)
  }

  /** Vruntime is the start plus the ticks times 1024 over the weight, rounded down, with saturating operations. */
  lemma VruntimeMeans(t: Task) returns (grown: nat)
    requires ValidParams(t.params)
    ensures var w := Weight(t.params);
            var scaled := if w == 1024 then t.delta * 1024 else Min(t.delta * 1024, ISIZE_MAX);
            grown * w <= scaled < grown * w + w
    ensures Clamps(Vruntime(t), t.init + grown)
  {
    var w := Weight(t.params);
    if w == 1024 {
      grown := t.delta;
    } else {
      QuotientBounds(Min(t.delta * 1024, ISIZE_MAX), w);
      grown := Min(t.delta * 1024, ISIZE_MAX) / w;
    }
  }

  lemma Wider(q: nat, v: nat, w: nat)
    requires w <= v
    ensures q * w <= q * v
  {
  }

  lemma LargerQuotient(a: nat, b: nat, v: nat, w: nat)
    requires a <= b && 0 < w <= v
    ensures a / v <= b / w
  {
    QuotientBounds(a, v);
    QuotientBounds(b, w);
    Wider(a / v, v, w);
    if a / v > b / w {
      Farther(a / v, b / w, w);
    }
  }

  /** More ticks never lower vruntime. */
  lemma MoreTicks(t: Task, delta: nat)
    requires ValidParams(t.params) && t.delta <= delta
    ensures Vruntime(t) <= Vruntime(t.(delta := delta))
  {
    LargerQuotient(Min(t.delta * 1024, ISIZE_MAX), Min(delta * 1024, ISIZE_MAX), Weight(t.params), Weight(t.params));
  }

  lemma PlainVruntime(t: Task)
    requires ValidParams(t.params) && Plain(t)
    ensures Vruntime(t) == Saturated(t.init + t.delta * 1024 / Weight(t.params))
  {
    DivUnique(t.delta * 1024, t.delta, 0, 1024);
  }

  /** At equal ticks, or more, the lighter task is further on. */
  lemma VruntimeOrders(t: Task, u: Task)
    requires ValidParams(t.params) && ValidParams(u.params) && Plain(t) && Plain(u)
    requires t.init == u.init && t.delta <= u.delta && Weight(u.params) <= Weight(t.params)
    ensures Vruntime(t) <= Vruntime(u)
  {
    PlainVruntime(t);
    PlainVruntime(u);
    LargerQuotient(t.delta * 1024, u.delta * 1024, Weight(t.params), Weight(u.params));
  }

  lemma QuotientStep(a: nat, n: nat, w: nat)
    requires w > 0
    ensures var step := (a + n) / w - a / w;
            0 <= step && (w == n ==> step == 1) && (w <= n ==> 1 <= step) && (n <= w ==> step <= 1)
  {
    var q, r := a / w, (a + n) / w;
    QuotientBounds(a, w);
    QuotientBounds(a + n, w);
    LargerQuotient(a, a + n, w, w);
    Distribute(q, 1, w);
    if r > q + 1 {
      Farther(r, q + 1, w);
    }
  }

  /** A tick adds one unit at nice 0, at least one to a lighter task, and no more than one to a heavier one. */
  lemma TickAdvances(t: Task)
    requires ValidParams(t.params) && Plain(FairTick(t)) && ISIZE_MIN <= t.init
             && t.init + FairTick(t).delta * 1024 <= ISIZE_MAX
    ensures var step, w := Vruntime(FairTick(t)) - Vruntime(t), Weight(t.params);
            0 <= step && (w == 1024 ==> step == 1) && (w < 1024 ==> 1 <= step) && (w > 1024 ==> step <= 1)
  {
    PlainVruntime(t);
    PlainVruntime(FairTick(t));
    QuotientStep(t.delta * 1024, 1024, Weight(t.params));
    QuotientBounds(t.delta * 1024, Weight(t.params));
    QuotientBounds((t.delta + 1) * 1024, Weight(t.params));
  }

  /** New parameters keep the vruntime; a real-time task starts a whole quantum. */
  lemma RetunedKeepsVruntime(t: Task, params: Params, quantum: int)
    requires ValidParams(t.params) && ValidParams(params)
    ensures var u := Retuned(t, params, quantum);
            && u.params == params && Vruntime(u) == Vruntime(t)
            && (RealTime(params) ==> u.slice == quantum) && (!RealTime(params) ==> u.slice == 0)
            && u.owner == t.owner && u.key == t.key && u.offset == t.offset && u.seeded == t.seeded
  {
  }

  /** Accepted parameters keep the class, and what that class looks at. */
  lemma ValidatedMeans(p: Params)
    ensures Validated(p).Some? <==>
              if RealTime(p) then 1 <= p.priority <= 255 else p.class_.IdleClass? || -20 <= p.nice <= 19
    ensures Validated(p).Some? ==>
              var q := Validated(p).value;
              && q.class_ == p.class_ && ValidParams(q)
              && (RealTime(p) ==> q.priority == p.priority && q.nice == 0)
              && (!RealTime(p) ==> q.priority == 0 && q.nice == if p.class_.IdleClass? then 19 else p.nice)
  {
  }

  // ----- the floor -----

  predicate MaybeInRange(x: Option<int>) { x.Some? ==> InRange(x.value) }

  /** A candidate for the floor. */
  predicate Offers(current: Option<int>, ready: Option<int>, x: int) { current == Some(x) || ready == Some(x) }

  /** The floor never moves back, moves no further than the first candidate, and ends with the last one. */
  lemma FloorAdvances(floor: Option<int>, current: Option<int>, ready: Option<int>)
    ensures Refreshed(floor, current, ready).Some? <==> current.Some? || ready.Some?
    ensures var r := Refreshed(floor, current, ready);
            r.Some? ==>
              && (floor.Some? ==> floor.value <= r.value) && (r == floor || Offers(current, ready, r.value))
              && (forall x :: Offers(current, ready, x) ==> r.value <= x || r == floor)
              && (MaybeInRange(floor) && MaybeInRange(current) && MaybeInRange(ready) ==> MaybeInRange(r))
  {
  }

  // ----- where a fair task enters -----

  /** A new task starts at the floor or, when seeded, no earlier than its seed. */
  lemma NewStartsAtFloor(t: Task, floor: Option<int>, ready: Option<int>)
    requires ValidParams(t.params) && MaybeInRange(floor)
    ensures var p := FairPlace(t, New, floor, ready);
            && InRange(p) && FloorOf(floor) <= p
            && (if t.seeded then Vruntime(t) <= p && (p == Vruntime(t) || p == FloorOf(floor)) else p == FloorOf(floor))
  {
  }

  function WakeupSlack(c: TaskClass): int { match c case Batch => 3 case IdleClass => 4 case _ => 2 }

  /** A woken task keeps a later vruntime, and otherwise enters a class-dependent slack behind the floor. */
  lemma WakeupBehindFloor(t: Task, floor: Option<int>, ready: Option<int>)
    requires ValidParams(t.params) && !RealTime(t.params) && MaybeInRange(floor)
    ensures var p, behind := FairPlace(t, Wakeup, floor, ready), FloorOf(floor) + WakeupSlack(t.params.class_);
            InRange(p) && Vruntime(t) <= p && (p == Vruntime(t) || Clamps(p, behind)) && (behind <= p || p == ISIZE_MAX)
  {
  }

  /** A migrated task is as far from the new floor as it was from the old one, exactly if nothing saturates. */
  lemma MigrationKeepsDistance(t: Task, from: Option<int>, to: Option<int>, ready: Option<int>)
    requires ValidParams(t.params) && !RealTime(t.params) && MaybeInRange(to)
    ensures var distance := Vruntime(t) - FloorOf(from);
            FairPlace(t.(offset := CarriedOffset(t, from)), Migrate, to, ready) - FloorOf(to) == distance <==>
            InRange(distance) && InRange(FloorOf(to) + distance)
  {
  }

  lemma PlaceInRange(t: Task, action: Action, floor: Option<int>, ready: Option<int>)
    requires ValidParams(t.params) && MaybeInRange(floor)
    ensures InRange(FairPlace(t, action, floor, ready))
  {
  }

  lemma RebasedAt(t: Task, v: int)
    requires ValidParams(t.params) && InRange(v) && t.init == v && t.delta == 0
    ensures Vruntime(t) == v
  {
    QuotientBounds(0, Weight(t.params));
  }

  /** A queued fair task stands at its own vruntime. */
  lemma PlacedAtVruntime(t: Task, id: nat, action: Action, sequence: int, floor: Option<int>, ready: Option<int>,
                         quantum: int)
    requires ValidParams(t.params) && !RealTime(t.params) && MaybeInRange(floor)
    ensures var p := Placed(t, id, action, sequence, floor, ready, quantum);
            && p.params == t.params && p.key.order == Vruntime(p) && InRange(p.key.order)
            && p.key.order == FairPlace(t, action, floor, ready)
            && (action.Requeue? ==> p.key.order == Vruntime(t))
  {
    PlaceInRange(t, action, floor, ready);
    RebasedAt(Placed(t, id, action, sequence, floor, ready, quantum), FairPlace(t, action, floor, ready));
  }

  /** A committed reservation has the words that queueing the new task directly would give it. */
  lemma PublishedAsNew(t: Task, id: nat, sequence: int, floor: Option<int>, ready: Option<int>, quantum: int)
    requires ValidParams(t.params)
    ensures Published(t, id, sequence, floor, quantum) ==
            Placed(t, id, New, sequence, floor, ready, quantum).(offset := t.offset)
  {
  }

  // ----- who runs next -----

  lemma {:induction false} FirstFairOf(list: seq<nat>, key: Keys) returns (x: nat)
    requires FirstFair(list, key).Some?
    ensures x in list && key(x).class_ >= 1 && key(x).order == FirstFair(list, key).value
    decreases list
  {
    if key(list[0]).class_ >= 1 {
      x := list[0];
    } else {
      x := FirstFairOf(list[1..], key);
    }
  }

  lemma FirstFairQueue(id: nat, v: View)
    requires Kept(id, v) && FirstFair(v.ready, KeysOf(v.tasks)).Some?
    ensures QueueOf(v, 1, FirstFair(v.ready, KeysOf(v.tasks)).value) != []
  {
    assert Glance(v, 0);
    var x := FirstFairOf(v.ready, KeysOf(v.tasks));
    assert KeyOk(v.tasks[x], v.counters);
    DequeElements(v.ready, KeysOf(v.tasks), 1, KeysOf(v.tasks)(x).order, x);
  }

  /** A fair task that yields is not picked next while another fair task is ready. */
  lemma YieldGivesWay(id: nat, v: View, w: View, t: nat, floor: Option<int>, quantum: int, u: View, next: nat)
    requires Kept(id, v) && Enqueues(id, v, w, t, ExplicitYield, floor, quantum) && !RealTime(v.tasks[t].params)
    requires v.tasks[t].owner == Unowned && Picks(w, u, next)
    requires var first := FirstFair(v.ready, KeysOf(v.tasks)); first.Some? && InRange(first.value)
    ensures next != t
  {
    FirstFairQueue(id, v);
    TaskAt(id, v, t);
    var o := FirstFair(v.ready, KeysOf(v.tasks)).value;
    DequeElements(v.ready, KeysOf(v.tasks), 1, o, QueueOf(v, 1, o)[0]);
    assert w.tasks[t].key.class_ == 1 && w.tasks[t].key.order >= o;
    if w.tasks[t].key.order > o {
      assert QueueOf(w, 1, o) == QueueOf(v, 1, o);
    } else {
      assert QueueOf(w, 1, o)[0] == QueueOf(v, 1, o)[0];
    }
  }

  /** No queue before a priority's own has a task once `t` of that priority joined. */
  lemma JoinedForemost(id: nat, v: View, w: View, t: nat, front: bool, priority: nat, u: View, next: nat)
    requires Kept(id, v) && Joins(v, w, t, front) && !Outranked(v, priority) && Picks(w, u, next)
    requires w.tasks[t].key.class_ == 0 && w.tasks[t].key.order == PriorityKey(priority)
    ensures var d := QueueOf(v, 0, PriorityKey(priority));
            next == if front || d == [] then t else d[0]
  {
    RanksAgree(id, v, priority);
    var order, k := PriorityKey(priority), w.tasks[next].key;
    assert QueueOf(w, 0, order) != [];
    assert k.class_ == 0 && k.order <= order;
  }

  /**
   Unless something of larger priority is ready, a preempted FIFO task, or a preempted round-robin
   task with some slice left, is picked again before its peers and with its slice as it was.
   */
  lemma PreemptedResumes(id: nat, v: View, w: View, t: nat, floor: Option<int>, quantum: int, u: View, next: nat)
    requires Kept(id, v) && Enqueues(id, v, w, t, Requeue(true), floor, quantum) && Picks(w, u, next)
    requires RealTime(v.tasks[t].params) && (v.tasks[t].params.class_.Fifo? || v.tasks[t].slice > 0)
    requires !Outranked(v, v.tasks[t].params.priority)
    ensures next == t && u.tasks[t].slice == v.tasks[t].slice
  {
    JoinedForemost(id, v, w, t, true, v.tasks[t].params.priority, u, next);
  }

  /** A real-time task that yields, or whose slice is spent, lets its first peer run and starts a whole slice. */
  lemma YieldRotates(id: nat, v: View, w: View, t: nat, action: Action, floor: Option<int>, quantum: int, u: View,
                     next: nat)
    requires Kept(id, v) && Enqueues(id, v, w, t, action, floor, quantum) && Picks(w, u, next)
    requires RealTime(v.tasks[t].params) && !Outranked(v, v.tasks[t].params.priority)
    requires action == ExplicitYield || (v.tasks[t].params.class_.RoundRobin? && v.tasks[t].slice <= 0)
    ensures var d := QueueOf(v, 0, PriorityKey(v.tasks[t].params.priority)); next == if d == [] then t else d[0]
    ensures w.tasks[t].slice == if v.tasks[t].params.class_.RoundRobin? then quantum else v.tasks[t].slice
  {
    JoinedForemost(id, v, w, t, false, v.tasks[t].params.priority, u, next);
  }

  /** A migrating round-robin task goes to the back but keeps what is left of its slice. */
  lemma MigrationKeepsSlice(id: nat, v: View, w: View, t: nat, floor: Option<int>, quantum: int)
    requires Enqueues(id, v, w, t, Migrate, floor, quantum) && v.tasks[t].params.class_.RoundRobin?
    ensures QueueOf(w, 0, PriorityKey(v.tasks[t].params.priority)) ==
            QueueOf(v, 0, PriorityKey(v.tasks[t].params.priority)) + [t]
    ensures w.tasks[t].slice == if v.tasks[t].slice > 0 then v.tasks[t].slice else quantum
  {
    assert At(w.tasks[t].key, 0, PriorityKey(v.tasks[t].params.priority));
  }
}
