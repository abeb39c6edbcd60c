/**
 Fair picking, over whole runs of scheduler operations: a ready fair task always
 stands in the tree at its own vruntime, so the fair task that is picked is one whose
 vruntime is least, and no real-time task is ready then.
 */
module CfsFairness {
  import opened Words
  import opened LinkedLists
  import opened ReadyOrder
  import opened CfsQueue
  import opened CfsScheduler
  import opened CfsLaws

  /** A scheduler and its vruntime floor. */
  datatype State = State(view: View, floor: Option<int>)

  /** The operations that took effect; refused ones change nothing. */
  datatype Step =
    | Enqueue(task: nat, action: Action, quantum: int)
    | Remove(task: nat, next: Owner, preserve: bool)
    | Pick(task: nat)
    | PickNone
    | Reserve(task: nat, made: Reservation)
    | Cancel(made: Reservation)
    | Commit(made: Reservation, quantum: int)
    | Configure(task: nat, params: Params, quantum: int)
    | Tick(task: nat, quantum: int, reschedule: bool)
    | Others

  /** The floor after the first fair task of `w` was looked up again. */
  ghost function Lifted(floor: Option<int>, current: Option<int>, w: View): Option<int> {
    Refreshed(floor, current, FirstFair(w.ready, KeysOf(w.tasks)))
  }

  /** What each operation's contract says. */
  ghost predicate Does(id: nat, a: State, b: State, step: Step) {
    && Kept(id, a.view) && Kept(id, b.view)
    && match step
       case Enqueue(t, action, quantum) =>
         && Enqueues(id, a.view, b.view, t, action, a.floor, quantum)
         && b.floor == if RealTime(b.view.tasks[t].params) then a.floor else Lifted(a.floor, None, b.view)
       case Remove(t, next, preserve) =>
         && Leaves(a.view, b.view, t) && next != Queued(id) && ValidParams(a.view.tasks[t].params)
         && b.view.tasks == a.view.tasks[t := Removed(a, t, next, preserve)]
         && b.floor == if a.view.tasks[t].key.class_ == 0 then a.floor else Lifted(a.floor, None, b.view)
       case Pick(t) =>
         && Picks(a.view, b.view, t)
         && b.floor == if a.view.tasks[t].key.class_ == 0 then a.floor
                       else Lifted(a.floor, Some(a.view.tasks[t].key.order), b.view)
       case PickNone => a.view.ready == [] && b == a.(floor := None)
       case Reserve(t, r) => NewlyReserved(id, a.view, b.view, t, r) && b.floor == a.floor
       case Cancel(r) =>
         && r.task in a.view.tasks && b.floor == a.floor
         && b.view.tasks == a.view.tasks[r.task := a.view.tasks[r.task].(owner := Unowned)]
       case Commit(r, quantum) =>
         && r.task in a.view.tasks && ValidParams(a.view.tasks[r.task].params)
         && b.view.tasks ==
            a.view.tasks[r.task := Published(a.view.tasks[r.task], id, r.sequence, a.floor, quantum)]
         && b.floor == if RealTime(a.view.tasks[r.task].params) then a.floor else Lifted(a.floor, None, b.view)
       case Configure(t, params, quantum) =>
         && t in a.view.tasks && ValidParams(a.view.tasks[t].params) && ValidParams(params)
         && if a.view.tasks[t].owner.Unowned? then
              b == a.(view := b.view) && b.view.tasks == a.view.tasks[t := Retuned(a.view.tasks[t], params, quantum)]
            else
              && a.view.tasks[t].owner == Queued(id)
              && Reconfigures(id, a.view, b.view, t, params, quantum)
                 && b.floor == FloorAfter(a.view, b.view, t, a.floor)
       case Tick(t, quantum, reschedule) =>
         && t in a.view.tasks && a.view.tasks[t].owner.Unowned?
         && if RealTime(a.view.tasks[t].params) then
              TicksRealTime(a.view, b.view, t, quantum, reschedule) && b.floor == a.floor
            else if RealTimeReady(a.view) then b == a
            else FairTicks(a.view, b.view, t, a.floor, b.floor, reschedule)
       case Others => CfsQueue.Others(id, a.view, b.view) && b.floor == a.floor
  }

  function Removed(a: State, t: nat, next: Owner, preserve: bool): Task
    requires t in a.view.tasks && ValidParams(a.view.tasks[t].params)
  {
    var task := a.view.tasks[t];
    task.(owner := next, offset := if preserve then CarriedOffset(task, a.floor) else task.offset)
  }

  // ----- a queued fair task stands at its vruntime -----

  predicate AtVruntime(t: Task) {
    ValidParams(t.params) && !RealTime(t.params) ==> t.key.order == Vruntime(t)
  }

  /** Every ready fair task stands in the tree at its vruntime. */
  ghost predicate Standing(id: nat, v: View) {
    forall x: nat :: x in v.tasks && v.tasks[x].owner == Queued(id) ==> AtVruntime(v.tasks[x])
  }

  ghost predicate Paced(id: nat, s: State) { MaybeInRange(s.floor) && Standing(id, s.view) }

  /** Only `t` changed, and it is either not queued or at its vruntime. */
  lemma StandsStill(id: nat, v: View, w: View, t: nat)
    requires Standing(id, v) && t in w.tasks && (w.tasks[t].owner == Queued(id) ==> AtVruntime(w.tasks[t]))
    requires forall x :: x in w.tasks && x != t ==> x in v.tasks && w.tasks[x] == v.tasks[x]
    ensures Standing(id, w)
  {
  }

  lemma ReadyFair(id: nat, v: View, x: nat)
    requires Kept(id, v) && Standing(id, v) && x in v.ready
    ensures x in v.tasks && ValidParams(v.tasks[x].params) && v.tasks[x].owner == Queued(id)
    ensures RealTime(v.tasks[x].params) <==> v.tasks[x].key.class_ == 0
    ensures !RealTime(v.tasks[x].params) ==>
              v.tasks[x].key.class_ == 1 && v.tasks[x].key.order == Vruntime(v.tasks[x])
              && InRange(v.tasks[x].key.order)
  {
    assert Glance(v, 0);
    assert KeyOk(v.tasks[x], v.counters);
  }

  lemma FirstInRange(id: nat, v: View, list: seq<nat>)
    requires Kept(id, v) && Standing(id, v) && forall x :: x in list ==> x in v.ready
    ensures MaybeInRange(FirstFair(list, KeysOf(v.tasks)))
  {
    if FirstFair(list, KeysOf(v.tasks)).Some? {
      var x := FirstFairOf(list, KeysOf(v.tasks));
      ReadyFair(id, v, x);
    }
  }

  lemma LiftedInRange(id: nat, floor: Option<int>, current: Option<int>, w: View)
    requires Kept(id, w) && Standing(id, w) && MaybeInRange(floor) && MaybeInRange(current)
    ensures MaybeInRange(Lifted(floor, current, w))
  {
    FirstInRange(id, w, w.ready);
    FloorAdvances(floor, current, FirstFair(w.ready, KeysOf(w.tasks)));
  }

  lemma EnqueuePaced(id: nat, a: State, b: State, step: Step)
    requires step.Enqueue? && Does(id, a, b, step) && Paced(id, a)
    ensures Paced(id, b)
  {
    var t, task := step.task, a.view.tasks[step.task];
    if !RealTime(task.params) {
      PlacedAtVruntime(task, id, step.action, b.view.tasks[t].key.sequence, a.floor,
                       FirstFair(a.view.ready, KeysOf(a.view.tasks)), step.quantum);
    }
    StandsStill(id, a.view, b.view, t);
    LiftedInRange(id, a.floor, None, b.view);
  }

  lemma CommitPaced(id: nat, a: State, b: State, step: Step)
    requires step.Commit? && Does(id, a, b, step) && Paced(id, a)
    ensures Paced(id, b)
  {
    var task := a.view.tasks[step.made.task];
    if !RealTime(task.params) {
      PlaceInRange(task, New, a.floor, None);
      RebasedAt(b.view.tasks[step.made.task], FairPlace(task, New, a.floor, None));
    }
    StandsStill(id, a.view, b.view, step.made.task);
    LiftedInRange(id, a.floor, None, b.view);
  }

  lemma PickedIsReady(id: nat, v: View, w: View, t: nat)
    requires Kept(id, v) && Picks(v, w, t)
    ensures t in v.ready
  {
    var k := v.tasks[t].key;
    DequeElements(v.ready, KeysOf(v.tasks), k.class_, k.order, t);
  }

  lemma LeavingPaced(id: nat, a: State, b: State, step: Step)
    requires (step.Remove? || step.Pick?) && Does(id, a, b, step) && Paced(id, a)
    ensures Paced(id, b)
  {
    StandsStill(id, a.view, b.view, step.task);
    if step.Pick? {
      PickedIsReady(id, a.view, b.view, step.task);
      ReadyFair(id, a.view, step.task);
      LiftedInRange(id, a.floor, if a.view.tasks[step.task].key.class_ == 0 then None
                    else Some(a.view.tasks[step.task].key.order), b.view);
    } else {
      LiftedInRange(id, a.floor, None, b.view);
    }
  }

  lemma ConfigurePaced(id: nat, a: State, b: State, step: Step)
    requires step.Configure? && Does(id, a, b, step) && Paced(id, a)
    ensures Paced(id, b)
  {
    var t := step.task;
    StandsStill(id, a.view, b.view, t);
    if !a.view.tasks[t].owner.Unowned? {
      forall x | x in Taken(a.view.ready, t) ensures x in a.view.ready {
        TakenSubset(a.view.ready, t, x);
      }
      FirstInRange(id, a.view, Taken(a.view.ready, t));
      FloorAdvances(a.floor, None, FirstFair(Taken(a.view.ready, t), KeysOf(a.view.tasks)));
      LiftedInRange(id, FloorUponLeaving(a.view, t, a.floor), None, b.view);
    }
  }

  lemma {:induction false} TakenSubset(list: seq<nat>, t: nat, x: nat)
    requires x in Taken(list, t)
    ensures x in list
    decreases list
  {
    if list != [] && list[0] != t && x != list[0] {
      TakenSubset(list[1..], t, x);
    }
  }

  lemma TickPaced(id: nat, a: State, b: State, step: Step)
    requires step.Tick? && Does(id, a, b, step) && Paced(id, a)
    ensures Paced(id, b)
  {
    StandsStill(id, a.view, b.view, step.task);
    if !RealTime(a.view.tasks[step.task].params) && !RealTimeReady(a.view) {
      LiftedInRange(id, a.floor, Some(Vruntime(b.view.tasks[step.task])), b.view);
    }
  }

  lemma StepPaced(id: nat, a: State, b: State, step: Step)
    requires Does(id, a, b, step) && Paced(id, a)
    ensures Paced(id, b)
  {
    match step
    case Enqueue(_, _, _) => EnqueuePaced(id, a, b, step);
    case Remove(_, _, _) => LeavingPaced(id, a, b, step);
    case Pick(_) => LeavingPaced(id, a, b, step);
    case PickNone =>
    case Reserve(t, _) => StandsStill(id, a.view, b.view, t);
    case Cancel(r) => StandsStill(id, a.view, b.view, r.task);
    case Commit(_, _) => CommitPaced(id, a, b, step);
    case Configure(_, _, _) => ConfigurePaced(id, a, b, step);
    case Tick(_, _, _) => TickPaced(id, a, b, step);
    case Others =>
  }

  // ----- runs -----

  /** Names the steps of a run. */
  predicate Taking(j: nat) { true }

  ghost predicate IsRun(id: nat, states: seq<State>, steps: seq<Step>) {
    && |states| == |steps| + 1 && states[0].floor == None
    && (forall t :: t in states[0].view.tasks ==> states[0].view.tasks[t].owner != Queued(id))
    && forall j: nat {:trigger Taking(j)} :: Taking(j) && j < |steps| ==> Does(id, states[j], states[j + 1], steps[j])
  }

  lemma {:induction false} PacedOnRun(id: nat, states: seq<State>, steps: seq<Step>, j: nat)
    requires IsRun(id, states, steps) && j < |states|
    ensures Paced(id, states[j])
    decreases j
  {
    if j > 0 {
      PacedOnRun(id, states, steps, j - 1);
      assert Taking(j - 1);
      StepPaced(id, states[j - 1], states[j], steps[j - 1]);
    }
  }

  lemma LeastIsPicked(id: nat, v: View, w: View, t: nat, x: nat)
    requires Kept(id, v) && Standing(id, v) && Picks(v, w, t) && x in v.ready
    requires ValidParams(v.tasks[t].params) && !RealTime(v.tasks[t].params)
    ensures x in v.tasks && ValidParams(v.tasks[x].params)
    ensures !RealTime(v.tasks[x].params) && Vruntime(v.tasks[t]) <= Vruntime(v.tasks[x])
  {
    PickedIsReady(id, v, w, t);
    ReadyFair(id, v, t);
    ReadyFair(id, v, x);
    var k := v.tasks[x].key;
    DequeElements(v.ready, KeysOf(v.tasks), k.class_, k.order, x);
    assert QueueOf(v, k.class_, k.order) != [];
  }

  /** On every run a picked fair task has the least vruntime of all ready tasks, none of which is real-time. */
  lemma PicksLeastVruntime(id: nat, states: seq<State>, steps: seq<Step>, j: nat, x: nat)
    requires IsRun(id, states, steps) && j < |steps| && steps[j].Pick? && x in states[j].view.ready
    requires var v := states[j].view;
             steps[j].task in v.tasks && ValidParams(v.tasks[steps[j].task].params)
             && !RealTime(v.tasks[steps[j].task].params)
    ensures var v := states[j].view;
            && x in v.tasks && ValidParams(v.tasks[x].params) && !RealTime(v.tasks[x].params)
            && Vruntime(v.tasks[steps[j].task]) <= Vruntime(v.tasks[x])
  {
    PacedOnRun(id, states, steps, j);
    assert Taking(j);
    LeastIsPicked(id, states[j].view, states[j + 1].view, steps[j].task, x);
  }

  // ----- when the floor moves back -----

  lemma {:induction false} NoFirstFair(list: seq<nat>, key: Keys, x: nat)
    requires FirstFair(list, key).None? && x in list
    ensures key(x).class_ == 0
    decreases list
  {
    if x != list[0] {
      NoFirstFair(list[1..], key, x);
    }
  }

  /** The only ready fair task. */
  ghost predicate Lone(v: View, t: nat) {
    t in v.tasks && v.tasks[t].key.class_ == 1 && FirstFair(Taken(v.ready, t), KeysOf(v.tasks)).None?
  }

  /** A lone fair task that is reconfigured to fair parameters sets the floor to its own vruntime. */
  lemma LoneSetsFloor(id: nat, a: State, b: State, step: Step)
    requires step.Configure? && Does(id, a, b, step) && Paced(id, a) && a.view.tasks[step.task].owner == Queued(id)
    requires Lone(a.view, step.task) && !RealTime(step.params)
    ensures b.floor == Some(Vruntime(a.view.tasks[step.task]))
  {
    var t := step.task;
    TaskAt(id, b.view, t);
    RetunedKeepsVruntime(a.view.tasks[t], step.params, step.quantum);
    if FirstFair(b.view.ready, KeysOf(b.view.tasks)).None? {
      NoFirstFair(b.view.ready, KeysOf(b.view.tasks), t);
    } else {
      var x := FirstFairOf(b.view.ready, KeysOf(b.view.tasks));
      if x != t {
        StillThere(id, a.view, b.view, t, x);
        NoFirstFair(Taken(a.view.ready, t), KeysOf(a.view.tasks), x);
      }
    }
  }

  lemma StillThere(id: nat, v: View, w: View, t: nat, x: nat)
    requires Kept(id, v) && Kept(id, w) && Moves(v, w, t) && x in w.ready && x != t
    ensures x in Taken(v.ready, t) && KeysOf(w.tasks)(x) == KeysOf(v.tasks)(x)
  {
    assert Glance(v, 0) && Glance(w, 0);
    SortedDistinct(v.ready, KeysOf(v.tasks));
    TakenElements(v.ready, t, x);
  }

  ghost predicate NotBack(floor: Option<int>, after: Option<int>) {
    floor.Some? && after.Some? ==> floor.value <= after.value
  }

  lemma LiftedNotBack(floor: Option<int>, current: Option<int>, w: View)
    ensures NotBack(floor, Lifted(floor, current, w))
  {
    FloorAdvances(floor, current, FirstFair(w.ready, KeysOf(w.tasks)));
  }

  lemma PlainNotBack(id: nat, a: State, b: State, step: Step)
    requires Does(id, a, b, step) && (step.Configure? ==> a.view.tasks[step.task].owner.Unowned?)
    ensures NotBack(a.floor, b.floor)
  {
    match step
    case Enqueue(_, _, _) => LiftedNotBack(a.floor, None, b.view);
    case Remove(_, _, _) => LiftedNotBack(a.floor, None, b.view);
    case Pick(t) => LiftedNotBack(a.floor, Some(a.view.tasks[t].key.order), b.view);
    case Commit(_, _) => LiftedNotBack(a.floor, None, b.view);
    case Tick(t, _, _) => TickNotBack(id, a, b, step);
    case _ =>
  }

  lemma TickNotBack(id: nat, a: State, b: State, step: Step)
    requires step.Tick? && Does(id, a, b, step)
    ensures NotBack(a.floor, b.floor)
  {
    if !RealTime(a.view.tasks[step.task].params) && !RealTimeReady(a.view) {
      LiftedNotBack(a.floor, Some(Vruntime(b.view.tasks[step.task])), b.view);
    }
  }

  lemma CompanyNotBack(id: nat, a: State, b: State, step: Step)
    requires step.Configure? && Does(id, a, b, step) && a.view.tasks[step.task].owner == Queued(id)
    requires !Lone(a.view, step.task)
    ensures NotBack(a.floor, b.floor)
  {
    var t := step.task;
    TaskAt(id, a.view, t);
    FloorAdvances(a.floor, None, FirstFair(Taken(a.view.ready, t), KeysOf(a.view.tasks)));
    LiftedNotBack(FloorUponLeaving(a.view, t, a.floor), None, b.view);
  }

  /**
   The floor moves back in exactly one case: a lone fair task, whose vruntime is below the floor, is
   reconfigured; taking it out forgets the floor.
   */
  lemma FloorMovesBack(id: nat, a: State, b: State, step: Step)
    requires Does(id, a, b, step) && Paced(id, a) && a.floor.Some? && b.floor.Some?
    ensures b.floor.value < a.floor.value <==>
              && step.Configure? && a.view.tasks[step.task].owner == Queued(id) && Lone(a.view, step.task)
              && Vruntime(a.view.tasks[step.task]) < a.floor.value
  {
    if !step.Configure? || a.view.tasks[step.task].owner.Unowned? {
      PlainNotBack(id, a, b, step);
    } else if !Lone(a.view, step.task) {
      CompanyNotBack(id, a, b, step);
    } else {
      LoneSetsFloor(id, a, b, step);
    }
  }
}
