/**
 Round-robin rotation, over whole runs of scheduler operations: while nothing of
 higher priority is ready, the tasks of one priority run in cyclic order, each for
 exactly one quantum of ticks.
 */
module CfsRotation {
  import opened Words
  import opened LinkedLists
  import opened ReadyOrder
  import opened Remainders
  import opened CfsQueue

  /** A scheduler and the task it is running. */
  datatype Moment = Moment(view: View, running: nat)

  /** One timer tick; if it asks to reschedule, the running task is queued again and the next one picked. */
  datatype Beat = Beat(reschedule: bool, preempt: bool, floor: Option<int>, ticked: View, queued: View)

  ghost predicate Beats(id: nat, a: Moment, b: Moment, beat: Beat, quantum: int) {
    && TicksRealTime(a.view, beat.ticked, a.running, quantum, beat.reschedule)
    && if beat.reschedule then
         && Enqueues(id, beat.ticked, beat.queued, a.running, Requeue(beat.preempt), beat.floor, quantum)
         && Picks(beat.queued, b.view, b.running)
       else b == Moment(beat.ticked, a.running)
  }

  /** Names the beats of a run, so that they are looked at one at a time. */
  predicate Struck(j: nat) { true }

  ghost predicate IsRun(id: nat, moments: seq<Moment>, beats: seq<Beat>, quantum: int) {
    && |moments| == |beats| + 1
    && forall j: nat {:trigger Struck(j)} :: Struck(j) && j < |beats| ==>
         Beats(id, moments[j], moments[j + 1], beats[j], quantum)
  }

  // ----- one priority -----

  /** A round-robin task of the priority with this order. */
  predicate Member(v: View, x: nat, order: int) {
    x in v.tasks && v.tasks[x].params.class_.RoundRobin? && PriorityKey(v.tasks[x].params.priority) == order
  }

  /** The running task followed by its waiting peers. */
  function Circle(m: Moment, order: int): seq<nat> { [m.running] + QueueOf(m.view, 0, order) }

  /** No higher work, and a circle of round-robin tasks whose waiting members have a full slice. */
  ghost predicate Ring(id: nat, m: Moment, order: int, quantum: int) {
    && Foremost(m.view, 0, order) && Distinct(Circle(m, order))
    && Member(m.view, m.running, order) && m.view.tasks[m.running].owner == Unowned
    && forall x :: x in QueueOf(m.view, 0, order) ==>
         Member(m.view, x, order) && m.view.tasks[x].owner == Queued(id) && m.view.tasks[x].slice == quantum
  }

  function SliceOf(m: Moment): int
    requires m.running in m.view.tasks
  {
    m.view.tasks[m.running].slice
  }

  function Rotated(list: seq<nat>): seq<nat>
    requires list != []
  {
    list[1..] + [list[0]]
  }

  /** Nothing higher is waiting. */
  lemma NoneHigher(v: View, order: int)
    requires Foremost(v, 0, order)
    ensures !HigherWaits(v, order)
  {
  }

  /** A spent task goes to the back with a full slice, whether it was preempted or not. */
  lemma SpentGoesBack(t: Task, preempt: bool)
    requires t.params.class_.RoundRobin? && t.slice <= 0
    ensures RealTimePlace(t, Requeue(preempt)) == Place(false, true) && !EntersFront(t, Requeue(preempt))
  {
  }

  lemma SameForemost(v: View, w: View, order: int)
    requires Foremost(v, 0, order) && forall c: nat, o: int :: c == 0 && o < order ==>
               QueueOf(w, c, o) == QueueOf(v, c, o)
    ensures Foremost(w, 0, order)
  {
    forall c: nat, o: int | c < 0 || (c == 0 && o < order) ensures QueueOf(w, c, o) == [] {
      assert QueueOf(v, c, o) == [];
    }
  }

  // ----- one tick -----

  /**
   A tick uses one tick of the slice; the last one asks to reschedule exactly when a peer waits, else
   the slice starts over.
   */
  lemma TickUsesSlice(id: nat, a: Moment, ticked: View, reschedule: bool, order: int, quantum: int)
    requires Ring(id, a, order, quantum) && 0 < SliceOf(a) <= quantum <= ISIZE_MAX
    requires TicksRealTime(a.view, ticked, a.running, quantum, reschedule)
    ensures reschedule <==> SliceOf(a) == 1 && QueueOf(a.view, 0, order) != []
    ensures ticked.tasks[a.running] ==
              a.view.tasks[a.running].(slice := if SliceOf(a) == 1 && QueueOf(a.view, 0, order) == [] then quantum
                                       else SliceOf(a) - 1)
    ensures Ring(id, Moment(ticked, a.running), order, quantum)
            && Circle(Moment(ticked, a.running), order) == Circle(a, order)
  {
    NoneHigher(a.view, order);
    SameForemost(a.view, ticked, order);
    forall x | x in QueueOf(ticked, 0, order)
      ensures Member(ticked, x, order) && ticked.tasks[x].owner == Queued(id) && ticked.tasks[x].slice == quantum
    {
      assert x in QueueOf(a.view, 0, order) && x != a.running;
    }
  }

  // ----- one turn -----

  lemma ForemostIsThis(m: View, class_: nat, o: int, order: int)
    requires Foremost(m, class_, o) && QueueOf(m, class_, o) != [] && Foremost(m, 0, order)
             && QueueOf(m, 0, order) != []
    ensures class_ == 0 && o == order
  {
  }

  /** The spent task joins the back of its own queue with a full slice. */
  lemma SpentJoins(id: nat, a: Moment, queued: View, preempt: bool, floor: Option<int>, order: int, quantum: int)
    requires Ring(id, a, order, quantum) && SliceOf(a) == 0
    requires Enqueues(id, a.view, queued, a.running, Requeue(preempt), floor, quantum)
    ensures QueueOf(queued, 0, order) == QueueOf(a.view, 0, order) + [a.running] && Foremost(queued, 0, order)
    ensures forall x :: x in QueueOf(queued, 0, order) ==>
              Member(queued, x, order) && queued.tasks[x].owner == Queued(id) && queued.tasks[x].slice == quantum
  {
    SpentGoesBack(a.view.tasks[a.running], preempt);
    assert At(queued.tasks[a.running].key, 0, order);
    SameForemost(a.view, queued, order);
    forall x | x in QueueOf(queued, 0, order)
      ensures Member(queued, x, order) && queued.tasks[x].owner == Queued(id) && queued.tasks[x].slice == quantum
    {
      assert x == a.running || x in QueueOf(a.view, 0, order);
    }
  }

  lemma HeadTaken(list: seq<nat>)
    requires list != []
    ensures Taken(list, list[0]) == list[1..]
  {
  }

  /** Picking takes the head of the queue, which has a full slice. */
  lemma PickStarts(id: nat, queued: View, b: Moment, order: int, quantum: int)
    requires Picks(queued, b.view, b.running) && Foremost(queued, 0, order)
    requires QueueOf(queued, 0, order) != [] && Distinct(QueueOf(queued, 0, order))
    requires forall x :: x in QueueOf(queued, 0, order) ==>
               Member(queued, x, order) && queued.tasks[x].owner == Queued(id) && queued.tasks[x].slice == quantum
    ensures Circle(b, order) == QueueOf(queued, 0, order) && Ring(id, b, order, quantum) && SliceOf(b) == quantum
  {
    var k, d := queued.tasks[b.running].key, QueueOf(queued, 0, order);
    ForemostIsThis(queued, k.class_, k.order, order);
    HeadTaken(d);
    assert QueueOf(b.view, 0, order) == d[1..];
    assert d == [d[0]] + d[1..] && d[0] in d;
    SameForemost(queued, b.view, order);
    forall x | x in QueueOf(b.view, 0, order)
      ensures Member(b.view, x, order) && b.view.tasks[x].owner == Queued(id) && b.view.tasks[x].slice == quantum
    {
      assert x in d && x != b.running;
    }
  }

  lemma DistinctTurn(list: seq<nat>)
    requires list != [] && Distinct(list)
    ensures Distinct(Rotated(list))
  {
  }

  /** A turn moves the circle on by one; the next task starts with a full slice. */
  lemma TurnRotates(id: nat, a: Moment, b: Moment, queued: View, preempt: bool, floor: Option<int>, order: int,
                    quantum: int)
    requires Ring(id, a, order, quantum) && SliceOf(a) == 0 && QueueOf(a.view, 0, order) != []
    requires Enqueues(id, a.view, queued, a.running, Requeue(preempt), floor, quantum)
             && Picks(queued, b.view, b.running)
    ensures Circle(b, order) == Rotated(Circle(a, order)) && Ring(id, b, order, quantum) && SliceOf(b) == quantum
  {
    SpentJoins(id, a, queued, preempt, floor, order, quantum);
    assert QueueOf(queued, 0, order) == Rotated(Circle(a, order));
    DistinctTurn(Circle(a, order));
    PickStarts(id, queued, b, order, quantum);
  }

  /** One beat: the slice counts down, and its last tick turns the circle. */
  lemma BeatKeeps(id: nat, a: Moment, b: Moment, beat: Beat, order: int, quantum: int)
    requires Ring(id, a, order, quantum) && 0 < SliceOf(a) <= quantum <= ISIZE_MAX && Beats(id, a, b, beat, quantum)
    ensures beat.reschedule <==> SliceOf(a) == 1 && |Circle(a, order)| > 1
    ensures Ring(id, b, order, quantum)
    ensures SliceOf(a) > 1 ==> Circle(b, order) == Circle(a, order) && SliceOf(b) == SliceOf(a) - 1
    ensures SliceOf(a) == 1 ==> Circle(b, order) == Rotated(Circle(a, order)) && SliceOf(b) == quantum
  {
    TickUsesSlice(id, a, beat.ticked, beat.reschedule, order, quantum);
    if beat.reschedule {
      TurnRotates(id, Moment(beat.ticked, a.running), b, beat.queued, beat.preempt, beat.floor, order, quantum);
    }
  }

  // ----- any number of ticks -----

  function RotatedBy(list: seq<nat>, m: nat): (r: seq<nat>)
    requires list != []
    ensures |r| == |list|
    decreases m
  {
    if m == 0 then list else Rotated(RotatedBy(list, m - 1))
  }

  /** After `m` rotations the first element is the one at place `m`, counted around the circle. */
  lemma {:induction false} RotatedAt(list: seq<nat>, m: nat, i: nat)
    requires list != [] && i < |list|
    ensures RotatedBy(list, m)[i] == list[(m + i) % |list|]
    decreases m
  {
    if m == 0 {
      SmallMod(i, |list|);
    } else if i + 1 < |list| {
      RotatedAt(list, m - 1, i + 1);
      assert m - 1 + (i + 1) == m + i;
    } else {
      RotatedAt(list, m - 1, 0);
      ModOnce(m - 1, |list|);
      assert m - 1 + |list| == m + i;
    }
  }

  /** Where the rotation stands after `j` ticks. */
  ghost predicate Stands(id: nat, m: Moment, circle: seq<nat>, j: nat, order: int, quantum: int)
    requires circle != [] && quantum > 0
  {
    && Ring(id, m, order, quantum) && Circle(m, order) == RotatedBy(circle, Quotient(j, quantum))
    && SliceOf(m) == quantum - Rest(j, quantum)
  }

  lemma StandsOn(id: nat, a: Moment, b: Moment, beat: Beat, circle: seq<nat>, j: nat, order: int, quantum: int)
    requires circle != [] && 0 < quantum <= ISIZE_MAX && Stands(id, a, circle, j, order, quantum)
             && Beats(id, a, b, beat, quantum)
    ensures Stands(id, b, circle, j + 1, order, quantum)
    ensures beat.reschedule <==> |circle| > 1 && Rest(j + 1, quantum) == 0
  {
    BeatKeeps(id, a, b, beat, order, quantum);
    NextCount(j, quantum);
  }

  lemma StandsFirst(id: nat, m: Moment, order: int, quantum: int)
    requires quantum > 0 && Ring(id, m, order, quantum) && SliceOf(m) == quantum
    ensures Stands(id, m, Circle(m, order), 0, order, quantum)
  {
    SmallMod(0, quantum);
    DivUnique(0, 0, 0, quantum);
  }

  lemma BeatAsks(id: nat, moments: seq<Moment>, beats: seq<Beat>, j: nat, circle: seq<nat>, order: int, quantum: int)
    requires IsRun(id, moments, beats, quantum) && j < |beats| && 0 < quantum <= ISIZE_MAX
    requires circle != [] && Stands(id, moments[j], circle, j, order, quantum)
    ensures Stands(id, moments[j + 1], circle, j + 1, order, quantum)
    ensures beats[j].reschedule <==> |circle| > 1 && (j + 1) % quantum == 0
  {
    assert Struck(j);
    StandsOn(id, moments[j], moments[j + 1], beats[j], circle, j, order, quantum);
  }

  lemma {:induction false} StandsAfter(id: nat, moments: seq<Moment>, beats: seq<Beat>, j: nat, circle: seq<nat>,
                                       order: int, quantum: int)
    requires IsRun(id, moments, beats, quantum) && j < |moments| && 0 < quantum <= ISIZE_MAX
    requires circle != [] && Stands(id, moments[0], circle, 0, order, quantum)
    ensures Stands(id, moments[j], circle, j, order, quantum)
    decreases j
  {
    if j > 0 {
      StandsAfter(id, moments, beats, j - 1, circle, order, quantum);
      BeatAsks(id, moments, beats, j - 1, circle, order, quantum);
    }
  }

  lemma {:induction false} DequeDistinct(list: seq<nat>, key: Keys, class_: nat, order: int)
    requires Distinct(list)
    ensures Distinct(Deque(list, key, class_, order))
    decreases list
  {
    if list != [] {
      DequeDistinct(list[1..], key, class_, order);
      DequeElements(list[1..], key, class_, order, list[0]);
      assert list[0] !in list[1..];
    }
  }

  /** What a scheduler needs to be a ring: no higher work, and peers that are round-robin tasks with a full slice. */
  lemma RingOf(id: nat, m: Moment, order: int, quantum: int)
    requires Kept(id, m.view) && Foremost(m.view, 0, order) && Member(m.view, m.running, order)
             && m.view.tasks[m.running].owner == Unowned
    requires forall x :: x in QueueOf(m.view, 0, order) ==>
               x in m.view.tasks && m.view.tasks[x].params.class_.RoundRobin? && m.view.tasks[x].slice == quantum
    ensures Ring(id, m, order, quantum)
  {
    assert Glance(m.view, 0);
    SortedDistinct(m.view.ready, KeysOf(m.view.tasks));
    DequeDistinct(m.view.ready, KeysOf(m.view.tasks), 0, order);
    forall x | x in QueueOf(m.view, 0, order) ensures Member(m.view, x, order) && m.view.tasks[x].owner == Queued(id) {
      DequeElements(m.view.ready, KeysOf(m.view.tasks), 0, order, x);
      assert KeyOk(m.view.tasks[x], m.view.counters);
    }
  }

  /** No higher work, the running task at the start of its slice, and round-robin peers with full slices. */
  ghost predicate Fresh(id: nat, m: Moment, order: int, quantum: int) {
    && Kept(id, m.view) && Foremost(m.view, 0, order) && Member(m.view, m.running, order)
    && m.view.tasks[m.running].owner == Unowned && m.view.tasks[m.running].slice == quantum
    && forall x :: x in QueueOf(m.view, 0, order) ==>
         x in m.view.tasks && m.view.tasks[x].params.class_.RoundRobin? && m.view.tasks[x].slice == quantum
  }

  lemma RunsAt(m: Moment, circle: seq<nat>, k: nat, order: int)
    requires circle != [] && Circle(m, order) == RotatedBy(circle, k)
    ensures m.running == circle[k % |circle|]
  {
    RotatedAt(circle, k, 0);
  }

  /**
   Tick `j` belongs to the task at place `j / quantum` around the circle, and asks to
   reschedule exactly when it completes a quantum and a peer is waiting.
   */
  lemma CyclicOrder(id: nat, moments: seq<Moment>, beats: seq<Beat>, j: nat, order: int, quantum: int)
    requires IsRun(id, moments, beats, quantum) && j < |beats| && 0 < quantum <= ISIZE_MAX
             && Fresh(id, moments[0], order, quantum)
    ensures var circle := Circle(moments[0], order);
            && moments[j].running == circle[(j / quantum) % |circle|]
            && (beats[j].reschedule <==> |circle| > 1 && (j + 1) % quantum == 0)
  {
    var circle := Circle(moments[0], order);
    RingOf(id, moments[0], order, quantum);
    StandsFirst(id, moments[0], order, quantum);
    StandsAfter(id, moments, beats, j, circle, order, quantum);
    RunsAt(moments[j], circle, Quotient(j, quantum), order);
    BeatAsks(id, moments, beats, j, circle, order, quantum);
  }
}
