/**
 What a CFS scheduler keeps about its ready tasks: their words, the tree in key
 order, and the sequences it has handed out. Keys are pairwise distinct, a task is
 linked exactly when its owner word names the scheduler, and every real-time
 priority is a queue of its own.
 */
module CfsQueue {
  import opened Words
  import opened LinkedLists
  import opened ReadyOrder

  const ISIZE_MAX: int := 0x7fff_ffff_ffff_ffff
  const ISIZE_MIN: int := -0x8000_0000_0000_0000
  const GRANULARITY: int := 2
  const PRIORITY_MAX: nat := 255

  function Saturated(x: int): int { if x > ISIZE_MAX then ISIZE_MAX else if x < ISIZE_MIN then ISIZE_MIN else x }

  function Max(a: int, b: int): int { if a < b then b else a }

  function Min(a: int, b: int): int { if a < b then a else b }

  datatype TaskClass = Normal | Batch | IdleClass | RoundRobin | Fifo

  datatype Params = Params(class_: TaskClass, nice: int, priority: nat)

  predicate RealTime(p: Params) { p.class_.RoundRobin? || p.class_.Fifo? }

  /** Canonical parameters, or none when they are out of range. */
  function Validated(p: Params): Option<Params> {
    var q := match p.class_
      case IdleClass => p.(nice := 19, priority := 0)
      case Normal => p.(priority := 0)
      case Batch => p.(priority := 0)
      case RoundRobin => p.(nice := 0)
      case Fifo => p.(nice := 0);
    if (if RealTime(q) then 1 <= q.priority <= PRIORITY_MAX else -20 <= q.nice <= 19) then Some(q) else None
  }

  predicate ValidParams(p: Params) { Validated(p) == Some(p) }

  const LIGHT: seq<nat> := [1024, 820, 655, 526, 423, 335, 272, 215, 172, 137, 110, 87, 70, 56, 45, 36, 29, 23, 18, 15]

  const HEAVY: seq<nat> :=
    [1024, 1277, 1586, 1991, 2501, 3121, 3906, 4904, 6100, 7620, 9548, 11916, 14949, 18705, 23254, 29154, 36291, 46273,
     56483, 71755, 88761]

  function Weight(p: Params): (w: nat)
    requires ValidParams(p)
    ensures w > 0
  {
    var nice := if p.class_.IdleClass? then 19 else if RealTime(p) then 0 else p.nice;
    if nice >= 0 then LIGHT[nice] else HEAVY[-nice]
  }

  datatype Owner = Unowned | Configuring | Queued(id: nat)

  /** A task's scheduling words; `offset` is the fair vruntime carried between queues. */
  datatype Task = Task(params: Params, init: int, delta: nat, seeded: bool, slice: int, offset: Option<int>, key: Key,
                       owner: Owner)

  function Vruntime(t: Task): int
    requires ValidParams(t.params)
  {
    var w := Weight(t.params);
    Saturated(t.init + if w == 1024 then t.delta else Saturated(t.delta * 1024) / w)
  }

  function PriorityKey(priority: nat): int { PRIORITY_MAX - priority }

  datatype SchedulerError =
    | AlreadyQueued | TaskBusy | ForeignQueue | SequenceExhausted | InconsistentState | InvalidParameters

  datatype Action = New | Wakeup | ExplicitYield | Requeue(preempt: bool) | Migrate

  /** An unpublished admission of a new task. */
  datatype Reservation = Reservation(task: nat, scheduler: nat, sequence: int, params: Params)

  /** Sequences handed out: fair ones from 0 up, real-time ones to both sides of 0. */
  datatype Counters = Counters(fair: int, front: int, back: int)

  datatype View = View(tasks: map<nat, Task>, ready: seq<nat>, counters: Counters, reserved: set<Reservation>)

  function KeysOf(tasks: map<nat, Task>): Keys { (t: nat) => if t in tasks then tasks[t].key else Key(2, 0, 0) }

  predicate Issued(c: Counters, realTime: bool, sequence: int) {
    if realTime then c.front <= sequence < c.back else 0 <= sequence < c.fair
  }

  predicate KeyOk(t: Task, c: Counters) {
    && ValidParams(t.params) && Issued(c, RealTime(t.params), t.key.sequence)
    && if RealTime(t.params) then t.key.class_ == 0 && t.key.order == PriorityKey(t.params.priority)
       else t.key.class_ == 1
  }

  ghost predicate LinkedOk(id: nat, v: View) {
    forall t :: t in v.ready <==> t in v.tasks && v.tasks[t].owner == Queued(id)
  }

  ghost predicate KeysOk(v: View) { forall t :: t in v.ready ==> t in v.tasks && KeyOk(v.tasks[t], v.counters) }

  predicate Clash(t: Task, r: Reservation) { RealTime(t.params) == RealTime(r.params) && t.key.sequence == r.sequence }

  ghost predicate ReservedOk(id: nat, v: View) {
    && (forall r :: r in v.reserved ==>
          && r.scheduler == id && r.task in v.tasks && v.tasks[r.task].owner == Configuring
             && v.tasks[r.task].params == r.params
          && ValidParams(r.params) && Issued(v.counters, RealTime(r.params), r.sequence))
    && (forall r, t :: r in v.reserved && t in v.ready && t in v.tasks ==> !Clash(v.tasks[t], r))
    && (forall r, s :: r in v.reserved && s in v.reserved && r != s ==>
          r.task != s.task && (RealTime(r.params) == RealTime(s.params) ==> r.sequence != s.sequence))
  }

  ghost predicate Ordinary(v: View) {
    && (forall t :: t in v.tasks ==> ValidParams(v.tasks[t].params))
    && 0 <= v.counters.fair <= ISIZE_MAX && ISIZE_MIN <= v.counters.front <= 0 <= v.counters.back <= ISIZE_MAX
  }

  /** The scheduler's invariant. */
  ghost predicate ViewOk(id: nat, v: View) {
    Ordinary(v) && Sorted(v.ready, KeysOf(v.tasks)) && LinkedOk(id, v) && KeysOk(v) && ReservedOk(id, v)
  }

  /** Linked tasks have pairwise distinct keys. */
  lemma KeysDistinct(id: nat, v: View, a: nat, b: nat)
    requires ViewOk(id, v) && a in v.ready && b in v.ready && a != b
    ensures v.tasks[a].key != v.tasks[b].key
  {
    var i, j := IndexOf(v.ready, a), IndexOf(v.ready, b);
    assert i < j ==> Less(KeysOf(v.tasks)(v.ready[i]), KeysOf(v.tasks)(v.ready[j]));
    assert j < i ==> Less(KeysOf(v.tasks)(v.ready[j]), KeysOf(v.tasks)(v.ready[i]));
  }

  function QueueOf(v: View, class_: nat, order: int): seq<nat> { Deque(v.ready, KeysOf(v.tasks), class_, order) }

  // ----- joining a queue -----

  /** A task enters its own queue at one end; every other queue stays as it was. */
  ghost predicate Joins(v: View, w: View, t: nat, front: bool) {
    && t in w.tasks && w.tasks.Keys == v.tasks.Keys && (forall x :: x in v.tasks && x != t ==> w.tasks[x] == v.tasks[x])
    && forall c: nat, o: int :: QueueOf(w, c, o) ==
         if !At(w.tasks[t].key, c, o) then QueueOf(v, c, o) else if front then [t] + QueueOf(v, c, o)
             else QueueOf(v, c, o) + [t]
  }

  /** The key is new, and at the chosen end of its queue. */
  ghost predicate FreshEnd(list: seq<nat>, key: Keys, t: nat, front: bool) {
    forall x :: x in list && key(x).class_ == key(t).class_ && key(x).order == key(t).order ==>
      if front then key(t).sequence < key(x).sequence else key(x).sequence < key(t).sequence
  }

  lemma InsertJoins(v: View, w: View, t: nat, front: bool)
    requires Sorted(v.ready, KeysOf(v.tasks)) && t !in v.ready && t in w.tasks && w.tasks.Keys == v.tasks.Keys
    requires forall x :: x in v.tasks && x != t ==> w.tasks[x] == v.tasks[x]
    requires FreshEnd(v.ready, KeysOf(w.tasks), t, front) && w.ready == Insert(v.ready, KeysOf(w.tasks), t)
    ensures Sorted(w.ready, KeysOf(w.tasks)) && (forall x :: x in w.ready <==> x == t || x in v.ready)
            && Joins(v, w, t, front)
  {
    var before, after := KeysOf(v.tasks), KeysOf(w.tasks);
    SortedSame(v.ready, before, after);
    InsertSorted(v.ready, after, t);
    forall x ensures x in w.ready <==> x == t || x in v.ready {
      InsertElements(v.ready, after, t, x);
    }
    forall c: nat, o: int
      ensures QueueOf(w, c, o) ==
              if !At(w.tasks[t].key, c, o) then QueueOf(v, c, o) else if front then [t] + QueueOf(v, c, o)
                  else QueueOf(v, c, o) + [t]
    {
      InsertQueue(v.ready, before, after, t, front, c, o);
    }
  }

  lemma InsertQueue(list: seq<nat>, before: Keys, key: Keys, t: nat, front: bool, c: nat, o: int)
    requires Sorted(list, key) && FreshEnd(list, key, t, front) && forall x :: x in list ==> key(x) == before(x)
    ensures var d := Deque(list, before, c, o);
            Deque(Insert(list, key, t), key, c, o) == if !At(key(t), c, o) then d else if front then [t] + d
              else d + [t]
  {
    DequeSame(list, before, key, c, o);
    if !At(key(t), c, o) {
      DequeOther(list, key, t, c, o);
    } else if front {
      DequeFront(list, key, t);
    } else {
      DequeBack(list, key, t);
    }
  }

  // ----- leaving a queue -----

  /** A task leaves its own queue; every other queue stays as it was. */
  ghost predicate Leaves(v: View, w: View, t: nat) {
    && t in v.tasks && w.tasks.Keys == v.tasks.Keys && (forall x :: x in v.tasks && x != t ==> w.tasks[x] == v.tasks[x])
    && w.tasks[t].key == v.tasks[t].key
    && forall c: nat, o: int :: QueueOf(w, c, o) == if At(v.tasks[t].key, c, o) then Taken(QueueOf(v, c, o), t)
       else QueueOf(v, c, o)
  }

  lemma TakenLeaves(v: View, w: View, t: nat)
    requires Sorted(v.ready, KeysOf(v.tasks)) && t in v.ready && t in v.tasks && w.tasks.Keys == v.tasks.Keys
    requires (forall x :: x in v.tasks && x != t ==> w.tasks[x] == v.tasks[x]) && w.tasks[t].key == v.tasks[t].key
    requires w.ready == Taken(v.ready, t)
    ensures Sorted(w.ready, KeysOf(w.tasks)) && (forall x :: x in w.ready <==> x in v.ready && x != t)
            && Leaves(v, w, t)
  {
    var key, after := KeysOf(v.tasks), KeysOf(w.tasks);
    SortedDistinct(v.ready, key);
    SortedTaken(v.ready, key, t);
    forall x ensures x in w.ready <==> x in v.ready && x != t {
      TakenElements(v.ready, t, x);
    }
    SortedSame(w.ready, key, after);
    forall c: nat, o: int
      ensures QueueOf(w, c, o) == if At(v.tasks[t].key, c, o) then Taken(QueueOf(v, c, o), t) else QueueOf(v, c, o) {
      DequeSame(w.ready, key, after, c, o);
      DequeTaken(v.ready, key, t, c, o);
    }
  }

  // ----- what others may do -----

  /** Other schedulers and unqueued configuration touch neither this scheduler's tasks nor its reservations. */
  ghost predicate Others(id: nat, v: View, w: View) {
    && w == v.(tasks := w.tasks) && v.tasks.Keys <= w.tasks.Keys
    && (forall t :: t in w.tasks ==> ValidParams(w.tasks[t].params))
    && (forall t :: t in v.tasks && v.tasks[t].owner == Queued(id) ==> w.tasks[t] == v.tasks[t])
    && (forall t :: t in w.tasks && w.tasks[t].owner == Queued(id) ==> t in v.tasks && v.tasks[t].owner == Queued(id))
    && (forall r :: r in v.reserved && r.task in v.tasks ==> w.tasks[r.task] == v.tasks[r.task])
  }

  lemma OthersKeep(id: nat, v: View, w: View)
    requires ViewOk(id, v) && Others(id, v, w)
    ensures ViewOk(id, w)
  {
    forall x | x in v.ready ensures KeysOf(w.tasks)(x) == KeysOf(v.tasks)(x) && w.tasks[x] == v.tasks[x] {
      assert x in v.tasks && v.tasks[x].owner == Queued(id);
    }
    SortedSame(v.ready, KeysOf(v.tasks), KeysOf(w.tasks));
  }

  // ----- sequences -----

  datatype Ticket = Ticket(sequence: int, counters: Counters)

  /** The next sequence, unless its range is used up. */
  function NextTicket(c: Counters, realTime: bool, front: bool): Option<Ticket> {
    if realTime && front then if c.front - 1 < ISIZE_MIN then None
        else Some(Ticket(c.front - 1, c.(front := c.front - 1)))
    else if realTime then if c.back + 1 > ISIZE_MAX then None else Some(Ticket(c.back, c.(back := c.back + 1)))
    else if c.fair + 1 > ISIZE_MAX then None else Some(Ticket(c.fair, c.(fair := c.fair + 1)))
  }

  /** A new sequence was never handed out before and lies beyond all that were. */
  lemma TicketFresh(c: Counters, realTime: bool, front: bool)
    requires 0 <= c.fair && c.front <= 0 <= c.back && NextTicket(c, realTime, front).Some?
    ensures var k := NextTicket(c, realTime, front).value;
            && !Issued(c, realTime, k.sequence)
            && (forall rt, x {:trigger Issued(c, rt, x)} :: Issued(c, rt, x) ==> Issued(k.counters, rt, x))
            && Issued(k.counters, realTime, k.sequence)
            && (forall x {:trigger Issued(c, realTime, x)} :: Issued(c, realTime, x) ==> if realTime && front
                then k.sequence < x else x < k.sequence)
  {
  }

  /** A task that is not linked and not reserved becomes linked with a new key. */
  ghost predicate NewlyQueued(id: nat, v: View, w: View, t: nat, front: bool) {
    && t in v.tasks && v.tasks[t].owner != Queued(id) && (forall r :: r in v.reserved ==> r.task != t)
    && t in w.tasks && w.tasks == v.tasks[t := w.tasks[t]] && w.tasks[t].owner == Queued(id)
    && w.reserved == v.reserved && w.ready == Insert(v.ready, KeysOf(w.tasks), t)
    && var rt := RealTime(w.tasks[t].params);
       && NextTicket(v.counters, rt, front).Some?
       && var k := NextTicket(v.counters, rt, front).value;
          w.counters == k.counters && w.tasks[t].key.sequence == k.sequence && KeyOk(w.tasks[t], w.counters)
  }

  lemma NewKeyIsFresh(id: nat, v: View, w: View, t: nat, front: bool)
    requires Ordinary(v) && KeysOk(v) && LinkedOk(id, v) && NewlyQueued(id, v, w, t, front)
    ensures t !in v.ready && FreshEnd(v.ready, KeysOf(w.tasks), t, RealTime(w.tasks[t].params) && front)
  {
    var rt := RealTime(w.tasks[t].params);
    TicketFresh(v.counters, rt, front);
    forall x | x in v.ready && KeysOf(w.tasks)(x).class_ == KeysOf(w.tasks)(t).class_
      ensures if rt && front then KeysOf(w.tasks)(t).sequence < KeysOf(w.tasks)(x).sequence
              else KeysOf(w.tasks)(x).sequence < KeysOf(w.tasks)(t).sequence
    {
      assert KeyOk(v.tasks[x], v.counters) && Issued(v.counters, RealTime(v.tasks[x].params), v.tasks[x].key.sequence);
    }
  }

  lemma NewlyQueuedJoins(id: nat, v: View, w: View, t: nat, front: bool)
    requires Ordinary(v) && Sorted(v.ready, KeysOf(v.tasks)) && LinkedOk(id, v) && KeysOk(v)
             && NewlyQueued(id, v, w, t, front)
    ensures Sorted(w.ready, KeysOf(w.tasks)) && (forall x :: x in w.ready <==> x == t || x in v.ready)
    ensures Joins(v, w, t, RealTime(w.tasks[t].params) && front)
  {
    NewKeyIsFresh(id, v, w, t, front);
    InsertJoins(v, w, t, RealTime(w.tasks[t].params) && front);
  }

  lemma NewlyQueuedKeys(id: nat, v: View, w: View, t: nat, front: bool)
    requires ViewOk(id, v) && NewlyQueued(id, v, w, t, front) && forall x :: x in w.ready <==> x == t || x in v.ready
    ensures Ordinary(w) && LinkedOk(id, w) && KeysOk(w) && ReservedOk(id, w)
  {
    var rt := RealTime(w.tasks[t].params);
    TicketFresh(v.counters, rt, front);
    forall x | x in w.ready ensures x in w.tasks && KeyOk(w.tasks[x], w.counters) {
      if x != t {
        assert KeyOk(v.tasks[x], v.counters)
               && Issued(v.counters, RealTime(v.tasks[x].params), v.tasks[x].key.sequence);
      }
    }
    forall r | r in w.reserved
      ensures Issued(w.counters, RealTime(r.params), r.sequence) && !Clash(w.tasks[t], r) && r.task != t {
      assert Issued(v.counters, RealTime(r.params), r.sequence);
    }
  }

  /** Queueing keeps the invariant and puts the task at one end of its own queue. */
  lemma NewlyQueuedOk(id: nat, v: View, w: View, t: nat, front: bool)
    requires ViewOk(id, v) && NewlyQueued(id, v, w, t, front)
    ensures ViewOk(id, w) && Joins(v, w, t, RealTime(w.tasks[t].params) && front)
  {
    NewlyQueuedJoins(id, v, w, t, front);
    NewlyQueuedKeys(id, v, w, t, front);
  }

  /** A linked task is taken out and its words, but not its key, change. */
  ghost predicate NewlyTaken(id: nat, v: View, w: View, t: nat) {
    && t in v.ready && t in v.tasks && t in w.tasks && w.tasks == v.tasks[t := w.tasks[t]]
       && w.tasks[t].key == v.tasks[t].key
    && w.tasks[t].owner != Queued(id) && ValidParams(w.tasks[t].params)
    && w.ready == Taken(v.ready, t) && w.reserved == v.reserved && w.counters == v.counters
  }

  lemma NewlyTakenOk(id: nat, v: View, w: View, t: nat)
    requires ViewOk(id, v) && NewlyTaken(id, v, w, t)
    ensures ViewOk(id, w) && Leaves(v, w, t)
  {
    TakenLeaves(v, w, t);
    forall x | x in w.ready ensures x in w.tasks && KeyOk(w.tasks[x], w.counters) {
      assert KeyOk(v.tasks[x], v.counters);
    }
  }

  // ----- putting a task back where it was -----

  lemma {:induction false} InsertTaken(list: seq<nat>, key: Keys, t: nat)
    requires Sorted(list, key) && t in list
    ensures Insert(Taken(list, t), key, t) == list
    decreases list
  {
    if list[0] == t {
      var rest := list[1..];
      if rest != [] {
        assert Less(key(list[0]), key(list[1]));
      }
      assert list == [t] + rest;
    } else {
      SortedTail(list, key);
      assert list == [list[0]] + list[1..];
      InsertTaken(list[1..], key, t);
      HeadIsLeast(list, key, t);
      var r := Taken(list, t);
      assert r[0] == list[0] && r[1..] == Taken(list[1..], t);
    }
  }

  // ----- reservations -----

  ghost predicate NewlyReserved(id: nat, v: View, w: View, t: nat, r: Reservation) {
    && t in v.tasks && v.tasks[t].owner == Unowned && w.tasks == v.tasks[t := v.tasks[t].(owner := Configuring)]
    && r.task == t && r.scheduler == id && r.params == v.tasks[t].params && w.ready == v.ready
       && w.reserved == v.reserved + {r}
    && NextTicket(v.counters, RealTime(r.params), false) == Some(Ticket(r.sequence, w.counters))
  }

  lemma NewlyReservedOk(id: nat, v: View, w: View, t: nat, r: Reservation)
    requires ViewOk(id, v) && NewlyReserved(id, v, w, t, r)
    ensures ViewOk(id, w) && forall c: nat, o: int :: QueueOf(w, c, o) == QueueOf(v, c, o)
  {
    TicketFresh(v.counters, RealTime(r.params), false);
    assert t !in v.ready;
    forall x | x in v.ready ensures KeysOf(w.tasks)(x) == KeysOf(v.tasks)(x) && w.tasks[x] == v.tasks[x] {
    }
    SortedSame(v.ready, KeysOf(v.tasks), KeysOf(w.tasks));
    forall c: nat, o: int ensures QueueOf(w, c, o) == QueueOf(v, c, o) {
      DequeSame(v.ready, KeysOf(v.tasks), KeysOf(w.tasks), c, o);
    }
    ReservedKeys(id, v, w, t, r);
  }

  lemma ReservedKeys(id: nat, v: View, w: View, t: nat, r: Reservation)
    requires ViewOk(id, v) && NewlyReserved(id, v, w, t, r) && t !in v.ready
    ensures KeysOk(w) && ReservedOk(id, w)
  {
    TicketFresh(v.counters, RealTime(r.params), false);
    forall x | x in w.ready ensures x in w.tasks && KeyOk(w.tasks[x], w.counters) && !Clash(w.tasks[x], r) {
      assert KeyOk(v.tasks[x], v.counters) && Issued(v.counters, RealTime(v.tasks[x].params), v.tasks[x].key.sequence);
    }
    forall q | q in v.reserved
      ensures Issued(w.counters, RealTime(q.params), q.sequence) && q.task != t
              && (RealTime(q.params) == RealTime(r.params) ==> q.sequence != r.sequence) {
      assert Issued(v.counters, RealTime(q.params), q.sequence);
    }
  }

  ghost predicate Committed(id: nat, v: View, w: View, r: Reservation) {
    && r in v.reserved && r.task in v.tasks && r.task in w.tasks && w.tasks == v.tasks[r.task := w.tasks[r.task]]
    && w.tasks[r.task].owner == Queued(id) && w.tasks[r.task].params == r.params
       && w.tasks[r.task].key.sequence == r.sequence
    && KeyOk(w.tasks[r.task], w.counters)
    && w.ready == Insert(v.ready, KeysOf(w.tasks), r.task) && w.reserved == v.reserved - {r} && w.counters == v.counters
  }

  /** A committed reservation enters its queue; the order among the others does not change. */
  ghost predicate Enters(v: View, w: View, t: nat) {
    && t in w.tasks && w.tasks.Keys == v.tasks.Keys && (forall x :: x in v.tasks && x != t ==> w.tasks[x] == v.tasks[x])
    && forall c: nat, o: int :: QueueOf(v, c, o) == if At(w.tasks[t].key, c, o) then Taken(QueueOf(w, c, o), t)
       else QueueOf(w, c, o)
  }

  lemma {:induction false} TakenInsert(list: seq<nat>, key: Keys, t: nat)
    requires t !in list
    ensures Taken(Insert(list, key, t), t) == list
    decreases list
  {
    var r := Insert(list, key, t);
    if list == [] || Less(key(t), key(list[0])) {
      assert r[1..] == list;
    } else {
      assert list == [list[0]] + list[1..];
      TakenInsert(list[1..], key, t);
      assert r[0] == list[0] && r[1..] == Insert(list[1..], key, t);
    }
  }

  lemma InsertEnters(v: View, w: View, t: nat)
    requires Sorted(v.ready, KeysOf(v.tasks)) && t !in v.ready && t in w.tasks && w.tasks.Keys == v.tasks.Keys
    requires forall x :: x in v.tasks && x != t ==> w.tasks[x] == v.tasks[x]
    requires (forall x :: x in v.ready ==> KeysOf(w.tasks)(x) != KeysOf(w.tasks)(t))
             && w.ready == Insert(v.ready, KeysOf(w.tasks), t)
    ensures Sorted(w.ready, KeysOf(w.tasks)) && (forall x :: x in w.ready <==> x == t || x in v.ready)
            && Enters(v, w, t)
  {
    var key := KeysOf(w.tasks);
    SortedSame(v.ready, KeysOf(v.tasks), key);
    InsertSorted(v.ready, key, t);
    forall x ensures x in w.ready <==> x == t || x in v.ready {
      InsertElements(v.ready, key, t, x);
    }
    TakenInsert(v.ready, key, t);
    forall c: nat, o: int
      ensures QueueOf(v, c, o) == if At(key(t), c, o) then Taken(QueueOf(w, c, o), t) else QueueOf(w, c, o) {
      DequeTaken(w.ready, key, t, c, o);
      DequeSame(v.ready, KeysOf(v.tasks), key, c, o);
    }
  }

  lemma ReservedIsFresh(id: nat, v: View, w: View, r: Reservation)
    requires ViewOk(id, v) && Committed(id, v, w, r)
    ensures r.task !in v.ready && forall x :: x in v.ready ==> KeysOf(w.tasks)(x) != KeysOf(w.tasks)(r.task)
  {
    assert r.task !in v.ready;
    forall x | x in v.ready ensures KeysOf(w.tasks)(x) != KeysOf(w.tasks)(r.task) {
      assert !Clash(v.tasks[x], r) && KeyOk(v.tasks[x], v.counters);
    }
  }

  lemma CommittedOk(id: nat, v: View, w: View, r: Reservation)
    requires ViewOk(id, v) && Committed(id, v, w, r)
    ensures ViewOk(id, w) && Enters(v, w, r.task)
  {
    ReservedIsFresh(id, v, w, r);
    InsertEnters(v, w, r.task);
    CommittedKeys(id, v, w, r);
  }

  lemma CommittedKeys(id: nat, v: View, w: View, r: Reservation)
    requires ViewOk(id, v) && Committed(id, v, w, r) && r.task !in v.ready && forall x :: x in w.ready <==>
               x == r.task || x in v.ready
    ensures LinkedOk(id, w) && KeysOk(w) && ReservedOk(id, w)
  {
    forall x | x in w.ready ensures x in w.tasks && KeyOk(w.tasks[x], w.counters) {
      assert x != r.task ==> KeyOk(v.tasks[x], v.counters);
    }
    forall q | q in w.reserved ensures q.task != r.task && !Clash(w.tasks[r.task], q) {
      assert q in v.reserved && q != r;
    }
  }

  // ----- picking -----

  /** The queue that runs first: no earlier queue has a task. */
  ghost predicate Foremost(v: View, class_: nat, order: int) {
    forall c: nat, o: int :: c < class_ || (c == class_ && o < order) ==> QueueOf(v, c, o) == []
  }

  lemma FirstIsForemost(id: nat, v: View)
    requires ViewOk(id, v) && v.ready != []
    ensures var t := v.ready[0];
            && t in v.tasks && Foremost(v, v.tasks[t].key.class_, v.tasks[t].key.order)
            && QueueOf(v, v.tasks[t].key.class_, v.tasks[t].key.order) != []
               && QueueOf(v, v.tasks[t].key.class_, v.tasks[t].key.order)[0] == t
  {
    assert v.ready[0] in v.ready;
    FirstOfAll(v.ready, KeysOf(v.tasks));
  }

  // ----- fair vruntime -----

  /** The vruntime of the first fair task. */
  function FirstFair(list: seq<nat>, key: Keys): Option<int> {
    if list == [] then None else if key(list[0]).class_ >= 1 then Some(key(list[0]).order)
        else FirstFair(list[1..], key)
  }

  function Refreshed(floor: Option<int>, current: Option<int>, ready: Option<int>): Option<int> {
    var candidate :=
      if current.Some? && ready.Some? then Some(Min(current.value, ready.value)) else if current.Some? then current
          else ready;
    if candidate.None? then None else if floor.Some? then Some(Max(floor.value, candidate.value)) else candidate
  }

  function FloorOf(floor: Option<int>): int { if floor.Some? then floor.value else 0 }

  /** Where a fair task enters. */
  function FairPlace(t: Task, action: Action, floor: Option<int>, ready: Option<int>): int
    requires ValidParams(t.params)
  {
    match action
    case New => if t.seeded then Max(Vruntime(t), FloorOf(floor)) else FloorOf(floor)
    case Wakeup =>
      var extra := match t.params.class_ case Normal => GRANULARITY case Batch => GRANULARITY +
        1 case IdleClass => GRANULARITY + 2 case _ => 0;
      Max(Vruntime(t), Saturated(FloorOf(floor) + extra))
    case ExplicitYield => Max(Vruntime(t),
                              Saturated((if ready.Some? then ready.value else FloorOf(floor)) + GRANULARITY))
    case Requeue(_) => Vruntime(t)
    case Migrate => if t.offset.Some? then Saturated(FloorOf(floor) + t.offset.value)
      else Max(Vruntime(t), FloorOf(floor))
  }

  datatype Place = Place(front: bool, reset: bool)

  /** Which end of its queue a real-time task enters, and whether its slice starts over. */
  function RealTimePlace(t: Task, action: Action): Place {
    if t.params.class_.Fifo? then Place(action == Requeue(true), false)
    else if action == Requeue(true) && t.slice > 0 then Place(true, false)
    else if action == Migrate && t.slice > 0 then Place(false, false)
    else Place(false, true)
  }

  function EntersFront(t: Task, action: Action): bool { RealTime(t.params) && RealTimePlace(t, action).front }

  /** A task's words once it is queued. */
  function Placed(t: Task, id: nat, action: Action, sequence: int, floor: Option<int>, ready: Option<int>,
                  quantum: int): Task
    requires ValidParams(t.params)
  {
    if RealTime(t.params) then
      t.(owner := Queued(id), offset := None, slice := if RealTimePlace(t, action).reset then quantum else t.slice,
         key := Key(0, PriorityKey(t.params.priority), sequence))
    else
      var v := FairPlace(t, action, floor, ready);
      t.(owner := Queued(id), offset := None, seeded := if action == New then false
         else t.seeded, init := v, delta := 0, key := Key(1, v, sequence))
  }

  /** A reserved task's words once it is published. */
  function Published(t: Task, id: nat, sequence: int, floor: Option<int>, quantum: int): Task
    requires ValidParams(t.params)
  {
    if RealTime(t.params) then
      t.(owner := Queued(id), slice := if t.params.class_.RoundRobin? then quantum else t.slice,
         key := Key(0, PriorityKey(t.params.priority), sequence))
    else
      var v := FairPlace(t, New, floor, None);
      t.(owner := Queued(id), seeded := false, init := v, delta := 0, key := Key(1, v, sequence))
  }

  function EnqueueError(t: Task, id: nat, c: Counters, front: bool): Option<SchedulerError> {
    match t.owner
    case Configuring => Some(TaskBusy)
    case Queued(x) => Some(if x == id then AlreadyQueued else ForeignQueue)
    case Unowned => if NextTicket(c, RealTime(t.params), front).None? then Some(SequenceExhausted) else None
  }

  // ----- a real-time tick -----

  datatype Ticked = Ticked(task: Task, reschedule: bool)

  /** A tick of a running real-time task. */
  function RealTimeTick(t: Task, higher: bool, same: bool, quantum: int): Ticked {
    if higher then Ticked(t, true)
    else if t.params.class_.Fifo? then Ticked(t, false)
    else
      var next := t.(slice := Saturated(t.slice - 1));
      if t.slice <= 1 then if same then Ticked(next, true) else Ticked(next.(slice := quantum), false)
      else Ticked(next, false)
  }

  /** Whether an earlier real-time queue, or this one, has a task. */
  ghost predicate HigherWaits(v: View, order: int) { exists o: int :: o < order && QueueOf(v, 0, o) != [] }

  lemma FrontIsHigher(id: nat, v: View, order: int)
    requires ViewOk(id, v)
    ensures HigherWaits(v, order) <==> v.ready != [] && KeysOf(v.tasks)(v.ready[0]).class_ == 0
                                       && KeysOf(v.tasks)(v.ready[0]).order < order
  {
    var key := KeysOf(v.tasks);
    if v.ready == [] {
      assert forall o: int :: QueueOf(v, 0, o) == [];
    } else {
      FirstOfAll(v.ready, key);
      var k := key(v.ready[0]);
      if k.class_ == 0 && k.order < order {
        assert QueueOf(v, 0, k.order) != [];
      }
    }
  }

  /** The lower bound of the smallest key of a priority finds its queue's first task. */
  lemma {:induction false} QueueAtBound(list: seq<nat>, key: Keys, order: int)
    requires Sorted(list, key) && forall x :: x in list ==> key(x).sequence >= ISIZE_MIN
    ensures var n := LowerBound(list, key, Key(0, order, ISIZE_MIN));
            Deque(list, key, 0, order) != [] <==> n < |list| && At(key(list[n]), 0, order)
    decreases list
  {
    if list != [] {
      assert list[0] in list;
      SortedTail(list, key);
      if Less(key(list[0]), Key(0, order, ISIZE_MIN)) {
        QueueAtBound(list[1..], key, order);
      } else if !At(key(list[0]), 0, order) {
        forall x | x in list ensures !At(key(x), 0, order) {
          if x in list[1..] {
            HeadIsLeast(list, key, x);
          }
        }
        DequeEmptyAfter(list, key, 0, order);
      }
    }
  }

  lemma SameAtBound(id: nat, v: View, order: int)
    requires ViewOk(id, v)
    ensures var n := LowerBound(v.ready, KeysOf(v.tasks), Key(0, order, ISIZE_MIN));
            QueueOf(v, 0, order) != [] <==> n < |v.ready| && At(KeysOf(v.tasks)(v.ready[n]), 0, order)
  {
    forall x | x in v.ready ensures KeysOf(v.tasks)(x).sequence >= ISIZE_MIN {
      assert KeyOk(v.tasks[x], v.counters);
    }
    QueueAtBound(v.ready, KeysOf(v.tasks), order);
  }

  // ----- what the operations do to a view -----

  /** A tick of the running real-time task `t`. */
  ghost predicate TicksRealTime(v: View, w: View, t: nat, quantum: int, reschedule: bool) {
    && t in v.tasks && t in w.tasks && w.tasks == v.tasks[t := w.tasks[t]]
    && (forall c: nat, o: int :: QueueOf(w, c, o) == QueueOf(v, c, o))
    && var order := PriorityKey(v.tasks[t].params.priority);
       Ticked(w.tasks[t], reschedule) ==
         RealTimeTick(v.tasks[t], HigherWaits(v, order), QueueOf(v, 0, order) != [], quantum)
  }

  /** Task `t` is queued with an action while the floor is at `floor`. */
  ghost predicate Enqueues(id: nat, v: View, w: View, t: nat, action: Action, floor: Option<int>, quantum: int) {
    && t in v.tasks && ValidParams(v.tasks[t].params) && Joins(v, w, t, EntersFront(v.tasks[t], action))
    && w.tasks[t] ==
       Placed(v.tasks[t], id, action, w.tasks[t].key.sequence, floor, FirstFair(v.ready, KeysOf(v.tasks)), quantum)
  }

  /** Task `t`, the head of the foremost queue, is taken to run. */
  ghost predicate Picks(v: View, w: View, t: nat) {
    && t in v.tasks && Leaves(v, w, t) && w.tasks == v.tasks[t := v.tasks[t].(owner := Unowned)]
    && var k := v.tasks[t].key;
       Foremost(v, k.class_, k.order) && QueueOf(v, k.class_, k.order) != [] && QueueOf(v, k.class_, k.order)[0] == t
  }

  // ----- hiding the invariant -----

  predicate Glance(v: View, k: nat) { true }

  /** The invariant, unfolded on demand. */
  ghost predicate Kept(id: nat, v: View) { forall k: nat {:trigger Glance(v, k)} :: Glance(v, k) ==> ViewOk(id, v) }

  lemma QueuedKept(id: nat, v: View, w: View, t: nat, front: bool)
    requires Kept(id, v) && NewlyQueued(id, v, w, t, front)
    ensures Kept(id, w) && Joins(v, w, t, RealTime(w.tasks[t].params) && front)
  {
    assert Glance(v, 0);
    NewlyQueuedOk(id, v, w, t, front);
  }

  lemma TakenKept(id: nat, v: View, w: View, t: nat)
    requires Kept(id, v) && NewlyTaken(id, v, w, t)
    ensures Kept(id, w) && Leaves(v, w, t)
  {
    assert Glance(v, 0);
    NewlyTakenOk(id, v, w, t);
  }

  lemma ReservedKept(id: nat, v: View, w: View, t: nat, r: Reservation)
    requires Kept(id, v) && NewlyReserved(id, v, w, t, r)
    ensures Kept(id, w) && forall c: nat, o: int :: QueueOf(w, c, o) == QueueOf(v, c, o)
  {
    assert Glance(v, 0);
    NewlyReservedOk(id, v, w, t, r);
  }

  lemma CommittedKept(id: nat, v: View, w: View, r: Reservation)
    requires Kept(id, v) && Committed(id, v, w, r)
    ensures Kept(id, w) && Enters(v, w, r.task)
  {
    assert Glance(v, 0);
    CommittedOk(id, v, w, r);
  }

  /** Facts about one task that the methods need. */
  lemma TaskAt(id: nat, v: View, t: nat)
    requires Kept(id, v) && t in v.tasks
    ensures ValidParams(v.tasks[t].params) && (t in v.ready <==> v.tasks[t].owner == Queued(id))
    ensures v.tasks[t].owner != Configuring ==> forall r :: r in v.reserved ==> r.task != t
    ensures v.tasks[t].owner == Queued(id) ==> KeyOk(v.tasks[t], v.counters)
    ensures 0 <= v.counters.fair && v.counters.front <= 0 <= v.counters.back
  {
    assert Glance(v, 0);
  }

  /** Words of a task that is neither linked nor reserved may change. */
  lemma RetuneKept(id: nat, v: View, w: View, t: nat)
    requires Kept(id, v) && t in v.tasks && v.tasks[t].owner != Queued(id)
             && (forall r :: r in v.reserved ==> r.task != t)
    requires t in w.tasks && w == v.(tasks := v.tasks[t := w.tasks[t]]) && w.tasks[t].owner != Queued(id)
             && ValidParams(w.tasks[t].params)
    ensures Kept(id, w) && forall c: nat, o: int :: QueueOf(w, c, o) == QueueOf(v, c, o)
  {
    assert Glance(v, 0);
    OthersKeep(id, v, w);
    forall c: nat, o: int ensures QueueOf(w, c, o) == QueueOf(v, c, o) {
      forall x | x in v.ready ensures KeysOf(w.tasks)(x) == KeysOf(v.tasks)(x) {
        assert x != t;
      }
      DequeSame(v.ready, KeysOf(v.tasks), KeysOf(w.tasks), c, o);
    }
  }

  /** A reconfigured task leaves its old queue and enters the new one at the back. */
  ghost predicate Moves(v: View, w: View, t: nat) {
    && t in v.tasks && t in w.tasks && w.tasks.Keys == v.tasks.Keys
       && (forall x :: x in v.tasks && x != t ==> w.tasks[x] == v.tasks[x])
    && forall c: nat, o: int ::
         var rest := if At(v.tasks[t].key, c, o) then Taken(QueueOf(v, c, o), t) else QueueOf(v, c, o);
         QueueOf(w, c, o) == if At(w.tasks[t].key, c, o) then rest + [t] else rest
  }

  lemma LeavesThenJoins(u: View, v: View, m: View, w: View, t: nat)
    requires Leaves(u, v, t) && (forall c: nat, o: int :: QueueOf(m, c, o) == QueueOf(v, c, o)) && Joins(m, w, t, false)
    requires m.tasks.Keys == v.tasks.Keys && forall x :: x in v.tasks && x != t ==> m.tasks[x] == v.tasks[x]
    ensures Moves(u, w, t)
  {
  }

  /** The task that is picked. */
  lemma PickedFirst(id: nat, v: View)
    requires Kept(id, v) && v.ready != []
    ensures var t := v.ready[0];
            && t in v.tasks && v.tasks[t].owner == Queued(id) && ValidParams(v.tasks[t].params)
            && Foremost(v, v.tasks[t].key.class_, v.tasks[t].key.order)
            && QueueOf(v, v.tasks[t].key.class_, v.tasks[t].key.order) != []
               && QueueOf(v, v.tasks[t].key.class_, v.tasks[t].key.order)[0] == t
            && Taken(v.ready, t) == v.ready[1..]
  {
    assert Glance(v, 0);
    assert v.ready[0] in v.ready;
    FirstIsForemost(id, v);
  }

  /** Where a linked task is found. */
  lemma Found(id: nat, v: View, t: nat) returns (k: nat)
    requires Kept(id, v) && t in v.tasks && v.tasks[t].owner == Queued(id)
    ensures k < |v.ready| && v.ready[k] == t && LowerBound(v.ready, KeysOf(v.tasks), v.tasks[t].key) == k
    ensures v.ready[..k] + v.ready[k + 1..] == Taken(v.ready, t)
            && Insert(Taken(v.ready, t), KeysOf(v.tasks), t) == v.ready
  {
    assert Glance(v, 0);
    k := IndexOf(v.ready, t);
    FoundAtBound(v.ready, KeysOf(v.tasks), k);
    SortedDistinct(v.ready, KeysOf(v.tasks));
    TakenAt(v.ready, k);
    InsertTaken(v.ready, KeysOf(v.tasks), t);
  }

  /** Whether other real-time work waits, as a tick looks it up. */
  lemma WaitersAt(id: nat, v: View, order: int)
    requires Kept(id, v)
    ensures HigherWaits(v, order) <==> v.ready != [] && KeysOf(v.tasks)(v.ready[0]).class_ == 0
                                       && KeysOf(v.tasks)(v.ready[0]).order < order
    ensures var n := LowerBound(v.ready, KeysOf(v.tasks), Key(0, order, ISIZE_MIN));
            QueueOf(v, 0, order) != [] <==> n < |v.ready| && At(KeysOf(v.tasks)(v.ready[n]), 0, order)
  {
    assert Glance(v, 0);
    FrontIsHigher(id, v, order);
    SameAtBound(id, v, order);
  }

  // ----- the same in the tasks' own parameters -----

  /** A ready real-time task and its priority. */
  predicate Waiting(v: View, x: nat, priority: nat) {
    x in v.ready && x in v.tasks && RealTime(v.tasks[x].params) && v.tasks[x].params.priority == priority
  }

  /** A ready real-time task has a larger priority. */
  ghost predicate Outranked(v: View, priority: nat) { exists x: nat, q: nat :: Waiting(v, x, q) && priority < q }

  /** A ready real-time task has the same priority. */
  ghost predicate HasPeer(v: View, priority: nat) { exists x: nat :: Waiting(v, x, priority) }

  /** While a real-time task is ready, `t` is one, and no ready one has a larger priority. */
  ghost predicate Highest(v: View, t: nat) {
    && t in v.tasks
    && forall x: nat, q: nat :: Waiting(v, x, q) ==> RealTime(v.tasks[t].params) && q <= v.tasks[t].params.priority
  }

  /** The queue of a priority holds exactly the ready real-time tasks that have it. */
  lemma QueueOfPriority(id: nat, v: View, x: nat, priority: nat)
    requires Kept(id, v)
    ensures x in QueueOf(v, 0, PriorityKey(priority)) <==> Waiting(v, x, priority)
  {
    assert Glance(v, 0);
    DequeElements(v.ready, KeysOf(v.tasks), 0, PriorityKey(priority), x);
    assert x in v.ready ==> KeyOk(v.tasks[x], v.counters);
  }

  /** Every real-time queue is the queue of its first task's priority. */
  lemma HeadWaits(id: nat, v: View, order: int) returns (x: nat, priority: nat)
    requires Kept(id, v) && QueueOf(v, 0, order) != []
    ensures Waiting(v, x, priority) && order == PriorityKey(priority)
  {
    assert Glance(v, 0);
    x := QueueOf(v, 0, order)[0];
    assert x in QueueOf(v, 0, order);
    DequeElements(v.ready, KeysOf(v.tasks), 0, order, x);
    assert KeyOk(v.tasks[x], v.counters);
    priority := v.tasks[x].params.priority;
  }

  /** An earlier queue waits exactly when a task of larger priority does, and this one when a peer does. */
  lemma RanksAgree(id: nat, v: View, priority: nat)
    requires Kept(id, v)
    ensures HigherWaits(v, PriorityKey(priority)) <==> Outranked(v, priority)
    ensures QueueOf(v, 0, PriorityKey(priority)) != [] <==> HasPeer(v, priority)
  {
    if HigherWaits(v, PriorityKey(priority)) {
      var o: int :| o < PriorityKey(priority) && QueueOf(v, 0, o) != [];
      var x, q := HeadWaits(id, v, o);
    }
    if Outranked(v, priority) {
      var x: nat, q: nat :| Waiting(v, x, q) && priority < q;
      QueueOfPriority(id, v, x, q);
      assert QueueOf(v, 0, PriorityKey(q)) != [];
    }
    if QueueOf(v, 0, PriorityKey(priority)) != [] {
      var x, q := HeadWaits(id, v, PriorityKey(priority));
    }
    if HasPeer(v, priority) {
      var x: nat :| Waiting(v, x, priority);
      QueueOfPriority(id, v, x, priority);
    }
  }

  /** The head of the foremost queue has the highest priority. */
  lemma ForemostIsHighest(id: nat, v: View, t: nat)
    requires Kept(id, v) && t in v.ready && t in v.tasks && Foremost(v, v.tasks[t].key.class_, v.tasks[t].key.order)
    ensures Highest(v, t)
  {
    assert Glance(v, 0);
    assert KeyOk(v.tasks[t], v.counters);
    forall x: nat, q: nat | Waiting(v, x, q)
      ensures RealTime(v.tasks[t].params) && q <= v.tasks[t].params.priority
    {
      QueueOfPriority(id, v, x, q);
      assert QueueOf(v, 0, PriorityKey(q)) != [];
    }
  }

  /** A reservation's task stays as it was reserved. */
  lemma ReservationAt(id: nat, v: View, r: Reservation)
    requires Kept(id, v) && r in v.reserved
    ensures r.scheduler == id && r.task in v.tasks && v.tasks[r.task].owner == Configuring
            && v.tasks[r.task].params == r.params && ValidParams(r.params)
    ensures Issued(v.counters, RealTime(r.params), r.sequence)
  {
    assert Glance(v, 0);
  }

  /** Cancelling gives the task back. */
  lemma CancelKept(id: nat, v: View, w: View, r: Reservation)
    requires Kept(id, v) && r in v.reserved && r.task in v.tasks
    requires w == v.(tasks := v.tasks[r.task := v.tasks[r.task].(owner := Unowned)], reserved := v.reserved - {r})
    ensures Kept(id, w) && forall c: nat, o: int :: QueueOf(w, c, o) == QueueOf(v, c, o)
  {
    assert Glance(v, 0);
    var m := v.(reserved := v.reserved - {r});
    assert ViewOk(id, m);
    assert forall q :: q in m.reserved ==> q.task != r.task;
    RetuneKept(id, m, w, r.task);
  }
}
