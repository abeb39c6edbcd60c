/**
 The CFS scheduler: queueing, reservations, reconfiguration with rollback, removal,
 picking and ticking, in place. `ready` is the tree in key order.
 */
module CfsScheduler {
  import opened Words
  import opened LinkedLists
  import opened ReadyOrder
  import opened CfsQueue

  class Scheduler {
    const id: nat
    var tasks: map<nat, Task>
    var ready: seq<nat>
    var floor: Option<int>
    var counters: Counters
    ghost var reserved: set<Reservation>

    ghost function Value(): View
      reads this
    {
      View(tasks, ready, counters, reserved)
    }

    ghost predicate Valid()
      reads this
    {
      Kept(id, Value())
    }

    /** An empty scheduler that can reach tasks which are not queued in it. */
    constructor (id: nat, tasks: map<nat, Task>)
      requires forall t :: t in tasks ==> ValidParams(tasks[t].params) && tasks[t].owner != Queued(id)
      ensures Valid() && this.id == id && this.tasks == tasks && ready == [] && floor == None
              && counters == Counters(0, 0, 0)
    {
      this.id := id;
      this.tasks := tasks;
      ready, floor, counters, reserved := [], None, Counters(0, 0, 0), {};
    }

    /** The next ordering sequence; an exhausted range changes nothing. */
    method NextSequence(realTime: bool, front: bool) returns (r: Result<int, SchedulerError>)
      modifies this`counters
      ensures r.Ok? ==> NextTicket(old(counters), realTime, front) == Some(Ticket(r.value, counters))
      ensures r.Err? ==> NextTicket(old(counters), realTime, front).None? && r.error == SequenceExhausted
                         && counters == old(counters)
    {
      if realTime && front {
        if counters.front - 1 < ISIZE_MIN {
          return Err(SequenceExhausted);
        }
        counters := counters.(front := counters.front - 1);
        return Ok(counters.front);
      } else if realTime {
        if counters.back + 1 > ISIZE_MAX {
          return Err(SequenceExhausted);
        }
        counters := counters.(back := counters.back + 1);
        return Ok(counters.back - 1);
      }
      if counters.fair + 1 > ISIZE_MAX {
        return Err(SequenceExhausted);
      }
      counters := counters.(fair := counters.fair + 1);
      return Ok(counters.fair - 1);
    }

    /** Links a task under a new key; `v` is the scheduler before the task was claimed. */
    method Link(t: nat, placed: Task, front: bool, ghost v: View)
      requires Kept(id, v) && t in v.tasks && v.tasks[t].owner != Queued(id)
               && (forall r :: r in v.reserved ==> r.task != t)
      requires t in tasks && tasks == v.tasks[t := tasks[t]] && ready == v.ready && reserved == v.reserved
      requires NextTicket(v.counters, RealTime(placed.params), front) == Some(Ticket(placed.key.sequence, counters))
      requires placed.owner == Queued(id) && KeyOk(placed, counters)
      modifies this`tasks, this`ready
      ensures Valid() && tasks == v.tasks[t := placed] && Joins(v, Value(), t, RealTime(placed.params) && front)
    {
      tasks := tasks[t := placed];
      ready := Insert(ready, KeysOf(tasks), t);
      assert tasks == v.tasks[t := placed];
      QueuedKept(id, v, Value(), t, front);
    }

    /** Queues a task; a refusal leaves the scheduler and the task exactly as they were. */
    method Enqueue(t: nat, action: Action, quantum: int) returns (r: Result<bool, SchedulerError>)
      requires Valid() && t in tasks
      modifies this`tasks, this`ready, this`floor, this`counters
      ensures Valid()
      ensures var e := EnqueueError(old(tasks)[t], id, old(counters), EntersFront(old(tasks)[t], action));
              if e.Some? then r == Err(e.value) && unchanged(this) else r.Ok?
      ensures r.Ok? ==>
                && Enqueues(id, old(Value()), Value(), t, action, old(floor), quantum)
                && floor == (if RealTime(tasks[t].params) then old(floor)
                             else Refreshed(old(floor), None, FirstFair(ready, KeysOf(tasks))))
    {
      TaskAt(id, Value(), t);
      var task := tasks[t];
      if task.owner == Queued(id) {
        return Err(AlreadyQueued);
      } else if task.owner.Configuring? {
        return Err(TaskBusy);
      } else if task.owner.Queued? {
        return Err(ForeignQueue);
      }
      r := Publish(t, action, quantum);
    }

    /** Claims an unowned task, draws its sequence and links it; without a sequence the claim is dropped again. */
    method Publish(t: nat, action: Action, quantum: int) returns (r: Result<bool, SchedulerError>)
      requires Valid() && t in tasks && tasks[t].owner == Unowned
      modifies this`tasks, this`ready, this`floor, this`counters
      ensures Valid()
      ensures var task := old(tasks)[t];
              if NextTicket(old(counters), RealTime(task.params), EntersFront(task, action)).None?
              then r == Err(SequenceExhausted) && unchanged(this)
              else r.Ok?
      ensures r.Ok? ==>
                && Enqueues(id, old(Value()), Value(), t, action, old(floor), quantum)
                && floor == (if RealTime(tasks[t].params) then old(floor)
                             else Refreshed(old(floor), None, FirstFair(ready, KeysOf(tasks))))
    {
      TaskAt(id, Value(), t);
      var task := tasks[t];
      tasks := tasks[t := task.(owner := Queued(id))];
      var front := EntersFront(task, action);
      var sequence := NextSequence(RealTime(task.params), front);
      if sequence.Err? {
        tasks := tasks[t := tasks[t].(owner := Unowned)];
        assert tasks == old(tasks);
        return Err(sequence.error);
      }
      TicketFresh(old(counters), RealTime(task.params), front);
      Settle(t, task, action, sequence.value, front, quantum, old(Value()));
      return Ok(true);
    }

    /** Writes a claimed task's words and links it. */
    method Settle(t: nat, task: Task, action: Action, sequence: int, front: bool, quantum: int, ghost v: View)
      requires Kept(id, v) && t in v.tasks && v.tasks[t] == task && task.owner == Unowned
               && front == EntersFront(task, action)
      requires tasks == v.tasks[t := task.(owner := Queued(id))] && ready == v.ready && reserved == v.reserved
      requires NextTicket(v.counters, RealTime(task.params), front) == Some(Ticket(sequence, counters))
               && Issued(counters, RealTime(task.params), sequence)
      modifies this`tasks, this`ready, this`floor
      ensures Valid() && Enqueues(id, v, Value(), t, action, old(floor), quantum)
      ensures floor == (if RealTime(task.params) then old(floor)
                        else Refreshed(old(floor), None, FirstFair(ready, KeysOf(tasks))))
    {
      TaskAt(id, v, t);
      SameFirst(id, v, tasks, t);
      var first := FirstFair(ready, KeysOf(tasks));
      var placed := Placed(task, id, action, sequence, floor, first, quantum);
      PlacedOk(task, id, action, sequence, floor, first, quantum, counters);
      Link(t, placed, front, v);
      if !RealTime(task.params) {
        floor := Refreshed(floor, None, FirstFair(ready, KeysOf(tasks)));
      }
    }

    // ----- removing and picking -----

    /** Walks from the lower bound of a key to the task itself. */
    method FindLinked(t: nat, key: Key) returns (r: Result<nat, SchedulerError>)
      requires Valid() && t in tasks && tasks[t].owner == Queued(id) && tasks[t].key == key
      ensures r.Ok? && r.value < |ready| && ready[r.value] == t
              && ready[..r.value] + ready[r.value + 1..] == Taken(ready, t)
    {
      var bound := LowerBound(ready, KeysOf(tasks), key);
      var cursor := bound;
      while cursor < |ready| && KeysOf(tasks)(ready[cursor]) == key && ready[cursor] != t
        invariant bound <= cursor <= |ready| && forall i :: bound <= i < cursor ==> ready[i] != t
      {
        cursor := cursor + 1;
      }
      ghost var place := Found(id, Value(), t);
      assert !(bound <= place < cursor);
      assert cursor == place;
      if cursor >= |ready| || KeysOf(tasks)(ready[cursor]) != key {
        return Err(InconsistentState);
      }
      return Ok(cursor);
    }

    /** Takes a task out of the ready tree; a linked task is always found. */
    method RemoveOwned(t: nat, next: Owner, preserve: bool) returns (r: Result<Option<nat>, SchedulerError>)
      requires Valid() && t in tasks && next != Queued(id)
      modifies this`tasks, this`ready, this`floor
      ensures Valid()
      ensures var o := old(tasks)[t].owner;
              r == if o.Unowned? then Ok(None) else if o.Configuring? then Err(TaskBusy) else if o != Queued(id)
                then Err(ForeignQueue) else Ok(Some(t))
      ensures r != Ok(Some(t)) ==> unchanged(this)
      ensures r == Ok(Some(t)) ==>
                && Leaves(old(Value()), Value(), t) && ready == Taken(old(ready), t)
                   && ValidParams(old(tasks)[t].params)
                && tasks == old(tasks)[t := old(tasks)[t].(owner := next, offset := if preserve
                                                           then CarriedOffset(old(tasks)[t], old(floor))
                                                             else old(tasks)[t].offset)]
                && floor == (if old(tasks)[t].key.class_ != 0
                             then Refreshed(old(floor), None, FirstFair(ready, KeysOf(tasks))) else old(floor))
    {
      TaskAt(id, Value(), t);
      var task := tasks[t];
      if task.owner.Unowned? {
        return Ok(None);
      } else if task.owner.Configuring? {
        return Err(TaskBusy);
      } else if task.owner != Queued(id) {
        return Err(ForeignQueue);
      }
      var found := FindLinked(t, task.key);
      if found.Err? {
        return Err(InconsistentState);
      }
      var cursor := found.value;
      Unlink(t, task.(owner := next, offset := if preserve then CarriedOffset(task, floor) else task.offset), cursor);
      if task.key.class_ != 0 {
        floor := Refreshed(floor, None, FirstFair(ready, KeysOf(tasks)));
      }
      return Ok(Some(t));
    }

    /** Unlinks the task at a place of the tree and rewrites its words, except for the key. */
    method Unlink(t: nat, words: Task, cursor: nat)
      requires Valid() && t in tasks && tasks[t].owner == Queued(id) && cursor < |ready| && ready[cursor] == t
      requires ready[..cursor] + ready[cursor + 1..] == Taken(ready, t)
      requires words.key == tasks[t].key && words.owner != Queued(id) && ValidParams(words.params)
      modifies this`tasks, this`ready
      ensures Valid() && Leaves(old(Value()), Value(), t) && ready == Taken(old(ready), t)
              && tasks == old(tasks)[t := words]
    {
      ready := ready[..cursor] + ready[cursor + 1..];
      tasks := tasks[t := words];
      TakenKept(id, old(Value()), Value(), t);
    }

    /** Picks the first task of the foremost queue. */
    method PickNext() returns (r: Option<nat>)
      requires Valid()
      modifies this`tasks, this`ready, this`floor
      ensures Valid()
      ensures r.None? <==> old(ready) == []
      ensures r.None? ==> ready == [] && tasks == old(tasks) && floor == Refreshed(old(floor), None, None)
      ensures r.Some? ==>
                var t, v := r.value, old(Value());
                && Picks(v, Value(), t) && Highest(v, t)
                && floor == (if v.tasks[t].key.class_ == 0 then old(floor)
                             else Refreshed(old(floor), Some(v.tasks[t].key.order), FirstFair(ready, KeysOf(tasks))))
    {
      if ready == [] {
        floor := Refreshed(floor, None, FirstFair(ready, KeysOf(tasks)));
        return None;
      }
      PickedFirst(id, Value());
      ForemostIsHighest(id, Value(), ready[0]);
      var t := ready[0];
      var key := tasks[t].key;
      assert ready[..0] + ready[1..] == ready[1..];
      Unlink(t, tasks[t].(owner := Unowned), 0);
      if key.class_ != 0 {
        floor := Refreshed(floor, Some(key.order), FirstFair(ready, KeysOf(tasks)));
      }
      return Some(t);
    }

    // ----- reservations -----

    /** Reserves the publication of a new task without linking it. */
    method Reserve(t: nat) returns (r: Result<Reservation, SchedulerError>)
      requires Valid() && t in tasks
      modifies this`tasks, this`counters, this`reserved
      ensures Valid()
      ensures var e := EnqueueError(old(tasks)[t], id, old(counters), false);
              if e.Some? then r == Err(e.value) && unchanged(this) else r.Ok?
      ensures r.Ok? ==>
                && NewlyReserved(id, old(Value()), Value(), t, r.value)
                && forall c: nat, o: int :: QueueOf(Value(), c, o) == QueueOf(old(Value()), c, o)
    {
      var task := tasks[t];
      if task.owner.Configuring? {
        return Err(TaskBusy);
      } else if task.owner == Queued(id) {
        return Err(AlreadyQueued);
      } else if task.owner.Queued? {
        return Err(ForeignQueue);
      }
      tasks := tasks[t := task.(owner := Configuring)];
      var sequence := NextSequence(RealTime(task.params), false);
      if sequence.Err? {
        tasks := tasks[t := tasks[t].(owner := Unowned)];
        assert tasks == old(tasks);
        return Err(sequence.error);
      }
      var reservation := Reservation(t, id, sequence.value, task.params);
      reserved := reserved + {reservation};
      ReservedKept(id, old(Value()), Value(), t, reservation);
      return Ok(reservation);
    }

    /** Gives a reserved task back unpublished. */
    method Cancel(reservation: Reservation) returns (t: nat)
      requires Valid() && reservation in reserved
      modifies this`tasks, this`reserved
      ensures Valid() && t == reservation.task && t in tasks && t in old(tasks)
              && tasks == old(tasks)[t := old(tasks)[t].(owner := Unowned)]
      ensures forall c: nat, o: int :: QueueOf(Value(), c, o) == QueueOf(old(Value()), c, o)
    {
      ReservationAt(id, Value(), reservation);
      t := reservation.task;
      CancelKept(id, Value(),
                 Value().(tasks := tasks[t := tasks[t].(owner := Unowned)], reserved := reserved - {reservation}),
                   reservation);
      tasks := tasks[t := tasks[t].(owner := Unowned)];
      reserved := reserved - {reservation};
    }

    /** Publishes a reserved task at the place its reservation was made; only a foreign reservation is refused. */
    method Commit(reservation: Reservation, quantum: int) returns (r: Result<nat, SchedulerError>)
      requires Valid() && (reservation.scheduler == id ==> reservation in reserved)
      modifies this`tasks, this`ready, this`floor, this`reserved
      ensures Valid()
      ensures r == if reservation.scheduler != id then Err(ForeignQueue) else Ok(reservation.task)
      ensures r.Err? ==> unchanged(this)
      ensures r.Ok? ==>
                && Enters(old(Value()), Value(), reservation.task) && reservation.task in old(tasks)
                   && ValidParams(old(tasks)[reservation.task].params)
                && tasks == old(tasks)[reservation.task := Published(old(tasks)[reservation.task], id,
                                                                     reservation.sequence, old(floor), quantum)]
                && floor == (if RealTime(reservation.params) then old(floor)
                             else Refreshed(old(floor), None, FirstFair(ready, KeysOf(tasks))))
    {
      if reservation.scheduler != id {
        return Err(ForeignQueue);
      }
      ReservationAt(id, Value(), reservation);
      var t := reservation.task;
      if !tasks[t].owner.Configuring? || tasks[t].params != reservation.params {
        return Err(InconsistentState);
      }
      PublishedOk(tasks[t], id, reservation.sequence, floor, quantum, counters);
      LinkReserved(reservation, Published(tasks[t], id, reservation.sequence, floor, quantum));
      if !RealTime(reservation.params) {
        floor := Refreshed(floor, None, FirstFair(ready, KeysOf(tasks)));
      }
      return Ok(t);
    }

    method LinkReserved(reservation: Reservation, placed: Task)
      requires Valid() && reservation in reserved && reservation.task in tasks
      requires placed.owner == Queued(id) && placed.params == reservation.params
               && placed.key.sequence == reservation.sequence && KeyOk(placed, counters)
      modifies this`tasks, this`ready, this`reserved
      ensures Valid() && Enters(old(Value()), Value(), reservation.task)
              && tasks == old(tasks)[reservation.task := placed]
    {
      tasks := tasks[reservation.task := placed];
      ready := Insert(ready, KeysOf(tasks), reservation.task);
      reserved := reserved - {reservation};
      CommittedKept(id, old(Value()), Value(), reservation);
    }

    // ----- reconfiguration -----

    /** Changes a task's parameters; a linked task moves to the back of its new queue, or stays exactly as it was. */
    method SetParams(t: nat, wanted: Params, quantum: int) returns (r: Result<bool, SchedulerError>)
      requires Valid() && t in tasks
      modifies this`tasks, this`ready, this`floor, this`counters
      ensures Valid()
      ensures var e := ReconfigureError(old(tasks)[t], id, old(counters), wanted);
              if e.Some? then r == Err(e.value) && unchanged(this) else r.Ok?
      ensures r.Ok? && old(tasks)[t].owner.Unowned? ==>
                && ValidParams(old(tasks)[t].params) && Validated(wanted).Some?
                && tasks == old(tasks)[t := Retuned(old(tasks)[t], Validated(wanted).value, quantum)]
                   && ready == old(ready)
      ensures r.Ok? && !old(tasks)[t].owner.Unowned? ==>
                && ValidParams(old(tasks)[t].params) && Validated(wanted).Some?
                && Reconfigures(id, old(Value()), Value(), t, Validated(wanted).value, quantum)
                && floor == FloorAfter(old(Value()), Value(), t, old(floor))
    {
      TaskAt(id, Value(), t);
      var params := Validated(wanted);
      if params.None? {
        return Err(InvalidParameters);
      }
      ValidatedTwice(wanted);
      var task := tasks[t];
      if task.owner.Unowned? {
        RetuneKept(id, Value(), Value().(tasks := tasks[t := Retuned(task, params.value, quantum)]), t);
        tasks := tasks[t := Retuned(task, params.value, quantum)];
        return Ok(true);
      } else if task.owner.Configuring? {
        return Err(TaskBusy);
      } else if task.owner != Queued(id) {
        return Err(ForeignQueue);
      }
      r := Reconfigure(t, params.value, quantum);
    }

    /** Takes a linked task out, retunes it, and links it again; without a sequence everything is put back. */
    method Reconfigure(t: nat, params: Params, quantum: int) returns (r: Result<bool, SchedulerError>)
      requires Valid() && t in tasks && tasks[t].owner == Queued(id) && ValidParams(params)
      modifies this`tasks, this`ready, this`floor, this`counters
      ensures Valid()
      ensures NextTicket(old(counters), RealTime(params), false).None? ==>
                r == Err(SequenceExhausted) && unchanged(this)
      ensures NextTicket(old(counters), RealTime(params), false).Some? ==>
                && r.Ok? && Reconfigures(id, old(Value()), Value(), t, params, quantum)
                && floor == FloorAfter(old(Value()), Value(), t, old(floor))
    {
      var previous, previousFloor := SnapshotOf(tasks[t]), floor;
      ghost var u := Value();
      TaskAt(id, u, t);
      ghost var v := Detach(t, params, quantum);
      ghost var between := floor;
      assert tasks[t] == Retuned(u.tasks[t], params, quantum).(owner := Configuring);
      r := Relink(t, previous, previousFloor, u, v);
      RelinkedAnyway(Retuned(u.tasks[t], params, quantum), id, tasks[t].key.sequence);
      assert r.Ok? ==> floor == FloorUpon(params, between, Value());
      assert r.Err? ==> tasks == old(tasks) && ready == old(ready) && counters == old(counters);
    }

    /** Takes a linked task out and applies new parameters; `v` is the scheduler in between. */
    method Detach(t: nat, params: Params, quantum: int) returns (ghost v: View)
      requires Valid() && t in tasks && tasks[t].owner == Queued(id) && ValidParams(tasks[t].params)
               && ValidParams(params)
      modifies this`tasks, this`ready, this`floor
      ensures Valid() && ready == Taken(old(ready), t)
              && tasks == old(tasks)[t := Retuned(old(tasks)[t], params, quantum).(owner := Configuring)]
      ensures t in v.tasks && Leaves(old(Value()), v, t) && v.tasks == old(tasks)[t := v.tasks[t]]
      ensures forall c: nat, o: int :: QueueOf(Value(), c, o) == QueueOf(v, c, o)
      ensures floor == FloorUponLeaving(old(Value()), t, old(floor))
    {
      TakeOut(t);
      TaskAt(id, Value(), t);
      v := Value();
      Retune(t, params, quantum);
      RetunedAnyway(old(tasks)[t], params, quantum);
    }

    /** Takes a linked task out for configuration. */
    method TakeOut(t: nat)
      requires Valid() && t in tasks && tasks[t].owner == Queued(id)
      modifies this`tasks, this`ready, this`floor
      ensures Valid() && ready == Taken(old(ready), t) && Leaves(old(Value()), Value(), t)
      ensures tasks == old(tasks)[t := old(tasks)[t].(owner := Configuring)]
      ensures (forall r :: r in reserved ==> r.task != t) && floor == FloorUponLeaving(old(Value()), t, old(floor))
    {
      TaskAt(id, Value(), t);
      var removed := RemoveOwned(t, Configuring, false);
      assert removed == Ok(Some(t));
      assert tasks == old(tasks)[t := old(tasks)[t].(owner := Configuring)];
      FirstFairSame(ready, KeysOf(old(tasks)), KeysOf(tasks));
    }

    /** Applies new parameters to a task that is being configured. */
    method Retune(t: nat, params: Params, quantum: int)
      requires Valid() && t in tasks && tasks[t].owner.Configuring? && ValidParams(tasks[t].params)
               && ValidParams(params)
      requires forall r :: r in reserved ==> r.task != t
      modifies this`tasks
      ensures Valid() && tasks == old(tasks)[t := Retuned(old(tasks)[t], params, quantum)]
      ensures forall c: nat, o: int :: QueueOf(Value(), c, o) == QueueOf(old(Value()), c, o)
    {
      tasks := tasks[t := tasks[t].(init := Vruntime(tasks[t]), delta := 0)];
      tasks := tasks[t := tasks[t].(slice := if RealTime(params) then quantum else 0)];
      tasks := tasks[t := tasks[t].(params := params)];
      assert tasks == old(tasks)[t := Retuned(old(tasks)[t], params, quantum)];
      RetuneKept(id, old(Value()), Value(), t);
    }

    /**
     Links a removed and retuned task, or puts it back from its snapshot; `u` is the
     scheduler before its removal, `v` the one after.
     */
    method Relink(t: nat, previous: Snapshot, previousFloor: Option<int>, ghost u: View, ghost v: View)
      returns (r: Result<bool, SchedulerError>)
      requires Kept(id, u) && t in u.tasks && u.tasks[t].owner == Queued(id) && SnapshotOf(u.tasks[t]) == previous
      requires Valid() && t in v.tasks && Leaves(u, v, t) && t in tasks && ValidParams(tasks[t].params)
               && tasks[t].owner.Configuring?
      requires tasks == u.tasks[t := tasks[t]] && tasks[t].offset == u.tasks[t].offset && tasks[t].key == u.tasks[t].key
      requires forall c: nat, o: int :: QueueOf(Value(), c, o) == QueueOf(v, c, o)
      requires v.tasks == u.tasks[t := v.tasks[t]] && ready == Taken(u.ready, t) && counters == u.counters
               && reserved == u.reserved
      modifies this`tasks, this`ready, this`floor, this`counters
      ensures Valid()
      ensures NextTicket(u.counters, RealTime(old(tasks)[t].params), false).None? ==>
                r == Err(SequenceExhausted) && Value() == u && floor == previousFloor
      ensures NextTicket(u.counters, RealTime(old(tasks)[t].params), false).Some? ==>
                && r.Ok? && Moves(u, Value(), t) && ValidParams(old(tasks)[t].params)
                && tasks[t] == Relinked(old(tasks)[t], id, tasks[t].key.sequence)
                && floor == FloorUpon(old(tasks)[t].params, old(floor), Value())
    {
      TaskAt(id, u, t);
      var sequence := NextSequence(RealTime(tasks[t].params), false);
      if sequence.Err? {
        Restore(t, previous, previousFloor, u);
        return Err(sequence.error);
      }
      TicketFresh(u.counters, RealTime(tasks[t].params), false);
      Reinsert(t, sequence.value, u, v, old(Value()));
      return Ok(true);
    }

    /** Puts a removed task back: the words of its snapshot, its owner, its place and the floor. */
    method Restore(t: nat, previous: Snapshot, previousFloor: Option<int>, ghost u: View)
      requires Kept(id, u) && t in u.tasks && SnapshotOf(u.tasks[t]) == previous && u.tasks[t].owner == Queued(id)
      requires t in tasks && tasks == u.tasks[t := tasks[t]] && ready == Taken(u.ready, t)
      requires tasks[t].owner.Configuring? && tasks[t].offset == u.tasks[t].offset
      modifies this`tasks, this`ready, this`floor
      ensures tasks == u.tasks && ready == u.ready && floor == previousFloor
    {
      var task := tasks[t];
      task := task.(init := previous.init, delta := previous.delta, seeded := previous.seeded);
      task := task.(slice := previous.slice, params := previous.params, key := previous.key);
      tasks := tasks[t := task];
      tasks := tasks[t := task.(owner := Queued(id))];
      assert tasks[t] == u.tasks[t];
      assert tasks == u.tasks;
      ghost var place := Found(id, u, t);
      ready := Insert(ready, KeysOf(tasks), t);
      floor := previousFloor;
    }

    /** Links a retuned task at the back of its queue; `m` is the scheduler before its sequence was drawn. */
    method Reinsert(t: nat, sequence: int, ghost u: View, ghost v: View, ghost m: View)
      requires Kept(id, m) && t in u.tasks && t in v.tasks && t in m.tasks && Leaves(u, v, t)
               && m.tasks[t].owner == Configuring
      requires (forall r :: r in m.reserved ==> r.task != t)
               && (forall c: nat, o: int :: QueueOf(m, c, o) == QueueOf(v, c, o))
      requires m.tasks.Keys == v.tasks.Keys && forall x :: x in v.tasks && x != t ==> m.tasks[x] == v.tasks[x]
      requires tasks == m.tasks && ready == m.ready && reserved == m.reserved && ValidParams(tasks[t].params)
      requires NextTicket(m.counters, RealTime(tasks[t].params), false) == Some(Ticket(sequence, counters))
      requires Issued(counters, RealTime(tasks[t].params), sequence)
      modifies this`tasks, this`ready, this`floor
      ensures Valid() && Moves(u, Value(), t) && tasks[t] == Relinked(m.tasks[t], id, sequence)
      ensures floor == FloorUpon(m.tasks[t].params, old(floor), Value())
    {
      var params := tasks[t].params;
      Link(t, Relinked(tasks[t], id, sequence), false, m);
      LeavesThenJoins(u, v, m, Value(), t);
      if !RealTime(params) {
        floor := Refreshed(floor, None, FirstFair(ready, KeysOf(tasks)));
      }
    }

    // ----- ticks -----

    /** A tick of a running real-time task. */
    method TickRealTime(current: nat, quantum: int) returns (reschedule: bool)
      requires Valid() && current in tasks && tasks[current].owner.Unowned? && RealTime(tasks[current].params)
      modifies this`tasks
      ensures Valid() && TicksRealTime(old(Value()), Value(), current, quantum, reschedule)
      ensures reschedule <==> MustYield(old(Value()), current)
    {
      var task := tasks[current];
      var order := PriorityKey(task.params.priority);
      RanksAgree(id, Value(), task.params.priority);
      WaitersAt(id, Value(), order);
      if ready != [] && KeysOf(tasks)(ready[0]).class_ == 0 && KeysOf(tasks)(ready[0]).order < order {
        return true;
      }
      if task.params.class_.Fifo? {
        return false;
      }
      var bound := LowerBound(ready, KeysOf(tasks), Key(0, order, ISIZE_MIN));
      var same := bound < |ready| && At(KeysOf(tasks)(ready[bound]), 0, order);
      var slice := Saturated(task.slice - 1);
      reschedule := false;
      if task.slice <= 1 {
        if same {
          reschedule := true;
        } else {
          slice := quantum;
        }
      }
      Rewrite(current, task.(slice := slice));
    }

    /** A tick of the running task. */
    method TaskTick(current: nat, quantum: int) returns (reschedule: bool)
      requires Valid() && current in tasks && tasks[current].owner.Unowned?
      modifies this`tasks, this`floor
      ensures Valid() && current in tasks
              && (forall c: nat, o: int :: QueueOf(Value(), c, o) == QueueOf(old(Value()), c, o))
      ensures RealTime(old(tasks)[current].params) ==>
                && TicksRealTime(old(Value()), Value(), current, quantum, reschedule) && floor == old(floor)
                && (reschedule <==> MustYield(old(Value()), current))
      ensures !RealTime(old(tasks)[current].params) && RealTimeReady(old(Value())) ==> reschedule && unchanged(this)
      ensures !RealTime(old(tasks)[current].params) && !RealTimeReady(old(Value())) ==>
                FairTicks(old(Value()), Value(), current, old(floor), floor, reschedule)
    {
      if RealTime(tasks[current].params) {
        reschedule := TickRealTime(current, quantum);
        return;
      }
      reschedule := TickFairClass(current);
    }

    /** A tick of a running fair task: any real-time task goes first. */
    method TickFairClass(current: nat) returns (reschedule: bool)
      requires Valid() && current in tasks && tasks[current].owner.Unowned?
      modifies this`tasks, this`floor
      ensures Valid() && current in tasks
              && (forall c: nat, o: int :: QueueOf(Value(), c, o) == QueueOf(old(Value()), c, o))
      ensures RealTimeReady(old(Value())) ==> reschedule && unchanged(this)
      ensures !RealTimeReady(old(Value())) ==> FairTicks(old(Value()), Value(), current, old(floor), floor, reschedule)
    {
      RealTimeFirst(id, Value());
      if ready != [] && KeysOf(tasks)(ready[0]).class_ == 0 {
        return true;
      }
      reschedule := TickFair(current);
    }

    /** A tick of a running fair task while no real-time task is ready. */
    method TickFair(current: nat) returns (reschedule: bool)
      requires Valid() && current in tasks && tasks[current].owner.Unowned?
      modifies this`tasks, this`floor
      ensures Valid() && FairTicks(old(Value()), Value(), current, old(floor), floor, reschedule)
      ensures forall c: nat, o: int :: QueueOf(Value(), c, o) == QueueOf(old(Value()), c, o)
    {
      TaskAt(id, Value(), current);
      Rewrite(current, FairTick(tasks[current]));
      var vruntime := Vruntime(tasks[current]);
      var first := FirstFair(ready, KeysOf(tasks));
      floor := Refreshed(floor, Some(vruntime), first);
      return first.Some? && vruntime > Saturated(first.value + GRANULARITY);
    }

    /** Rewrites the words of a task that is not linked. */
    method Rewrite(t: nat, words: Task)
      requires Valid() && t in tasks && tasks[t].owner.Unowned? && words.owner.Unowned?
               && words.params == tasks[t].params
      modifies this`tasks
      ensures Valid() && tasks == old(tasks)[t := words] && forall c: nat, o: int ::
                QueueOf(Value(), c, o) == QueueOf(old(Value()), c, o)
    {
      TaskAt(id, Value(), t);
      tasks := tasks[t := words];
      RetuneKept(id, old(Value()), Value(), t);
    }
  }

  /** The vruntime a task carries to another queue. */
  function CarriedOffset(t: Task, floor: Option<int>): Option<int>
    requires ValidParams(t.params)
  {
    if RealTime(t.params) then None else Some(Saturated(Vruntime(t) - FloorOf(floor)))
  }

  /** A task's words under new parameters. */
  function Retuned(t: Task, params: Params, quantum: int): Task
    requires ValidParams(t.params)
  {
    t.(init := Vruntime(t), delta := 0, slice := if RealTime(params) then quantum else 0, params := params)
  }

  /** The words that a reconfiguration saves. */
  datatype Snapshot = Snapshot(params: Params, key: Key, init: int, delta: nat, seeded: bool, slice: int)

  function SnapshotOf(t: Task): Snapshot { Snapshot(t.params, t.key, t.init, t.delta, t.seeded, t.slice) }

  /** A retuned task's words once it is linked again. */
  function Relinked(t: Task, id: nat, sequence: int): Task
    requires ValidParams(t.params)
  {
    t.(owner := Queued(id),
       key := if RealTime(t.params) then Key(0, PriorityKey(t.params.priority), sequence)
         else Key(1, Vruntime(t), sequence))
  }

  /** A linked task moved to the back of the queue of its new parameters, with retuned words. */
  ghost predicate Reconfigures(id: nat, v: View, w: View, t: nat, params: Params, quantum: int) {
    && Moves(v, w, t) && ValidParams(v.tasks[t].params) && ValidParams(params)
    && w.tasks[t] == Relinked(Retuned(v.tasks[t], params, quantum), id, w.tasks[t].key.sequence)
  }

  /** The floor after a task entered `w`. */
  ghost function FloorUpon(params: Params, floor: Option<int>, w: View): Option<int> {
    if RealTime(params) then floor else Refreshed(floor, None, FirstFair(w.ready, KeysOf(w.tasks)))
  }

  /** The floor after a task left `v` and entered `w`: refreshed for each fair side. */
  ghost function FloorAfter(v: View, w: View, t: nat, floor: Option<int>): Option<int>
    requires t in v.tasks && t in w.tasks
  {
    FloorUpon(w.tasks[t].params, FloorUponLeaving(v, t, floor), w)
  }

  /** The floor after a task left `v`. */
  ghost function FloorUponLeaving(v: View, t: nat, floor: Option<int>): Option<int>
    requires t in v.tasks
  {
    if v.tasks[t].key.class_ == 0 then floor else Refreshed(floor, None, FirstFair(Taken(v.ready, t), KeysOf(v.tasks)))
  }

  /** Whether any real-time task is ready. */
  ghost predicate RealTimeReady(v: View) { exists x: nat, q: nat :: Waiting(v, x, q) }

  /** A running real-time task gives way to a larger priority, and a spent round-robin task to a peer. */
  ghost predicate MustYield(v: View, t: nat)
    requires t in v.tasks
  {
    || Outranked(v, v.tasks[t].params.priority)
    || (v.tasks[t].params.class_.RoundRobin? && v.tasks[t].slice <= 1 && HasPeer(v, v.tasks[t].params.priority))
  }

  lemma RealTimeFirst(id: nat, v: View)
    requires Kept(id, v)
    ensures RealTimeReady(v) <==> v.ready != [] && KeysOf(v.tasks)(v.ready[0]).class_ == 0
  {
    if v.ready != [] {
      PickedFirst(id, v);
      var t := v.ready[0];
      TaskAt(id, v, t);
      ForemostIsHighest(id, v, t);
      assert RealTime(v.tasks[t].params) ==> Waiting(v, t, v.tasks[t].params.priority);
    }
  }

  /** A fair task that ran for one more tick. */
  function FairTick(t: Task): Task { t.(delta := if t.delta >= ISIZE_MAX then t.delta else t.delta + 1) }

  /** A tick of the running fair task `t`: its vruntime, the floor, and whether it left the granularity window. */
  ghost predicate FairTicks(v: View, w: View, t: nat, floor: Option<int>, floor': Option<int>, reschedule: bool) {
    && t in v.tasks && w.tasks == v.tasks[t := FairTick(v.tasks[t])] && ValidParams(w.tasks[t].params)
    && var first, now := FirstFair(w.ready, KeysOf(w.tasks)), Vruntime(w.tasks[t]);
       && floor' == Refreshed(floor, Some(now), first)
       && (reschedule <==> first.Some? && now > Saturated(first.value + GRANULARITY))
  }

  lemma RelinkedAnyway(t: Task, id: nat, sequence: int)
    requires ValidParams(t.params)
    ensures Relinked(t.(owner := Configuring), id, sequence) == Relinked(t, id, sequence)
  {
  }

  lemma RetunedAnyway(t: Task, params: Params, quantum: int)
    requires ValidParams(t.params)
    ensures Retuned(t.(owner := Configuring), params, quantum) == Retuned(t, params, quantum).(owner := Configuring)
  {
  }

  lemma ValidatedTwice(p: Params)
    ensures Validated(p).Some? ==> ValidParams(Validated(p).value)
  {
  }

  function ReconfigureError(t: Task, id: nat, c: Counters, wanted: Params): Option<SchedulerError> {
    if Validated(wanted).None? then Some(InvalidParameters)
    else match t.owner
      case Unowned => None
      case Configuring => Some(TaskBusy)
      case Queued(x) =>
        if x != id then Some(ForeignQueue)
        else if NextTicket(c, RealTime(Validated(wanted).value), false).None? then Some(SequenceExhausted) else None
  }

  lemma PublishedOk(t: Task, id: nat, sequence: int, floor: Option<int>, quantum: int, c: Counters)
    requires ValidParams(t.params) && Issued(c, RealTime(t.params), sequence)
    ensures var p := Published(t, id, sequence, floor, quantum);
            p.owner == Queued(id) && p.params == t.params && p.key.sequence == sequence && KeyOk(p, c)
  {
  }

  lemma PlacedOk(t: Task, id: nat, action: Action, sequence: int, floor: Option<int>, first: Option<int>, quantum: int,
                 c: Counters)
    requires ValidParams(t.params)
    ensures var p := Placed(t, id, action, sequence, floor, first, quantum);
            p.owner == Queued(id) && p.params == t.params && p.key.sequence == sequence
              && (Issued(c, RealTime(t.params), sequence) ==> KeyOk(p, c))
  {
  }

  /** The first fair task does not depend on a task that is not linked. */
  lemma SameFirst(id: nat, v: View, tasks: map<nat, Task>, t: nat)
    requires Kept(id, v) && t in v.tasks && v.tasks[t].owner != Queued(id) && t in tasks
             && tasks == v.tasks[t := tasks[t]]
    ensures FirstFair(v.ready, KeysOf(tasks)) == FirstFair(v.ready, KeysOf(v.tasks))
  {
    TaskAt(id, v, t);
    FirstFairSame(v.ready, KeysOf(v.tasks), KeysOf(tasks));
  }

  lemma {:induction false} FirstFairSame(list: seq<nat>, key: Keys, after: Keys)
    requires forall x :: x in list ==> after(x) == key(x)
    ensures FirstFair(list, after) == FirstFair(list, key)
    decreases list
  {
    if list != [] {
      assert list[0] in list;
      FirstFairSame(list[1..], key, after);
    }
  }
}
