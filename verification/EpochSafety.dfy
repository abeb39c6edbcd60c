/**
 What every interleaving of the epoch domain keeps: an object loaded under an
 open guard has an owner until that guard leaves, retired entries are in strict
 epoch order, capacity is never exceeded, and the front hint tells the truth
 whenever the queue lock is free.
 */
module EpochSafety {
  import opened Words
  import opened EpochCpu
  import opened EpochDomain

  // ----- the invariant -----

  ghost predicate CpusOk(s: Domain) { forall c :: 0 <= c < |s.cpus| ==> CpuOk(s.cpus[c], s.epoch) }

  /** The writer section brackets its swap with an odd epoch. */
  predicate WriterOk(w: Writer, epoch: nat, slots: seq<Option<Object>>) {
    match w
    case Idle => epoch % 2 == 0
    case Opened(slot, _, retire, before) => epoch == before && before % 2 == 0 && slot < |slots|
      && slots[slot].Some? == retire
    case Closing(slot, _, retire, before) => epoch == before + 1 && before % 2 == 0 && slot < |slots|
      && slots[slot].Some? == retire
    case Swapped(prior, retire, before) => epoch == before + 1 && before % 2 == 0 && prior.Some? == retire
    case Reopened(prior, retire, before) => epoch == before + 2 && before % 2 == 0 && prior.Some? == retire
    case Committed(_, before) => epoch == before + 2 && before % 2 == 0
    case Hinted => epoch % 2 == 0
  }

  predicate Writing(w: Writer) { w.Opened? || w.Closing? || w.Swapped? || w.Reopened? }

  /** No entry is younger than the epoch before the current writer section. */
  function Base(w: Writer, epoch: nat): nat { if Writing(w) then w.epoch else epoch }

  predicate QueueOk(queue: seq<Retired>, base: nat) {
    && (forall k :: 0 <= k < |queue| ==> 0 < queue[k].epoch <= base)
    && (forall i, j :: 0 <= i < j < |queue| ==> queue[i].epoch < queue[j].epoch)
  }

  predicate InSlot(slots: seq<Option<Object>>, o: Object) { exists j :: 0 <= j < |slots| && slots[j] == Some(o) }

  predicate WithWriter(w: Writer, e: int, o: Object) {
    (w.Swapped? || w.Reopened?) && w.prior == Some(o) && w.epoch >= e
  }

  predicate InQueue(queue: seq<Retired>, e: int, o: Object) {
    exists k :: 0 <= k < |queue| && queue[k].item == o && queue[k].epoch > e
  }

  /**
   The object has an owner that outlives guards of epoch `e`: its slot, the writer between swap and
   commit, or a younger entry.
   */
  predicate Protected(s: Domain, e: int, o: Object) {
    InSlot(s.slots, o) || WithWriter(s.writer, e, o) || InQueue(s.queue, e, o)
  }

  predicate CpuHeld(s: Domain, c: Cpu) { forall o :: o in c.held ==> Protected(s, c.marker - 1, o) }

  ghost predicate HeldOk(s: Domain) { forall c :: 0 <= c < |s.cpus| ==> CpuHeld(s, s.cpus[c]) }

  predicate LockOk(s: Domain) {
    && (s.lock.ByWriter? <==> s.writer.Committed? || s.writer.Hinted?)
    && (forall d :: 0 <= d < |s.drains| ==> (HoldsLock(s.drains[d]) <==> s.lock == ByDrain(d)))
    && (s.lock.ByDrain? ==> s.lock.id < |s.drains|)
  }

  /** The CPU no longer stands in the way of an entry of epoch `r`, and never will. */
  predicate Passed(c: Cpu, r: nat) { (c.marker == 0 || c.marker > r) && (c.top.Sampled? ==> c.top.epoch >= r) }

  predicate ScanOk(scan: Scan, cpus: seq<Cpu>) {
    && scan.at <= |cpus|
    && (forall c :: 0 <= c < scan.at ==> Passed(cpus[c], scan.target))
    && (scan.seen.Some? && scan.at < |cpus| && scan.seen.value.depth == 0 ==> Passed(cpus[scan.at], scan.target))
  }

  ghost predicate PoppingOk(s: Domain) {
    forall d :: 0 <= d < |s.drains| && s.drains[d].Popping? ==>
      s.queue != [] && s.drains[d].scan.target == s.queue[0].epoch && ScanOk(s.drains[d].scan, s.cpus)
  }

  predicate ReserveOk(s: Domain) {
    && s.reserved == s.tickets + (if Writing(s.writer) && s.writer.retire then 1 else 0)
    && |s.queue| + s.reserved <= s.capacity
  }

  predicate HintExact(s: Domain) { s.hint == Front(s.queue) && (s.queue != [] ==> s.pending) }

  predicate HintOk(s: Domain) {
    match s.lock
    case Free => HintExact(s)
    case ByWriter =>
      && s.queue != []
      && (s.writer.Committed? ==>
            if s.writer.first then |s.queue| == 1 && s.queue[0].epoch == s.writer.epoch + 2 else HintExact(s))
      && (s.writer.Hinted? ==> s.hint == Front(s.queue))
    case ByDrain(d) =>
      d < |s.drains| ==>
        match s.drains[d]
        case Popping(_) => s.queue != [] && HintExact(s)
        case Finishing(_) => s.queue != [] && HintExact(s)
        case Unlinked => s.queue != [] ==> s.pending
        case _ => s.queue == [] && s.hint == 0
  }

  predicate LogOk(s: Domain) { s.dropped <= |s.log| && s.queue == s.log[s.dropped..] }

  ghost predicate Inv(s: Domain) {
    && CpusOk(s) && WriterOk(s.writer, s.epoch, s.slots) && QueueOk(s.queue, Base(s.writer, s.epoch))
    && HeldOk(s) && LockOk(s) && PoppingOk(s) && ReserveOk(s) && HintOk(s) && LogOk(s)
  }

  // ----- steps on one CPU -----

  lemma PassedStable(c: Cpu, v: View, a: Action, r: nat)
    requires CpuOk(c, v.epoch) && Enabled(c, v, a) && Passed(c, r) && r <= v.epoch
    ensures Passed(After(c, v, a), r)
  {
  }

  /** A change of one CPU that disturbs nothing else. */
  ghost predicate GoodChange(s: Domain, c: nat, cpu: Cpu)
    requires c < |s.cpus|
  {
    && CpuOk(cpu, s.epoch) && CpuHeld(s, cpu)
    && forall r: nat {:trigger Passed(cpu, r)} :: r <= s.epoch && Passed(s.cpus[c], r) ==> Passed(cpu, r)
  }

  lemma ScanKept(scan: Scan, cpus: seq<Cpu>, c: nat, cpu: Cpu)
    requires c < |cpus| && ScanOk(scan, cpus) && (Passed(cpus[c], scan.target) ==> Passed(cpu, scan.target))
    ensures ScanOk(scan, cpus[c := cpu])
  {
  }

  lemma GoodChangeInv(s: Domain, c: nat, cpu: Cpu)
    requires Inv(s) && c < |s.cpus| && GoodChange(s, c, cpu)
    ensures Inv(SetCpu(s, c, cpu))
  {
    var t := SetCpu(s, c, cpu);
    forall d | 0 <= d < |s.drains| && s.drains[d].Popping?
      ensures ScanOk(t.drains[d].scan, t.cpus)
    {
      assert s.queue[0].epoch <= s.epoch;
      ScanKept(s.drains[d].scan, s.cpus, c, cpu);
    }
    forall i | 0 <= i < |t.cpus| ensures CpuHeld(t, t.cpus[i]) {
      assert CpuHeld(s, if i == c then cpu else s.cpus[i]);
    }
  }

  lemma ReaderHeld(s: Domain, c: nat, a: Action)
    requires Inv(s) && c < |s.cpus| && Enabled(s.cpus[c], ViewOf(s), a)
    ensures CpuHeld(s, After(s.cpus[c], ViewOf(s), a))
  {
    var cpu := s.cpus[c];
    var next := After(cpu, ViewOf(s), a);
    assert CpuOk(cpu, s.epoch) && CpuHeld(s, cpu);
    forall o | o in next.held ensures Protected(s, next.marker - 1, o) {
      if a.Load? && o !in cpu.held {
        assert s.slots[a.slot] == Some(o);
      } else {
        assert o in cpu.held && next.marker == cpu.marker;
      }
    }
  }

  lemma ReaderInv(s: Domain, c: nat, a: Action)
    requires Inv(s) && c < |s.cpus| && Enabled(s.cpus[c], ViewOf(s), a)
    ensures Inv(Next(s, Reader(c, a)))
  {
    var cpu := s.cpus[c];
    StepOk(cpu, ViewOf(s), a);
    ReaderHeld(s, c, a);
    var next := After(cpu, ViewOf(s), a);
    forall r: nat {:trigger Passed(next, r)} | r <= s.epoch && Passed(cpu, r) ensures Passed(next, r) {
      PassedStable(cpu, ViewOf(s), a, r);
    }
    GoodChangeInv(s, c, next);
  }

  lemma NoteCpuGood(s: Domain, c: nat, cpu: Cpu)
    requires Inv(s) && c < |s.cpus| && NoteEnabled(s.cpus[c])
    requires cpu == Popped(s.cpus[c]) || exists f: Frame ::
               (f.NoteHint? || f.NoteScan? || f.NoteEdge?) && cpu == s.cpus[c].(top := f)
    ensures GoodChange(s, c, cpu)
  {
    var before := s.cpus[c];
    assert CpuOk(before, s.epoch) && CpuHeld(s, before);
    if cpu == Popped(before) {
      PoppedOk(before, s.epoch);
    }
  }

  lemma EdgeInv(s: Domain)
    requires Inv(s)
    ensures Inv(Edge(s))
  {
    var t := Edge(s);
    forall c | 0 <= c < |t.cpus| ensures CpuHeld(t, t.cpus[c]) {
      assert CpuHeld(s, s.cpus[c]);
    }
  }

  lemma NoteInv(s: Domain, c: nat)
    requires Inv(s) && c < |s.cpus| && NoteEnabled(s.cpus[c])
    ensures Inv(NoteNext(s, c))
  {
    var cpu := s.cpus[c];
    var f := NoteFrame(s, cpu.top);
    if f.Some? {
      NoteCpuGood(s, c, cpu.(top := f.value));
      GoodChangeInv(s, c, cpu.(top := f.value));
    } else {
      var t := if cpu.top.NoteEdge? then Edge(s) else s;
      EdgeInv(s);
      NoteCpuGood(t, c, Popped(cpu));
      GoodChangeInv(t, c, Popped(cpu));
    }
  }

  lemma LifecycleInv(s: Domain, c: nat, online: bool)
    requires Inv(s) && c < |s.cpus| && LifecycleEnabled(s.cpus[c], online)
    ensures Inv(SetCpu(s, c, s.cpus[c].(word := Word(online, 0))))
  {
    assert CpuOk(s.cpus[c], s.epoch) && CpuHeld(s, s.cpus[c]);
    GoodChangeInv(s, c, s.cpus[c].(word := Word(online, 0)));
  }

  // ----- the writer section -----

  /** Open guards are at most as young as the last even epoch. */
  lemma GuardBefore(s: Domain, c: nat, epoch: nat)
    requires CpusOk(s) && c < |s.cpus| && s.cpus[c].held != {} && s.epoch == epoch + 1 && epoch % 2 == 0
    ensures s.cpus[c].marker - 1 <= epoch
  {
    assert CpuOk(s.cpus[c], s.epoch);
  }

  lemma SwapProtects(s: Domain, c: nat, o: Object)
    requires Inv(s) && s.writer.Closing? && s.writer.slot < |s.slots| && c < |s.cpus| && o in s.cpus[c].held
    ensures Protected(WriterNext(s, Swap), s.cpus[c].marker - 1, o)
  {
    var t := WriterNext(s, Swap);
    assert CpuHeld(s, s.cpus[c]);
    if InSlot(s.slots, o) {
      var j :| 0 <= j < |s.slots| && s.slots[j] == Some(o);
      if j == s.writer.slot {
        GuardBefore(s, c, s.writer.epoch);
        assert WithWriter(t.writer, s.cpus[c].marker - 1, o);
      } else {
        assert t.slots[j] == Some(o);
      }
    }
  }

  lemma CommitProtects(s: Domain, e: int, o: Object)
    requires Inv(s) && WriterEnabled(s, Commit) && Protected(s, e, o)
    ensures Protected(WriterNext(s, Commit), e, o)
  {
    var t := WriterNext(s, Commit);
    if InQueue(s.queue, e, o) {
      var k :| 0 <= k < |s.queue| && s.queue[k].item == o && s.queue[k].epoch > e;
      assert t.queue[k] == s.queue[k];
    } else if WithWriter(s.writer, e, o) {
      assert t.queue[|s.queue|] == Retired(o, s.writer.epoch + 2);
    }
  }

  lemma CommitLog(s: Domain, entry: Retired)
    requires LogOk(s)
    ensures s.queue + [entry] == (s.log + [entry])[s.dropped..]
  {
  }

  lemma CommitHeld(s: Domain)
    requires Inv(s) && WriterEnabled(s, Commit)
    ensures HeldOk(WriterNext(s, Commit))
  {
    var t := WriterNext(s, Commit);
    forall c | 0 <= c < |t.cpus| ensures CpuHeld(t, t.cpus[c]) {
      forall o | o in t.cpus[c].held ensures Protected(t, t.cpus[c].marker - 1, o) {
        assert CpuHeld(s, s.cpus[c]);
        CommitProtects(s, s.cpus[c].marker - 1, o);
      }
    }
  }

  lemma CommitInv(s: Domain)
    requires Inv(s) && WriterEnabled(s, Commit)
    ensures Inv(WriterNext(s, Commit))
  {
    CommitHeld(s);
    CommitLog(s, WriterNext(s, Commit).queue[|s.queue|]);
  }

  lemma SwapInv(s: Domain)
    requires Inv(s) && WriterEnabled(s, Swap)
    ensures Inv(WriterNext(s, Swap))
  {
    var t := WriterNext(s, Swap);
    forall c | 0 <= c < |t.cpus| ensures CpuHeld(t, t.cpus[c]) {
      forall o | o in t.cpus[c].held ensures Protected(t, t.cpus[c].marker - 1, o) {
        SwapProtects(s, c, o);
      }
    }
  }

  /** A step that only moves the epoch, the writer's position and bookkeeping. */
  lemma EpochStepInv(s: Domain, step: Step)
    requires Inv(s) && (step.Open? || step.Close? || step.Reopen?) && WriterEnabled(s, step)
    ensures Inv(WriterNext(s, step))
  {
    var t := WriterNext(s, step);
    forall c | 0 <= c < |t.cpus| ensures CpuOk(t.cpus[c], t.epoch) && CpuHeld(t, t.cpus[c]) {
      assert CpuOk(s.cpus[c], s.epoch) && CpuHeld(s, s.cpus[c]);
      LaterOk(s.cpus[c], s.epoch, t.epoch);
    }
  }

  lemma ReleaseInv(s: Domain, step: Step)
    requires Inv(s) && (step.SetHint? || step.Release?) && WriterEnabled(s, step)
    ensures Inv(WriterNext(s, step))
  {
    var t := WriterNext(s, step);
    forall c | 0 <= c < |t.cpus| ensures CpuHeld(t, t.cpus[c]) {
      assert CpuHeld(s, s.cpus[c]);
    }
  }

  lemma ReserveInv(s: Domain, step: Step)
    requires Inv(s) && (step.Reserve? || step.Cancel?) && StepEnabled(s, step)
    ensures Inv(Next(s, step))
  {
    var t := Next(s, step);
    forall c | 0 <= c < |t.cpus| ensures CpuHeld(t, t.cpus[c]) {
      assert CpuHeld(s, s.cpus[c]);
    }
  }

  // ----- drains -----

  /** What a passing scan step has established about the CPU it looked at. */
  lemma ScanAdvances(s: Domain, scan: Scan, next: Scan)
    requires CpusOk(s) && ScanOk(scan, s.cpus) && ScanStep(scan, s.cpus) == More(next)
    ensures ScanOk(next, s.cpus) && next.target == scan.target
  {
    assert CpuOk(s.cpus[scan.at], s.epoch);
  }

  /** Whatever held entries of a popped epoch is gone, so nothing relies on the popped entry. */
  lemma PopProtects(s: Domain, scan: Scan, c: nat, o: Object)
    requires Inv(s) && s.queue != [] && scan.target == s.queue[0].epoch && ScanOk(scan, s.cpus) && scan.at >= |s.cpus|
    requires c < |s.cpus| && o in s.cpus[c].held
    ensures InQueue(s.queue, s.cpus[c].marker - 1, o) ==> InQueue(s.queue[1..], s.cpus[c].marker - 1, o)
  {
    var e := s.cpus[c].marker - 1;
    assert CpuOk(s.cpus[c], s.epoch) && Passed(s.cpus[c], scan.target);
    if InQueue(s.queue, e, o) {
      var k :| 0 <= k < |s.queue| && s.queue[k].item == o && s.queue[k].epoch > e;
      assert k > 0;
      assert s.queue[1..][k - 1] == s.queue[k];
    }
  }

  lemma PopInv(s: Domain, id: nat)
    requires Inv(s) && id < |s.drains| && s.drains[id].Popping? && ScanStep(s.drains[id].scan, s.cpus).Complete?
    ensures Inv(DrainNext(s, id))
  {
    var t, scan := DrainNext(s, id), s.drains[id].scan;
    forall c | 0 <= c < |t.cpus| ensures CpuHeld(t, t.cpus[c]) {
      assert CpuHeld(s, s.cpus[c]);
      forall o | o in t.cpus[c].held ensures Protected(t, t.cpus[c].marker - 1, o) {
        PopProtects(s, scan, c, o);
      }
    }
    assert s.log[s.dropped..][1..] == s.log[s.dropped + 1..];
  }

  /** Drain steps that leave the entries, the slots and the CPUs alone. */
  predicate SameOwners(s: Domain, t: Domain) {
    && t.epoch == s.epoch && t.slots == s.slots && t.cpus == s.cpus && t.writer == s.writer && t.queue == s.queue
    && t.reserved == s.reserved && t.tickets == s.tickets && t.capacity == s.capacity && t.log == s.log
       && t.dropped == s.dropped
  }

  lemma SameOwnersInv(s: Domain, t: Domain)
    requires Inv(s) && SameOwners(s, t) && LockOk(t) && PoppingOk(t) && HintOk(t)
    ensures Inv(t)
  {
    forall c | 0 <= c < |t.cpus| ensures CpuHeld(t, t.cpus[c]) {
      assert CpuHeld(s, s.cpus[c]);
    }
  }

  /** One drain moves; it takes the free lock, keeps what it has, or gives its lock back. */
  predicate DrainMoves(s: Domain, t: Domain, id: nat) {
    && id < |s.drains| && |t.drains| == |s.drains| && t.drains == s.drains[id := t.drains[id]] && SameOwners(s, t)
    && (t.lock == s.lock || (s.lock.Free? && t.lock == ByDrain(id)) || (s.lock == ByDrain(id) && t.lock.Free?))
    && (HoldsLock(t.drains[id]) <==> t.lock == ByDrain(id))
    && (t.drains[id].Popping? ==>
          t.queue != [] && t.drains[id].scan.target == t.queue[0].epoch && ScanOk(t.drains[id].scan, t.cpus))
  }

  lemma DrainMovesInv(s: Domain, t: Domain, id: nat)
    requires Inv(s) && DrainMoves(s, t, id) && HintOk(t)
    ensures Inv(t)
  {
    forall d | 0 <= d < |t.drains| ensures HoldsLock(t.drains[d]) <==> t.lock == ByDrain(d) {
      if d != id {
        assert t.drains[d] == s.drains[d];
      }
    }
    forall d | 0 <= d < |t.drains| && t.drains[d].Popping?
      ensures t.queue != [] && t.drains[d].scan.target == t.queue[0].epoch && ScanOk(t.drains[d].scan, t.cpus)
    {
      if d != id {
        assert t.drains[d] == s.drains[d];
      }
    }
    SameOwnersInv(s, t);
  }

  lemma PoppingInv(s: Domain, id: nat)
    requires Inv(s) && id < |s.drains| && s.drains[id].Popping? && !ScanStep(s.drains[id].scan, s.cpus).Complete?
    ensures Inv(DrainNext(s, id))
  {
    var scan := s.drains[id].scan;
    var r := ScanStep(scan, s.cpus);
    if r.More? {
      ScanAdvances(s, scan, r.scan);
    }
    DrainMovesInv(s, DrainNext(s, id), id);
  }

  lemma LockedMoves(s: Domain, id: nat)
    requires id < |s.drains| && HoldsLock(s.drains[id]) && !s.drains[id].Popping? && s.lock == ByDrain(id) && HintOk(s)
    ensures DrainMoves(s, DrainNext(s, id), id) && HintOk(DrainNext(s, id))
  {
  }

  lemma LockedDrainInv(s: Domain, id: nat)
    requires Inv(s) && id < |s.drains| && HoldsLock(s.drains[id]) && !s.drains[id].Popping?
    ensures Inv(DrainNext(s, id))
  {
    LockedMoves(s, id);
    DrainMovesInv(s, DrainNext(s, id), id);
  }

  /** A drain without the lock that does not take it. */
  lemma BystanderInv(s: Domain, t: Domain, id: nat)
    requires Inv(s) && DrainMoves(s, t, id) && !HoldsLock(s.drains[id]) && t.lock == s.lock && t.hint == s.hint
             && t.pending == s.pending
    ensures Inv(t)
  {
    assert s.lock != ByDrain(id);
    assert HintOk(t) by {
      if s.lock.ByDrain? {
        assert t.drains[s.lock.id] == s.drains[s.lock.id];
      }
    }
    DrainMovesInv(s, t, id);
  }

  predicate TakesLock(s: Domain, d: Drain) { d.Ending? || (d.Looping? && s.queue != []) }

  lemma TakesLockMoves(s: Domain, id: nat)
    requires id < |s.drains| && s.lock.Free? && TakesLock(s, s.drains[id]) && HintOk(s)
    ensures DrainMoves(s, DrainNext(s, id), id) && HintOk(DrainNext(s, id))
  {
  }

  lemma BystanderMoves(s: Domain, id: nat)
    requires id < |s.drains| && DrainEnabled(s, s.drains[id]) && !HoldsLock(s.drains[id]) && s.lock != ByDrain(id)
    requires !TakesLock(s, s.drains[id])
    ensures var t := DrainNext(s, id);
            DrainMoves(s, t, id) && t.lock == s.lock && t.hint == s.hint && t.pending == s.pending
  {
  }

  lemma StartMoves(s: Domain, step: Step)
    requires (step.DrainStart? || step.DrainStop?) && StepEnabled(s, step) && s.lock != ByDrain(step.id)
    ensures var t := Next(s, step);
            DrainMoves(s, t, step.id) && t.lock == s.lock && t.hint == s.hint && t.pending == s.pending
  {
  }

  lemma UnlockedDrainInv(s: Domain, id: nat)
    requires Inv(s) && id < |s.drains| && DrainEnabled(s, s.drains[id]) && !HoldsLock(s.drains[id])
    ensures Inv(DrainNext(s, id))
  {
    if TakesLock(s, s.drains[id]) {
      TakesLockMoves(s, id);
      DrainMovesInv(s, DrainNext(s, id), id);
    } else {
      BystanderMoves(s, id);
      BystanderInv(s, DrainNext(s, id), id);
    }
  }

  lemma DrainInv(s: Domain, id: nat)
    requires Inv(s) && id < |s.drains| && DrainEnabled(s, s.drains[id])
    ensures Inv(DrainNext(s, id))
  {
    if !HoldsLock(s.drains[id]) {
      UnlockedDrainInv(s, id);
    } else if !s.drains[id].Popping? {
      LockedDrainInv(s, id);
    } else if ScanStep(s.drains[id].scan, s.cpus).Complete? {
      PopInv(s, id);
    } else {
      PoppingInv(s, id);
    }
  }

  lemma DrainStartInv(s: Domain, step: Step)
    requires Inv(s) && (step.DrainStart? || step.DrainStop?) && StepEnabled(s, step)
    ensures Inv(Next(s, step))
  {
    StartMoves(s, step);
    BystanderInv(s, Next(s, step), step.id);
  }

  // ----- every run -----

  lemma WriterInv(s: Domain, step: Step)
    requires Inv(s) && (step.Open? || step.Close? || step.Swap? || step.Reopen? || step.Commit? || step.SetHint?
                        || step.Release?)
    requires WriterEnabled(s, step)
    ensures Inv(WriterNext(s, step))
  {
    match step
    case Swap => SwapInv(s);
    case Commit => CommitInv(s);
    case SetHint => ReleaseInv(s, step);
    case Release => ReleaseInv(s, step);
    case _ => EpochStepInv(s, step);
  }

  /** Every step of every thread keeps the invariant. */
  lemma NextInv(s: Domain, step: Step)
    requires Inv(s) && StepEnabled(s, step)
    ensures Inv(Next(s, step))
  {
    match step
    case Reader(c, a) => ReaderInv(s, c, a);
    case Note(c) => NoteInv(s, c);
    case Register(c) => LifecycleInv(s, c, true);
    case Unregister(c) => LifecycleInv(s, c, false);
    case Reserve => ReserveInv(s, step);
    case Cancel => ReserveInv(s, step);
    case DrainStart(_, _) => DrainStartInv(s, step);
    case DrainStop(_) => DrainStartInv(s, step);
    case DrainStep(id) => DrainInv(s, id);
    case _ => WriterInv(s, step);
  }

  /** A domain before any CPU is registered: nothing retired, no reader, no writer. */
  predicate Initial(s: Domain) {
    && s.epoch == 0 && s.writer.Idle? && s.lock.Free? && s.queue == [] && s.log == [] && s.dropped == 0
    && s.reserved == 0 && s.tickets == 0 && !s.pending && s.hint == 0 && !s.queued && s.edges == 0
    && (forall c :: 0 <= c < |s.cpus| ==> s.cpus[c] == OFFLINE)
       && (forall d :: 0 <= d < |s.drains| ==> s.drains[d].Off?)
  }

  /** A run: consecutive states, each after an enabled step. */
  ghost predicate IsRun(run: seq<Domain>, steps: seq<Step>) {
    && |run| == |steps| + 1 && Initial(run[0])
    && forall i :: 0 <= i < |steps| ==> StepEnabled(run[i], steps[i]) && run[i + 1] == Next(run[i], steps[i])
  }

  lemma {:induction false} RunInv(run: seq<Domain>, steps: seq<Step>, i: nat)
    requires IsRun(run, steps) && i < |run|
    ensures Inv(run[i])
    decreases i
  {
    if i > 0 {
      RunInv(run, steps, i - 1);
      NextInv(run[i - 1], steps[i - 1]);
    }
  }

  /** The object has a strong owner: its slot, the writer between swap and commit, or the retire queue. */
  predicate Owned(s: Domain, o: Object) {
    || InSlot(s.slots, o)
    || ((s.writer.Swapped? || s.writer.Reopened?) && s.writer.prior == Some(o))
    || exists k :: 0 <= k < |s.queue| && s.queue[k].item == o
  }

  /**
   Reclamation safety: in every state of every run, an object that was loaded under
   a guard which is still open has an owner, although every grace scan looked at the
   CPUs one after the other while they moved on.
   */
  lemma LoadedObjectsAreOwned(run: seq<Domain>, steps: seq<Step>, i: nat, c: nat, o: Object)
    requires IsRun(run, steps) && i < |run| && c < |run[i].cpus| && o in run[i].cpus[c].held
    ensures Owned(run[i], o)
  {
    RunInv(run, steps, i);
    assert CpuHeld(run[i], run[i].cpus[c]);
  }

  // ----- consequences for the retire queue -----

  /** A CPU that blocks an entry blocks every younger one, so a blocked front means that every entry is blocked. */
  lemma BlockedFrontBlocksAll(run: seq<Domain>, steps: seq<Step>, i: nat, c: nat, k: nat)
    requires IsRun(run, steps) && i < |run| && c < |run[i].cpus| && k < |run[i].queue|
    requires !Passes(run[i].cpus[c].word, run[i].cpus[c].marker, Front(run[i].queue))
    ensures !Passes(run[i].cpus[c].word, run[i].cpus[c].marker, run[i].queue[k].epoch)
  {
    RunInv(run, steps, i);
    assert k > 0 ==> run[i].queue[0].epoch < run[i].queue[k].epoch;
  }

  /** Capacity, order, exact accounting of retired objects, and the hint, in every state of every run. */
  lemma QueueIsExact(run: seq<Domain>, steps: seq<Step>, i: nat)
    requires IsRun(run, steps) && i < |run|
    ensures |run[i].queue| + run[i].reserved <= run[i].capacity
    ensures forall j, k :: 0 <= j < k < |run[i].queue| ==> run[i].queue[j].epoch < run[i].queue[k].epoch
    ensures run[i].dropped <= |run[i].log| && run[i].queue == run[i].log[run[i].dropped..]
    ensures run[i].lock.Free? ==> run[i].hint == Front(run[i].queue) && (run[i].queue != [] ==> run[i].pending)
  {
    RunInv(run, steps, i);
  }

  lemma ReaderRetiresNothing(s: Domain, c: nat, cpu: Cpu)
    requires c < |s.cpus|
    ensures SetCpu(s, c, cpu).log == s.log && SetCpu(s, c, cpu).dropped == s.dropped
  {
  }

  lemma PoppingRetires(s: Domain, id: nat, scan: Scan)
    requires id < |s.drains| && s.drains[id] == Popping(scan) && s.queue != []
    ensures DrainNext(s, id).log == s.log
            && DrainNext(s, id).dropped == s.dropped + (if ScanStep(scan, s.cpus).Complete? then 1 else 0)
  {
    match ScanStep(scan, s.cpus)
    case More(_) =>
    case Blocked =>
    case Complete =>
  }

  lemma ScanningRetiresNothing(s: Domain, id: nat)
    requires id < |s.drains| && (s.drains[id].Finishing? || s.drains[id].RecheckScan?)
    ensures DrainNext(s, id).log == s.log && DrainNext(s, id).dropped == s.dropped
  {
    match ScanStep(s.drains[id].scan, s.cpus)
    case More(_) =>
    case Blocked =>
    case Complete =>
  }

  lemma PlainDrainRetiresNothing(s: Domain, id: nat)
    requires id < |s.drains| && DrainEnabled(s, s.drains[id])
    requires !s.drains[id].Popping? && !s.drains[id].Finishing? && !s.drains[id].RecheckScan?
    ensures DrainNext(s, id).log == s.log && DrainNext(s, id).dropped == s.dropped
  {
  }

  lemma DrainRetires(s: Domain, id: nat)
    requires id < |s.drains| && DrainEnabled(s, s.drains[id])
    ensures DrainNext(s, id).log == s.log
            && DrainNext(s, id).dropped == s.dropped + (if Pops(s, DrainStep(id)) then 1 else 0)
  {
    match s.drains[id]
    case Popping(scan) => PoppingRetires(s, id, scan);
    case Finishing(_) => ScanningRetiresNothing(s, id);
    case RecheckScan(_) => ScanningRetiresNothing(s, id);
    case _ => PlainDrainRetiresNothing(s, id);
  }

  lemma WriterRetires(s: Domain, step: Step)
    requires step.Open? || step.Close? || step.Swap? || step.Reopen? || step.Commit? || step.SetHint? || step.Release?
    requires WriterOk(s.writer, s.epoch, s.slots) && WriterEnabled(s, step)
    ensures WriterNext(s, step).log ==
            (if step.Commit? then s.log + [Retired(s.writer.prior.value, s.epoch)] else s.log)
    ensures WriterNext(s, step).dropped == s.dropped
  {
  }

  /**
   Only a commit retires an object, exactly the one its writer took out of the slot; only a completed
   scan drops one.
   */
  lemma RetiredOnce(s: Domain, step: Step)
    requires WriterOk(s.writer, s.epoch, s.slots) && StepEnabled(s, step)
    ensures Next(s, step).log == (if step.Commit? then s.log + [Retired(s.writer.prior.value, s.epoch)] else s.log)
    ensures Next(s, step).dropped == s.dropped + (if Pops(s, step) then 1 else 0)
  {
    match step
    case Reader(c, a) => ReaderRetiresNothing(s, c, After(s.cpus[c], ViewOf(s), a));
    case Note(_) =>
    case Register(_) =>
    case Unregister(_) =>
    case Reserve =>
    case Cancel =>
    case DrainStart(_, _) =>
    case DrainStop(_) =>
    case DrainStep(id) => DrainRetires(s, id);
    case _ => WriterRetires(s, step);
  }

  predicate Pops(s: Domain, step: Step) {
    && step.DrainStep? && step.id < |s.drains| && s.drains[step.id].Popping?
    && ScanStep(s.drains[step.id].scan, s.cpus).Complete?
  }

  /** The admission word never underflows, a nested admission finds its outer marker, and an idle CPU has none. */
  lemma AdmissionConsistent(run: seq<Domain>, steps: seq<Step>, i: nat, c: nat)
    requires IsRun(run, steps) && i < |run| && c < |run[i].cpus|
    ensures var cpu := run[i].cpus[c];
            && (Counted(cpu.top) ==> cpu.word.depth > 0 && cpu.word.online)
            && (cpu.top.NestedClaimed? ==> cpu.marker != 0 && cpu.marker - 1 == OuterEpoch(cpu.below))
            && (cpu.word.depth == 0 ==> cpu.marker == 0 && cpu.held == {})
  {
    RunInv(run, steps, i);
    assert CpuOk(run[i].cpus[c], run[i].epoch);
  }
}
