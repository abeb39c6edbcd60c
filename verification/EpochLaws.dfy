/**
 What the slots of an epoch domain hold, told from the steps of a run: each swap puts
 exactly what its writer section was opened with into exactly its slot. Hence an
 object that was taken out and never published again is in no slot, and no later
 load can obtain it. And what a load obtains is held until its outermost guard leaves.
 */
module EpochLaws {
  import opened Words
  import opened EpochCpu
  import opened EpochDomain
  import opened EpochSafety
  import opened WakeEdge
  import WakeRuns

  // ----- which steps touch the slots -----

  predicate SamePublished(s: Domain, t: Domain) { t.slots == s.slots && t.writer == s.writer && t.log == s.log }

  lemma ScanKeepsPublished(s: Domain, id: nat)
    requires id < |s.drains| && DrainEnabled(s, s.drains[id])
    requires s.drains[id].Popping? || s.drains[id].Finishing? || s.drains[id].RecheckScan?
    ensures SamePublished(s, DrainNext(s, id))
  {
    match ScanStep(s.drains[id].scan, s.cpus)
    case More(_) =>
    case Blocked =>
    case Complete =>
  }

  lemma DrainKeepsPublished(s: Domain, id: nat)
    requires id < |s.drains| && DrainEnabled(s, s.drains[id])
    ensures SamePublished(s, DrainNext(s, id))
  {
    if s.drains[id].Popping? || s.drains[id].Finishing? || s.drains[id].RecheckScan? {
      ScanKeepsPublished(s, id);
    }
  }

  lemma OthersKeepPublished(s: Domain, step: Step)
    requires StepEnabled(s, step) && !IsWriterStep(step)
    ensures SamePublished(s, Next(s, step))
  {
    if step.DrainStep? {
      DrainKeepsPublished(s, step.id);
    }
  }

  // ----- the slots, replayed from the steps -----

  /** What a writer section was opened with. */
  datatype Request = Request(slot: nat, replacement: Option<Object>)

  /** The most recent opening among the first `j` steps. */
  function Asked(steps: seq<Step>, j: nat): Option<Request>
    requires j <= |steps|
  {
    if j == 0 then None
    else if steps[j - 1].Open? then Some(Request(steps[j - 1].slot, steps[j - 1].replacement))
    else Asked(steps, j - 1)
  }

  /** The slots after the first `j` steps: each swap puts in what was asked for. */
  function Contents(first: seq<Option<Object>>, steps: seq<Step>, j: nat): seq<Option<Object>>
    requires j <= |steps|
  {
    if j == 0 then first
    else
      var before, ask := Contents(first, steps, j - 1), Asked(steps, j - 1);
      if steps[j - 1].Swap? && ask.Some? && ask.value.slot < |before|
      then before[ask.value.slot := ask.value.replacement]
      else before
  }

  /** The writer section works on what it was opened with. */
  predicate WorksOn(w: Writer, ask: Option<Request>) {
    w.Opened? || w.Closing? ==> ask == Some(Request(w.slot, w.replacement))
  }

  lemma WorksOnStep(s: Domain, step: Step, ask: Option<Request>)
    requires StepEnabled(s, step) && WorksOn(s.writer, ask)
    ensures WorksOn(Next(s, step).writer, if step.Open? then Some(Request(step.slot, step.replacement)) else ask)
    ensures Next(s, step).slots ==
            if step.Swap? && ask.Some? && ask.value.slot < |s.slots|
                then s.slots[ask.value.slot := ask.value.replacement]
            else s.slots
  {
    if !IsWriterStep(step) {
      OthersKeepPublished(s, step);
    }
  }

  /** In every state of every run the slots are what the steps asked for. */
  lemma {:induction false} SlotsAreAsked(run: seq<Domain>, steps: seq<Step>, j: nat)
    requires IsRun(run, steps) && j < |run|
    ensures run[j].slots == Contents(run[0].slots, steps, j) && WorksOn(run[j].writer, Asked(steps, j))
    decreases j
  {
    if j > 0 {
      SlotsAreAsked(run, steps, j - 1);
      WorksOnStep(run[j - 1], steps[j - 1], Asked(steps, j - 1));
    }
  }

  /** The step swaps this slot. */
  predicate Swaps(steps: seq<Step>, k: nat, slot: nat)
    requires k < |steps|
  {
    steps[k].Swap? && Asked(steps, k).Some? && Asked(steps, k).value.slot == slot
  }

  lemma {:induction false} ContentsKept(first: seq<Option<Object>>, steps: seq<Step>, b: nat, j: nat, slot: nat)
    requires b <= j <= |steps| && forall k :: b <= k < j ==> !Swaps(steps, k, slot)
    ensures |Contents(first, steps, j)| == |Contents(first, steps, b)|
    ensures slot < |Contents(first, steps, b)| ==> Contents(first, steps, j)[slot] == Contents(first, steps, b)[slot]
    decreases j
  {
    if b < j {
      ContentsKept(first, steps, b, j - 1, slot);
      assert !Swaps(steps, j - 1, slot);
    }
  }

  /** From its swap until the next swap of that slot, a slot holds what was asked for: nothing after a clear. */
  lemma SlotHoldsAsked(run: seq<Domain>, steps: seq<Step>, b: nat, j: nat, slot: nat)
    requires IsRun(run, steps) && b < j < |run| && Swaps(steps, b, slot) && slot < |run[b].slots|
    requires forall k :: b < k < j ==> !Swaps(steps, k, slot)
    ensures |run[j].slots| == |run[b].slots| && run[j].slots[slot] == Asked(steps, b).value.replacement
  {
    SlotsAreAsked(run, steps, b);
    SlotsAreAsked(run, steps, j);
    ContentsKept(run[0].slots, steps, b + 1, j, slot);
  }

  /** A slot that no step swaps keeps its object. */
  lemma SlotKept(run: seq<Domain>, steps: seq<Step>, b: nat, j: nat, slot: nat)
    requires IsRun(run, steps) && b <= j < |run| && slot < |run[b].slots|
    requires forall k :: b <= k < j ==> !Swaps(steps, k, slot)
    ensures |run[j].slots| == |run[b].slots| && run[j].slots[slot] == run[b].slots[slot]
  {
    SlotsAreAsked(run, steps, b);
    SlotsAreAsked(run, steps, j);
    ContentsKept(run[0].slots, steps, b, j, slot);
  }

  // ----- objects are published once -----

  predicate InLog(log: seq<Retired>, o: Object) { exists k :: 0 <= k < |log| && log[k].item == o }

  /** The object that a writer section brings in or takes out. */
  predicate InHand(w: Writer, o: Object) {
    || ((w.Opened? || w.Closing?) && w.replacement == Some(o))
    || ((w.Swapped? || w.Reopened?) && w.prior == Some(o))
  }

  /** Every published object is in one place: one slot, the writer's hand, or one entry of the log. */
  ghost predicate OnePlace(s: Domain) {
    && (forall i, j, o: Object :: 0 <= i < j < |s.slots| && s.slots[i] == Some(o) ==> s.slots[j] != Some(o))
    && (forall i, j :: 0 <= i < j < |s.log| ==> s.log[i].item != s.log[j].item)
    && (forall o: Object :: InSlot(s.slots, o) ==> !InLog(s.log, o))
    && (forall o: Object :: InHand(s.writer, o) ==> !InSlot(s.slots, o) && !InLog(s.log, o))
  }

  /** A replacement that was never published before. */
  ghost predicate Brings(s: Domain, step: Step) {
    step.Open? && step.replacement.Some? ==>
      !InSlot(s.slots, step.replacement.value) && !InLog(s.log, step.replacement.value)
  }

  lemma SwapOnePlace(s: Domain)
    requires OnePlace(s) && WriterEnabled(s, Swap)
    ensures OnePlace(WriterNext(s, Swap))
  {
    var t := WriterNext(s, Swap);
    forall o: Object | InSlot(t.slots, o)
      ensures InSlot(s.slots, o) || InHand(s.writer, o)
    {
      var i :| 0 <= i < |t.slots| && t.slots[i] == Some(o);
      assert i != s.writer.slot ==> s.slots[i] == Some(o);
    }
    forall o: Object | InHand(t.writer, o)
      ensures !InSlot(t.slots, o) && !InLog(t.log, o)
    {
      assert s.slots[s.writer.slot] == Some(o);
      assert InSlot(s.slots, o);
    }
    forall i, j, o: Object | 0 <= i < j < |t.slots| && t.slots[i] == Some(o)
      ensures t.slots[j] != Some(o)
    {
      assert s.slots[i] == Some(o) ==> InSlot(s.slots, o);
      assert s.slots[j] == Some(o) ==> InSlot(s.slots, o);
      assert i == s.writer.slot || j == s.writer.slot ==> t.slots[s.writer.slot] == Some(o) ==> InHand(s.writer, o);
    }
  }

  lemma CommitOnePlace(s: Domain)
    requires OnePlace(s) && WriterEnabled(s, Commit)
    ensures OnePlace(WriterNext(s, Commit))
  {
    var t, o := WriterNext(s, Commit), s.writer.prior.value;
    assert InHand(s.writer, o);
    forall x: Object | InLog(t.log, x)
      ensures x == o || InLog(s.log, x)
    {
      var k :| 0 <= k < |t.log| && t.log[k].item == x;
      assert k < |s.log| ==> s.log[k].item == x;
    }
    forall i, j | 0 <= i < j < |t.log|
      ensures t.log[i].item != t.log[j].item
    {
      assert InLog(s.log, s.log[i].item);
    }
  }

  lemma OnePlaceStep(s: Domain, step: Step)
    requires OnePlace(s) && StepEnabled(s, step) && Brings(s, step)
    ensures OnePlace(Next(s, step))
  {
    if !IsWriterStep(step) {
      OthersKeepPublished(s, step);
    } else if step.Swap? {
      SwapOnePlace(s);
    } else if step.Commit? {
      CommitOnePlace(s);
    } else {
      HandKept(s, step);
    }
  }

  lemma HandKept(s: Domain, step: Step)
    requires IsWriterStep(step) && !step.Swap? && !step.Commit? && WriterEnabled(s, step)
    ensures var t := WriterNext(s, step);
            && t.slots == s.slots && t.log == s.log
            && forall o: Object :: InHand(t.writer, o) ==>
                 InHand(s.writer, o) || (step.Open? && step.replacement == Some(o))
  {
  }

  /** The slots start with different objects, and no object is published twice. */
  ghost predicate FreshRun(run: seq<Domain>, steps: seq<Step>)
    requires |run| == |steps| + 1
  {
    && (forall i, j, o: Object :: 0 <= i < j < |run[0].slots| && run[0].slots[i] == Some(o) ==>
          run[0].slots[j] != Some(o))
    && forall k :: 0 <= k < |steps| ==> Brings(run[k], steps[k])
  }

  lemma {:induction false} OnePlaceOnRun(run: seq<Domain>, steps: seq<Step>, j: nat)
    requires IsRun(run, steps) && FreshRun(run, steps) && j < |run|
    ensures OnePlace(run[j])
    decreases j
  {
    if j > 0 {
      OnePlaceOnRun(run, steps, j - 1);
      OnePlaceStep(run[j - 1], steps[j - 1]);
    }
  }

  /** When no object is published twice, nothing in the retire queue is in any slot, and nothing is retired twice. */
  lemma QueuedIsNowhereElse(run: seq<Domain>, steps: seq<Step>, j: nat, k: nat)
    requires IsRun(run, steps) && FreshRun(run, steps) && j < |run| && k < |run[j].queue|
    ensures !InSlot(run[j].slots, run[j].queue[k].item)
    ensures forall i :: 0 <= i < |run[j].log| && run[j].log[i].item == run[j].queue[k].item ==> i == run[j].dropped + k
  {
    OnePlaceOnRun(run, steps, j);
    RunInv(run, steps, j);
    var s := run[j];
    assert s.queue[k] == s.log[s.dropped + k];
    assert InLog(s.log, s.queue[k].item);
  }

  // ----- taken out for good -----

  /** The object was taken out: the writer still has it, or it is in the log. */
  predicate Out(s: Domain, o: Object) {
    ((s.writer.Swapped? || s.writer.Reopened?) && s.writer.prior == Some(o)) || InLog(s.log, o)
  }

  lemma OutStays(s: Domain, step: Step, o: Object)
    requires WriterOk(s.writer, s.epoch, s.slots) && StepEnabled(s, step) && Out(s, o)
    ensures Out(Next(s, step), o)
  {
    var t := Next(s, step);
    if !IsWriterStep(step) {
      OthersKeepPublished(s, step);
    } else if InLog(s.log, o) {
      var k :| 0 <= k < |s.log| && s.log[k].item == o;
      assert t.log[k].item == o;
    } else if step.Commit? {
      assert t.log[|s.log|].item == o;
    }
  }

  lemma OutNext(run: seq<Domain>, steps: seq<Step>, j: nat, o: Object)
    requires IsRun(run, steps) && j < |steps| && Out(run[j], o)
    ensures Out(run[j + 1], o)
  {
    RunInv(run, steps, j);
    OutStays(run[j], steps[j], o);
  }

  lemma {:induction false} OutOnRun(run: seq<Domain>, steps: seq<Step>, b: nat, j: nat, o: Object)
    requires IsRun(run, steps) && b <= j < |run| && Out(run[b], o)
    ensures Out(run[j], o)
    decreases j
  {
    if b < j {
      OutOnRun(run, steps, b, j - 1, o);
      OutNext(run, steps, j - 1, o);
    }
  }

  /** The object that a swap takes out is in no slot ever after, when no object is published twice. */
  lemma TakenOutForGood(run: seq<Domain>, steps: seq<Step>, b: nat, j: nat, o: Object)
    requires IsRun(run, steps) && FreshRun(run, steps) && b < j < |run| && steps[b].Swap?
    requires run[b].writer.Closing? && run[b].writer.slot < |run[b].slots|
             && run[b].slots[run[b].writer.slot] == Some(o)
    ensures !InSlot(run[j].slots, o)
  {
    assert run[b + 1] == Next(run[b], steps[b]);
    OutOnRun(run, steps, b + 1, j, o);
    OnePlaceOnRun(run, steps, j);
    assert InLog(run[j].log, o) || InHand(run[j].writer, o);
  }

  // ----- loads -----

  /** A load under a guard obtains the object of its slot; nothing else obtains one. */
  lemma LoadObtains(c: Cpu, v: View, a: Action, o: Object)
    requires Enabled(c, v, a) && o !in c.held
    ensures o in After(c, v, a).held <==> a.Load? && v.slots[a.slot] == Some(o)
  {
  }

  /** The step is the outermost guard of the CPU starting to leave. */
  predicate LeavesOutermost(s: Domain, step: Step, c: nat) {
    step == Reader(c, Leave) && c < |s.cpus| && s.cpus[c].top.Guard? && !s.cpus[c].top.nested
  }

  lemma HeldByCpu(c: Cpu, v: View, a: Action, o: Object)
    requires Enabled(c, v, a) && o in c.held
    ensures o in After(c, v, a).held <==> !(a.Leave? && !c.top.nested)
  {
  }

  lemma CpusKept(s: Domain, step: Step, c: nat)
    requires StepEnabled(s, step) && c < |s.cpus| && !(step.Reader? && step.cpu == c)
    ensures c < |Next(s, step).cpus| && Next(s, step).cpus[c].held == s.cpus[c].held
  {
    if step.DrainStep? {
      WakeRuns.DrainKeepsCpus(s, step.id);
    }
  }

  /** What is held stays held exactly until the outermost guard leaves. */
  lemma HeldUntilLeave(s: Domain, step: Step, c: nat, o: Object)
    requires StepEnabled(s, step) && c < |s.cpus| && o in s.cpus[c].held
    ensures c < |Next(s, step).cpus| && (o in Next(s, step).cpus[c].held <==> !LeavesOutermost(s, step, c))
  {
    if step.Reader? && step.cpu == c {
      HeldByCpu(s.cpus[c], ViewOf(s), step.action, o);
    } else {
      CpusKept(s, step, c);
    }
  }

  lemma HeldNext(run: seq<Domain>, steps: seq<Step>, j: nat, c: nat, o: Object)
    requires IsRun(run, steps) && j < |steps| && c < |run[j].cpus| && o in run[j].cpus[c].held
    requires !LeavesOutermost(run[j], steps[j], c)
    ensures c < |run[j + 1].cpus| && o in run[j + 1].cpus[c].held
  {
    HeldUntilLeave(run[j], steps[j], c, o);
  }

  lemma {:induction false} HeldOnRun(run: seq<Domain>, steps: seq<Step>, b: nat, j: nat, c: nat, o: Object)
    requires IsRun(run, steps) && b <= j < |run| && c < |run[b].cpus| && o in run[b].cpus[c].held
    requires forall k :: b <= k < j ==> !LeavesOutermost(run[k], steps[k], c)
    ensures c < |run[j].cpus| && o in run[j].cpus[c].held
    decreases j
  {
    if b < j {
      HeldOnRun(run, steps, b, j - 1, c, o);
      HeldNext(run, steps, j - 1, c, o);
    }
  }

  /**
   A load finds the object of its slot, and until the outermost guard of that CPU leaves, the object is held there and
   has an owner.
   */
  lemma LoadedIsKept(run: seq<Domain>, steps: seq<Step>, b: nat, j: nat, c: nat, slot: nat, o: Object)
    requires IsRun(run, steps) && b < j < |run| && steps[b] == Reader(c, Load(slot))
    requires slot < |run[b].slots| && run[b].slots[slot] == Some(o)
    requires forall k :: b < k < j ==> !LeavesOutermost(run[k], steps[k], c)
    ensures c < |run[j].cpus| && o in run[j].cpus[c].held && Owned(run[j], o)
  {
    assert run[b + 1] == Next(run[b], steps[b]);
    if o in run[b].cpus[c].held {
      HeldByCpu(run[b].cpus[c], ViewOf(run[b]), Load(slot), o);
    } else {
      LoadObtains(run[b].cpus[c], ViewOf(run[b]), Load(slot), o);
    }
    HeldOnRun(run, steps, b + 1, j, c, o);
    LoadedObjectsAreOwned(run, steps, j, c, o);
  }

  /** No load after its swap obtains an object that was taken out, when no object is published twice. */
  lemma NoLateLoad(run: seq<Domain>, steps: seq<Step>, b: nat, j: nat, c: nat, o: Object)
    requires IsRun(run, steps) && FreshRun(run, steps) && b < j < |steps| && steps[b].Swap?
    requires run[b].writer.Closing? && run[b].writer.slot < |run[b].slots|
             && run[b].slots[run[b].writer.slot] == Some(o)
    requires c < |run[j].cpus| && o !in run[j].cpus[c].held
    ensures c < |run[j + 1].cpus| && o !in run[j + 1].cpus[c].held
  {
    assert run[j + 1] == Next(run[j], steps[j]);
    if steps[j].Reader? && steps[j].cpu == c {
      TakenOutForGood(run, steps, b, j, o);
      LoadObtains(run[j].cpus[c], ViewOf(run[j]), steps[j].action, o);
    } else {
      CpusKept(run[j], steps[j], c);
    }
  }

  // ----- admission -----

  /**
   An outermost guard is admitted only at the current epoch, which is even: no writer section stands between closing
   and reopening at that step.
   */
  lemma AdmittedNow(s: Domain, step: Step, c: nat)
    requires Inv(s) && StepEnabled(s, step) && step == Reader(c, Confirm)
    ensures var g := Next(s, step).cpus[c].top;
            && (g.Guard? <==> s.cpus[c].top.epoch == s.epoch)
            && (g.Guard? ==> g == Guard(false, s.epoch) && s.epoch % 2 == 0 && !s.writer.Closing? && !s.writer.Swapped?)
  {
    assert CpuOk(s.cpus[c], s.epoch);
  }

  // ----- an emptied queue -----

  /** A drain that found the queue empty and has cleared the pending word. */
  predicate Clearing(d: Drain) { d.Unhinting? || d.Unqueueing? }

  ghost predicate Quiet(s: Domain) {
    forall d :: 0 <= d < |s.drains| && Clearing(s.drains[d]) ==> !s.pending
  }

  lemma DrainPending(s: Domain, id: nat)
    requires id < |s.drains| && DrainEnabled(s, s.drains[id])
    ensures DrainNext(s, id).pending == (s.pending && !s.drains[id].Emptying?)
  {
  }

  lemma DrainClears(s: Domain, id: nat)
    requires id < |s.drains| && DrainEnabled(s, s.drains[id])
    requires !s.drains[id].Emptying? && !Clearing(s.drains[id])
    ensures var t := DrainNext(s, id); id < |t.drains| && !Clearing(t.drains[id])
  {
    if s.drains[id].Popping? || s.drains[id].Finishing? || s.drains[id].RecheckScan? {
      ScanClears(s, id);
    }
  }

  lemma ScanClears(s: Domain, id: nat)
    requires id < |s.drains| && DrainEnabled(s, s.drains[id])
    requires s.drains[id].Popping? || s.drains[id].Finishing? || s.drains[id].RecheckScan?
    ensures var t := DrainNext(s, id); id < |t.drains| && !Clearing(t.drains[id])
  {
  }

  lemma WriterQuiet(s: Domain, step: Step)
    requires IsWriterStep(step) && WriterEnabled(s, step)
    ensures var t := WriterNext(s, step);
            t.drains == s.drains && (t.pending ==> s.pending || s.writer.Hinted?)
  {
  }

  lemma QuietStep(s: Domain, step: Step)
    requires LockOk(s) && StepEnabled(s, step) && Quiet(s)
    ensures Quiet(Next(s, step))
  {
    if step.DrainStep? {
      DrainMovesAlone(s, step.id);
      DrainPending(s, step.id);
      if !s.drains[step.id].Emptying? && !Clearing(s.drains[step.id]) {
        DrainClears(s, step.id);
      }
    } else if IsWriterStep(step) {
      WriterQuiet(s, step);
      if s.writer.Hinted? {
        assert forall d :: 0 <= d < |s.drains| ==> !HoldsLock(s.drains[d]);
      }
    }
  }

  lemma {:induction false} QuietOnRun(run: seq<Domain>, steps: seq<Step>, j: nat)
    requires IsRun(run, steps) && j < |run|
    ensures Quiet(run[j])
    decreases j
  {
    if j > 0 {
      QuietOnRun(run, steps, j - 1);
      RunInv(run, steps, j - 1);
      QuietStep(run[j - 1], steps[j - 1]);
    }
  }

  /** A drain that empties the queue lets go of it with the pending word, the hint and the wake flag all clear. */
  lemma EmptiedIsQuiet(run: seq<Domain>, steps: seq<Step>, j: nat, id: nat)
    requires IsRun(run, steps) && j < |steps| && steps[j] == DrainStep(id)
    requires id < |run[j].drains| && run[j].drains[id].Unqueueing?
    ensures var t := run[j + 1];
            t.queue == [] && !t.pending && t.hint == 0 && !t.queued && t.lock.Free?
  {
    QuietOnRun(run, steps, j);
    RunInv(run, steps, j);
    assert run[j].lock == ByDrain(id);
    assert run[j + 1] == Next(run[j], steps[j]);
  }

  // ----- the wake flag -----

  /** The step acknowledges or re-arms the wake flag. */
  predicate ClearsFlag(s: Domain, step: Step) {
    || (step.DrainStart? && !step.none)
    || (step.DrainStep? && step.id < |s.drains| && (s.drains[step.id].Arming? || s.drains[step.id].Unqueueing?))
  }

  /** The step claims the wake edge. */
  predicate ClaimsEdge(s: Domain, step: Step) {
    || (step.Note? && step.cpu < |s.cpus| && s.cpus[step.cpu].top.NoteEdge?)
    || (step.DrainStep? && step.id < |s.drains| && s.drains[step.id].RecheckEdge?)
  }

  /** The flag is cleared and set exactly by those steps, and an edge is signalled exactly when it goes up. */
  lemma EdgesExactly(s: Domain, step: Step)
    requires StepEnabled(s, step)
    ensures var t := Next(s, step);
            && t.queued == (if ClearsFlag(s, step) then false else s.queued || ClaimsEdge(s, step))
            && t.edges == s.edges + if t.queued && !s.queued then 1 else 0
  {
    if step.DrainStep? {
      DrainEdges(s, step.id);
    } else if IsWriterStep(step) {
      WriterEdges(s, step);
    }
  }

  lemma WriterEdges(s: Domain, step: Step)
    requires IsWriterStep(step) && WriterEnabled(s, step)
    ensures WriterNext(s, step).queued == s.queued && WriterNext(s, step).edges == s.edges
  {
  }

  lemma DrainEdges(s: Domain, id: nat)
    requires id < |s.drains| && DrainEnabled(s, s.drains[id])
    ensures var t, d := DrainNext(s, id), s.drains[id];
            && t.queued == (if d.Arming? || d.Unqueueing? then false else s.queued || d.RecheckEdge?)
            && t.edges == s.edges + if t.queued && !s.queued then 1 else 0
  {
  }

  // ----- the wake after the re-arm -----

  lemma ArmingStays(s: Domain, step: Step, id: nat)
    requires StepEnabled(s, step) && id < |s.drains| && s.drains[id].Arming? && step != DrainStep(id)
    ensures id < |Next(s, step).drains| && Next(s, step).drains[id].Arming?
  {
    if step.DrainStep? {
      DrainMovesAlone(s, step.id);
    } else if IsWriterStep(step) {
      assert WriterNext(s, step).drains == s.drains;
    }
  }

  predicate Alone(s: Domain, t: Domain, id: nat) {
    |t.drains| == |s.drains| && forall d :: 0 <= d < |s.drains| && d != id ==> t.drains[d] == s.drains[d]
  }

  lemma SetAlone(s: Domain, t: Domain, id: nat, d: Drain)
    requires id < |s.drains| && t.drains == s.drains[id := d]
    ensures Alone(s, t, id)
  {
  }

  lemma ScanMovesAlone(s: Domain, id: nat)
    requires id < |s.drains| && DrainEnabled(s, s.drains[id])
    requires s.drains[id].Popping? || s.drains[id].Finishing? || s.drains[id].RecheckScan?
    ensures Alone(s, DrainNext(s, id), id)
  {
    var t := DrainNext(s, id);
    match ScanStep(s.drains[id].scan, s.cpus)
    case More(_) => SetAlone(s, t, id, t.drains[id]);
    case Blocked => SetAlone(s, t, id, t.drains[id]);
    case Complete => SetAlone(s, t, id, t.drains[id]);
  }

  lemma DrainMovesAlone(s: Domain, id: nat)
    requires id < |s.drains| && DrainEnabled(s, s.drains[id])
    ensures Alone(s, DrainNext(s, id), id)
  {
    if s.drains[id].Popping? || s.drains[id].Finishing? || s.drains[id].RecheckScan? {
      ScanMovesAlone(s, id);
    } else {
      var t := DrainNext(s, id);
      SetAlone(s, t, id, t.drains[id]);
    }
  }

  /** A drain that was about to re-arm and has returned did re-arm. */
  lemma {:induction false} RearmHappened(run: seq<Domain>, steps: seq<Step>, b: nat, i: nat, id: nat) returns (k: nat)
    requires IsRun(run, steps) && b <= i < |run| && id < |run[b].drains| && run[b].drains[id].Arming?
    requires id < |run[i].drains| && run[i].drains[id].Off?
    ensures b <= k < i && steps[k] == DrainStep(id) && id < |run[k].drains| && run[k].drains[id].Arming?
    decreases i - b
  {
    assert run[b + 1] == Next(run[b], steps[b]);
    if steps[b] == DrainStep(id) {
      k := b;
    } else {
      ArmingStays(run[b], steps[b], id);
      k := RearmHappened(run, steps, b + 1, i, id);
    }
  }

  lemma FoundBlockedArms(run: seq<Domain>, steps: seq<Step>, a: nat)
    requires IsRun(run, steps) && a < |steps| && WakeRuns.FindsBlocked(run[a], steps[a])
    ensures steps[a].id < |run[a + 1].drains| && run[a + 1].drains[steps[a].id].Arming?
  {
    assert run[a + 1] == Next(run[a], steps[a]);
  }

  /**
   No lost wake, measured from the re-arm: the drain that found its front blocked cleared the flag once more, and an
   edge was signalled after that.
   */
  lemma WakeAfterRearm(run: seq<Domain>, steps: seq<Step>, a: nat, i: nat) returns (k: nat)
    requires IsRun(run, steps) && a < i < |run| && WakeRuns.FindsBlocked(run[a], steps[a])
    requires WakeRuns.AtRest(run[i]) && WakeRuns.CarefulRun(run, steps)
    requires forall k :: a <= k < i ==> !steps[k].DrainStart?
    ensures a < k < i && steps[k] == steps[a] && steps[a].id < |run[k].drains| && run[k].drains[steps[a].id].Arming?
    ensures !run[k + 1].queued && run[i].queued && run[i].edges > run[k + 1].edges
  {
    WakeRuns.WakeIsNotLost(run, steps, a, i);
    FoundBlockedArms(run, steps, a);
    DrainsStay(run, steps, a + 1, i);
    k := RearmHappened(run, steps, a + 1, i, steps[a].id);
    assert run[k + 1] == Next(run[k], steps[k]);
    EdgesExactly(run[k], steps[k]);
  }

  lemma {:induction false} DrainsStay(run: seq<Domain>, steps: seq<Step>, b: nat, i: nat)
    requires IsRun(run, steps) && b <= i < |run|
    ensures |run[i].drains| == |run[b].drains|
    decreases i
  {
    if b < i {
      DrainsStay(run, steps, b, i - 1);
      DrainCount(run[i - 1], steps[i - 1]);
    }
  }

  lemma DrainCount(s: Domain, step: Step)
    requires StepEnabled(s, step)
    ensures |Next(s, step).drains| == |s.drains|
  {
    if step.DrainStep? {
      DrainMovesAlone(s, step.id);
    }
  }
}
