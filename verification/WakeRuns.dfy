/**
 No lost wake, over whole runs: exactly when the flag is missing although the front
 entry can be reclaimed and no CPU is in admission or exit code, exactly when it is
 missing with no reader left at all, and a rule for CPU registration under which it
 never is.
 */
module WakeRuns {
  import opened EpochCpu
  import opened EpochDomain
  import opened EpochSafety
  import opened WakeEdge
  import opened WakeDebts

  /** A drain that finds its front blocked, with no other drain working on the queue, arms the flag for that front. */
  lemma BlockedEnters(s: Domain, id: nat)
    requires Inv(s) && TargetsOk(s) && id < |s.drains| && s.drains[id].Finishing?
             && ScanStep(s.drains[id].scan, s.cpus).Blocked?
    requires forall d :: 0 <= d < |s.drains| && d != id ==> AfterBlocked(s.drains[d])
    ensures Armed(DrainNext(s, id), Front(s.queue)) && Promised(DrainNext(s, id), Front(s.queue))
  {
    assert s.lock == ByDrain(id);
    DrainInv(s, id);
    QueueFrontFirst(s);
    DrainTargets(s, id);
    assert Owes(DrainNext(s, id), Front(s.queue), AtDrain(id));
  }

  /** Asks for a step of a run to be looked up. */
  predicate Taken(i: nat) { true }

  /** Consecutive states without a new drain. */
  ghost predicate Segment(states: seq<Domain>, steps: seq<Step>) {
    && |states| == |steps| + 1
    && forall i: nat {:trigger Taken(i)} :: Taken(i) && i < |steps| ==>
         StepEnabled(states[i], steps[i]) && !steps[i].DrainStart? && states[i + 1] == Next(states[i], steps[i])
  }

  lemma StepOf(states: seq<Domain>, steps: seq<Step>, i: nat)
    requires Segment(states, steps) && i < |steps|
    ensures StepEnabled(states[i], steps[i]) && !steps[i].DrainStart? && states[i + 1] == Next(states[i], steps[i])
  {
    assert Taken(i);
  }

  /** A step forsook the promise, and no outermost reader has entered or left since. */
  ghost predicate Forsaken(states: seq<Domain>, steps: seq<Step>, r: nat, i: nat)
    requires |states| == |steps| + 1 && i < |states|
  {
    exists j :: 0 <= j < i && Forsakes(states[j], steps[j], r) && StaysOut(states, steps, j + 1, i)
  }

  ghost predicate StaysOut(states: seq<Domain>, steps: seq<Step>, first: nat, last: nat)
    requires |states| == |steps| + 1 && last < |states|
  {
    forall k :: first <= k < last ==> !Reenters(states[k], steps[k])
  }

  lemma ForsakesPromise(s: Domain, step: Step, r: nat)
    requires Forsakes(s, step, r)
    ensures Promised(s, r) && !Reenters(s, step)
  {
    if Refuses(s, step) && Owes(s, r, TopOf(s, step.cpu)) {
    } else {
      assert Owes(s, r, AtCpu(step.cpu));
    }
  }

  /** One more step of the run. */
  lemma ForsakenNext(states: seq<Domain>, steps: seq<Step>, r: nat, i: nat)
    requires |states| == |steps| + 1 && i < |steps|
    ensures Forsaken(states, steps, r, i + 1) <==>
            Forsakes(states[i], steps[i], r) || (Forsaken(states, steps, r, i) && !Reenters(states[i], steps[i]))
  {
    if Forsaken(states, steps, r, i) && !Reenters(states[i], steps[i]) {
      var j :| 0 <= j < i && Forsakes(states[j], steps[j], r) && StaysOut(states, steps, j + 1, i);
      assert StaysOut(states, steps, j + 1, i + 1);
    }
    if Forsakes(states[i], steps[i], r) {
      assert StaysOut(states, steps, i + 1, i + 1);
    }
    if Forsaken(states, steps, r, i + 1) && !Forsakes(states[i], steps[i], r) {
      var j :| 0 <= j < i + 1 && Forsakes(states[j], steps[j], r) && StaysOut(states, steps, j + 1, i + 1);
      assert StaysOut(states, steps, j + 1, i);
    }
  }

  lemma StepOnRun(s: Domain, step: Step, r: nat, before: bool, after: bool)
    requires Armed(s, r) && StepEnabled(s, step) && !step.DrainStart? && (Promised(s, r) <==> !before)
    requires after <==> Forsakes(s, step, r) || (before && !Reenters(s, step))
    ensures Armed(Next(s, step), r) && (Promised(Next(s, step), r) <==> !after)
  {
    PromiseKept(s, step, r);
    if Forsakes(s, step, r) {
      ForsakesPromise(s, step, r);
    }
  }

  /** On every run the promise stands exactly as long as it was not forsaken. */
  lemma {:induction false} PromiseOnRun(states: seq<Domain>, steps: seq<Step>, r: nat, i: nat)
    requires Segment(states, steps) && i < |states| && Armed(states[0], r) && Promised(states[0], r)
    ensures Armed(states[i], r)
    ensures Promised(states[i], r) <==> !Forsaken(states, steps, r, i)
    decreases i
  {
    if i > 0 {
      PromiseOnRun(states, steps, r, i - 1);
      ForsakenNext(states, steps, r, i - 1);
      StepOf(states, steps, i - 1);
      StepOnRun(states[i - 1], steps[i - 1], r, Forsaken(states, steps, r, i - 1), Forsaken(states, steps, r, i));
    }
  }

  // ----- a reclaimable front -----

  predicate Quiet(f: Frame) { f.Away? || f.Guard? }

  predicate QuietCpu(c: Cpu) { Quiet(c.top) && forall k :: 0 <= k < |c.below| ==> Quiet(c.below[k]) }

  /** No CPU runs admission or exit code, and no drain runs. */
  predicate Settled(s: Domain) {
    && (forall d :: 0 <= d < |s.drains| ==> s.drains[d].Off?)
    && (forall c :: 0 <= c < |s.cpus| ==> QuietCpu(s.cpus[c]))
  }

  /** No CPU stands in the way of an entry of epoch `r`. */
  predicate GraceOver(s: Domain, r: nat) {
    forall c :: 0 <= c < |s.cpus| ==> Passes(s.cpus[c].word, s.cpus[c].marker, r)
  }

  lemma SettledOwesNothing(s: Domain, r: nat)
    requires CpusOk(s) && Settled(s) && GraceOver(s, r)
    ensures Promised(s, r) <==> s.queued
  {
    forall w: Debtor
      ensures !Owes(s, r, w)
    {
      if w.AtCpu? && w.c < |s.cpus| {
        assert CpuOk(s.cpus[w.c], s.epoch) && QuietCpu(s.cpus[w.c]);
      } else if w.AtFrame? && w.c < |s.cpus| && w.level <= |s.cpus[w.c].below| {
        assert QuietCpu(s.cpus[w.c]);
        assert Quiet(FrameOf(s.cpus[w.c], w.level));
      }
    }
  }

  /**
   The wake, exactly: after a drain returned blocked and until the next drain, in every state in which no
   CPU is in admission or exit code and the front is past its grace period, the flag is missing if and
   only if a step forsook the promise and no outermost reader has entered or left since.
   */
  lemma WakeMissingExactly(states: seq<Domain>, steps: seq<Step>, r: nat, i: nat)
    requires Segment(states, steps) && i < |states| && Armed(states[0], r) && Promised(states[0], r)
    requires Settled(states[i]) && GraceOver(states[i], r)
    ensures !states[i].queued <==> Forsaken(states, steps, r, i)
  {
    PromiseOnRun(states, steps, r, i);
    SettledOwesNothing(states[i], r);
  }

  // ----- no reader left -----

  /** No CPU runs read-side code, and no drain runs. */
  predicate AtRest(s: Domain) {
    && (forall d :: 0 <= d < |s.drains| ==> s.drains[d].Off?)
    && (forall c :: 0 <= c < |s.cpus| ==>
          s.cpus[c].top.Away? && forall k :: 0 <= k < |s.cpus[c].below| ==> s.cpus[c].below[k].Away?)
  }

  lemma {:induction false} NoDepth(frames: seq<Frame>)
    requires forall k :: 0 <= k < |frames| ==> frames[k].Away?
    ensures Depth(frames) == 0
    decreases |frames|
  {
    if frames != [] {
      NoDepth(frames[..|frames| - 1]);
    }
  }

  lemma RestIsSettled(s: Domain, r: nat)
    requires CpusOk(s) && AtRest(s)
    ensures Settled(s) && GraceOver(s, r) && forall c :: 0 <= c < |s.cpus| ==> s.cpus[c].word.depth == 0
  {
    forall c | 0 <= c < |s.cpus|
      ensures s.cpus[c].word.depth == 0 && s.cpus[c].marker == 0
    {
      assert CpuOk(s.cpus[c], s.epoch);
      NoDepth(s.cpus[c].below);
    }
  }

  lemma ReaderStaysInside(c: Cpu, v: View, a: Action, r: nat)
    requires CpuOk(c, v.epoch) && Enabled(c, v, a) && c.word.depth > 0 && !InTheWay(c, r)
             && !(a.Leave? && !c.top.nested)
    ensures After(c, v, a).word.depth > 0
  {
  }

  /** A reader that is inside stays inside while nobody owes and no outermost reader leaves. */
  lemma InsideStays(s: Domain, step: Step, r: nat, c: nat)
    requires CpusOk(s) && StepEnabled(s, step) && c < |s.cpus| && s.cpus[c].word.depth > 0
    requires !Promised(s, r) && !Reenters(s, step)
    ensures c < |Next(s, step).cpus| && Next(s, step).cpus[c].word.depth > 0
  {
    assert CpuOk(s.cpus[c], s.epoch) && !Owes(s, r, AtCpu(c));
    if step.Reader? && step.cpu == c {
      ReaderStaysInside(s.cpus[c], ViewOf(s), step.action, r);
    } else if IsWriterStep(step) {
      WriterKeepsCpus(s, step);
    } else if step.DrainStep? {
      DrainKeepsCpus(s, step.id);
    }
  }

  lemma WriterKeepsCpus(s: Domain, step: Step)
    requires IsWriterStep(step) && WriterEnabled(s, step)
    ensures WriterNext(s, step).cpus == s.cpus
  {
  }

  lemma DrainKeepsCpus(s: Domain, id: nat)
    requires id < |s.drains| && DrainEnabled(s, s.drains[id])
    ensures DrainNext(s, id).cpus == s.cpus
  {
  }

  lemma {:induction false} InsideOnRun(states: seq<Domain>, steps: seq<Step>, r: nat, j: nat, i: nat, c: nat)
    requires Segment(states, steps) && j < i < |states| && Armed(states[0], r) && Promised(states[0], r)
    requires Forsakes(states[j], steps[j], r) && StaysOut(states, steps, j + 1, i)
    requires c < |states[j + 1].cpus| && states[j + 1].cpus[c].word.depth > 0
    ensures c < |states[i].cpus| && states[i].cpus[c].word.depth > 0
    decreases i
  {
    if i > j + 1 {
      assert StaysOut(states, steps, j + 1, i - 1);
      InsideOnRun(states, steps, r, j, i - 1, c);
      PromiseOnRun(states, steps, r, i - 1);
      assert Forsaken(states, steps, r, i - 1);
      assert !Reenters(states[i - 1], steps[i - 1]);
      StepOf(states, steps, i - 1);
      InsideStays(states[i - 1], steps[i - 1], r, c);
    }
  }

  /**
   A rolled-back admission was refused while nobody else owed a look, and no outermost reader has
   entered or left since.
   */
  ghost predicate Lost(states: seq<Domain>, steps: seq<Step>, r: nat, i: nat)
    requires |states| == |steps| + 1 && i < |states|
  {
    exists j :: 0 <= j < i && Refuses(states[j], steps[j]) && Forsakes(states[j], steps[j], r)
      && StaysOut(states, steps, j + 1, i)
  }

  lemma AdmittedIsInside(s: Domain, step: Step)
    requires CpusOk(s) && StepEnabled(s, step) && Admits(s, step)
    ensures Next(s, step).cpus[step.cpu].word.depth > 0
  {
    assert CpuOk(s.cpus[step.cpu], s.epoch);
  }

  /** With no reader left, only a refusal can have forsaken the promise. */
  lemma RefusalForsook(states: seq<Domain>, steps: seq<Step>, r: nat, i: nat)
    requires Segment(states, steps) && i < |states| && Armed(states[0], r) && Promised(states[0], r)
    requires AtRest(states[i]) && Forsaken(states, steps, r, i)
    ensures Lost(states, steps, r, i)
  {
    var j :| 0 <= j < i && Forsakes(states[j], steps[j], r) && StaysOut(states, steps, j + 1, i);
    if !Refuses(states[j], steps[j]) {
      PromiseOnRun(states, steps, r, j);
      StepOf(states, steps, j);
      AdmittedIsInside(states[j], steps[j]);
      InsideOnRun(states, steps, r, j, i, steps[j].cpu);
      PromiseOnRun(states, steps, r, i);
      RestIsSettled(states[i], r);
    }
  }

  /**
   The lost wake, exactly: once no CPU runs read-side code, the flag is missing if and only if a
   rolled-back admission was refused while nobody else owed a look and no reader came or went since.
   */
  lemma WakeLostExactly(states: seq<Domain>, steps: seq<Step>, r: nat, i: nat)
    requires Segment(states, steps) && i < |states| && Armed(states[0], r) && Promised(states[0], r)
             && AtRest(states[i])
    ensures !states[i].queued <==> Lost(states, steps, r, i)
  {
    PromiseOnRun(states, steps, r, i);
    RestIsSettled(states[i], r);
    WakeMissingExactly(states, steps, r, i);
    if Forsaken(states, steps, r, i) {
      RefusalForsook(states, steps, r, i);
    }
    if Lost(states, steps, r, i) {
      var j :| 0 <= j < i && Refuses(states[j], steps[j]) && Forsakes(states[j], steps[j], r)
        && StaysOut(states, steps, j + 1, i);
      assert Forsaken(states, steps, r, i);
    }
  }

  // ----- a rule for registration -----

  /** A rolled-back admission waits on the CPU to be tried again. */
  predicate Retrying(c: Cpu) { exists k :: 0 <= k <= |c.below| && FrameOf(c, k) == Starting(true) }

  /** No CPU is unregistered while a rolled-back admission waits on it. */
  predicate Careful(s: Domain, step: Step) { step.Unregister? && step.cpu < |s.cpus| ==> !Retrying(s.cpus[step.cpu]) }

  ghost predicate RetriesOnline(s: Domain) {
    forall c :: 0 <= c < |s.cpus| && Retrying(s.cpus[c]) ==> s.cpus[c].word.online
  }

  lemma ReaderRetries(c: Cpu, v: View, a: Action)
    requires CpuOk(c, v.epoch) && Enabled(c, v, a) && (Retrying(c) ==> c.word.online)
    ensures Retrying(After(c, v, a)) ==> After(c, v, a).word.online
  {
    var d := After(c, v, a);
    if Retrying(d) && !a.GiveBack? {
      var k :| 0 <= k <= |d.below| && FrameOf(d, k) == Starting(true);
      assert FrameOf(c, k) == Starting(true);
    }
  }

  lemma NoteRetries(s: Domain, c: nat)
    requires c < |s.cpus| && NoteEnabled(s.cpus[c]) && (Retrying(s.cpus[c]) ==> s.cpus[c].word.online)
    ensures var d := NoteNext(s, c).cpus[c]; Retrying(d) ==> d.word.online
    ensures forall i :: 0 <= i < |s.cpus| && i != c ==> NoteNext(s, c).cpus[i] == s.cpus[i]
  {
    var d := NoteNext(s, c).cpus[c];
    if Retrying(d) {
      var k :| 0 <= k <= |d.below| && FrameOf(d, k) == Starting(true);
      assert FrameOf(s.cpus[c], k) == Starting(true);
    }
  }

  lemma RetriesStayOnline(s: Domain, step: Step)
    requires CpusOk(s) && RetriesOnline(s) && StepEnabled(s, step) && Careful(s, step)
    ensures RetriesOnline(Next(s, step))
  {
    if step.Reader? {
      assert CpuOk(s.cpus[step.cpu], s.epoch);
      ReaderRetries(s.cpus[step.cpu], ViewOf(s), step.action);
    } else if step.Note? {
      NoteRetries(s, step.cpu);
    } else if step.Unregister? {
      SameFrames(s.cpus[step.cpu], Next(s, step).cpus[step.cpu]);
    } else if IsWriterStep(step) {
      WriterKeepsCpus(s, step);
    } else if step.DrainStep? {
      DrainKeepsCpus(s, step.id);
    }
  }

  lemma SameFrames(c: Cpu, d: Cpu)
    requires d.below == c.below && d.top == c.top
    ensures Retrying(d) ==> Retrying(c)
  {
    if Retrying(d) {
      var k :| 0 <= k <= |d.below| && FrameOf(d, k) == Starting(true);
      assert FrameOf(c, k) == Starting(true);
    }
  }

  /** A refusal that leaves nobody owing is a refusal because the CPU is offline. */
  lemma OnlineIsNotRefused(s: Domain, step: Step, r: nat)
    requires CpusOk(s) && RetriesOnline(s) && StepEnabled(s, step) && Refuses(s, step)
    ensures !Forsakes(s, step, r)
  {
    var cpu := s.cpus[step.cpu];
    assert CpuOk(cpu, s.epoch);
    assert cpu.below[..|cpu.below|] == cpu.below;
    assert FrameOf(cpu, |cpu.below|) == Starting(true);
    assert Depth(cpu.below) > 0;
    assert !Owes(s, r, TopOf(s, step.cpu));
  }

  // ----- signals -----

  /** The flag is set only by signalling an edge. */
  predicate Signals(s: Domain, t: Domain) { t.edges >= s.edges && (t.queued ==> s.queued || t.edges > s.edges) }

  lemma WriterSignals(s: Domain, step: Step)
    requires IsWriterStep(step) && WriterEnabled(s, step)
    ensures Signals(s, WriterNext(s, step))
  {
  }

  lemma DrainSignals(s: Domain, id: nat)
    requires id < |s.drains| && AfterBlocked(s.drains[id]) && DrainEnabled(s, s.drains[id])
    ensures Signals(s, DrainNext(s, id))
  {
  }

  lemma EdgeStep(s: Domain, step: Step, r: nat)
    requires Stage(s, r) && StepEnabled(s, step) && !step.DrainStart?
    ensures Signals(s, Next(s, step))
  {
    if IsWriterStep(step) {
      WriterSignals(s, step);
    } else if step.DrainStep? {
      assert AfterBlocked(s.drains[step.id]);
      DrainSignals(s, step.id);
    }
  }

  /** Between a moment with the flag clear and one with the flag set, an edge was signalled. */
  lemma {:induction false} EdgeSignalled(states: seq<Domain>, steps: seq<Step>, r: nat, b: nat, i: nat)
    requires Segment(states, steps) && b <= i < |states| && !states[b].queued && Armed(states[0], r)
             && Promised(states[0], r)
    ensures states[i].edges >= states[b].edges && (states[i].queued ==> states[i].edges > states[b].edges)
    decreases i
  {
    if i > b {
      EdgeSignalled(states, steps, r, b, i - 1);
      PromiseOnRun(states, steps, r, i - 1);
      StepOf(states, steps, i - 1);
      EdgeStep(states[i - 1], steps[i - 1], r);
    }
  }

  // ----- the theorem -----

  /** A drain finds its front blocked with this step, and no other drain works on the queue. */
  ghost predicate FindsBlocked(s: Domain, step: Step) {
    && step.DrainStep? && step.id < |s.drains| && s.drains[step.id].Finishing?
    && ScanStep(s.drains[step.id].scan, s.cpus).Blocked?
    && forall d :: 0 <= d < |s.drains| && d != step.id ==> AfterBlocked(s.drains[d])
  }

  ghost predicate CarefulRun(run: seq<Domain>, steps: seq<Step>)
    requires |run| == |steps| + 1
  {
    forall k :: 0 <= k < |steps| ==> Careful(run[k], steps[k])
  }

  lemma {:induction false} RunRetriesOnline(run: seq<Domain>, steps: seq<Step>, i: nat)
    requires IsRun(run, steps) && i < |run| && CarefulRun(run, steps)
    ensures RetriesOnline(run[i])
    decreases i
  {
    if i > 0 {
      RunRetriesOnline(run, steps, i - 1);
      RunInv(run, steps, i - 1);
      RetriesStayOnline(run[i - 1], steps[i - 1]);
    }
  }

  lemma {:induction false} RunTargets(run: seq<Domain>, steps: seq<Step>, i: nat)
    requires IsRun(run, steps) && i < |run|
    ensures TargetsOk(run[i])
    decreases i
  {
    if i > 0 {
      RunTargets(run, steps, i - 1);
      RunInv(run, steps, i - 1);
      NextTargets(run[i - 1], steps[i - 1]);
    }
  }

  lemma SliceIsSegment(run: seq<Domain>, steps: seq<Step>, a: nat, i: nat)
    requires IsRun(run, steps) && a <= i < |run| && forall k :: a <= k < i ==> !steps[k].DrainStart?
    ensures Segment(run[a..i + 1], steps[a..i])
  {
  }

  /** From the step that finds the front blocked, the run is a segment that starts with the promise. */
  lemma BlockedStarts(run: seq<Domain>, steps: seq<Step>, a: nat)
    requires IsRun(run, steps) && a < |steps| && FindsBlocked(run[a], steps[a])
    ensures Armed(run[a + 1], Front(run[a].queue)) && Promised(run[a + 1], Front(run[a].queue))
  {
    RunInv(run, steps, a);
    RunTargets(run, steps, a);
    BlockedEnters(run[a], steps[a].id);
    assert run[a + 1] == Next(run[a], steps[a]);
  }

  lemma NotLost(run: seq<Domain>, steps: seq<Step>, a: nat, i: nat, states: seq<Domain>, moves: seq<Step>, r: nat)
    requires IsRun(run, steps) && a <= i < |run| && CarefulRun(run, steps) && states == run[a..i + 1]
             && moves == steps[a..i]
    ensures !Lost(states, moves, r, i - a)
  {
    forall j | 0 <= j < i - a && Refuses(states[j], moves[j])
      ensures !Forsakes(states[j], moves[j], r)
    {
      assert StepEnabled(run[a + j], steps[a + j]);
      RunInv(run, steps, a + j);
      RunRetriesOnline(run, steps, a + j);
      OnlineIsNotRefused(states[j], moves[j], r);
    }
  }

  lemma RestWakes(states: seq<Domain>, steps: seq<Step>, r: nat, i: nat)
    requires Segment(states, steps) && i < |states| && Armed(states[0], r) && Promised(states[0], r)
             && AtRest(states[i])
    requires !Lost(states, steps, r, i)
    ensures states[i].queued
    ensures forall b :: 0 <= b <= i && !states[b].queued ==> states[i].edges > states[b].edges
  {
    WakeLostExactly(states, steps, r, i);
    forall b | 0 <= b <= i && !states[b].queued
      ensures states[i].edges > states[b].edges
    {
      EdgeSignalled(states, steps, r, b, i);
    }
  }

  /**
   No lost wake: on every run on which no CPU is unregistered while a rolled-back admission waits on it, from
   the step with which a drain finds its front blocked until the next drain starts, whenever no CPU runs
   read-side code the flag is set, and an edge was signalled since it was last clear.
   */
  lemma WakeIsNotLost(run: seq<Domain>, steps: seq<Step>, a: nat, i: nat)
    requires IsRun(run, steps) && a < i < |run| && FindsBlocked(run[a], steps[a]) && AtRest(run[i])
             && CarefulRun(run, steps)
    requires forall k :: a <= k < i ==> !steps[k].DrainStart?
    ensures run[i].queued
    ensures forall b :: a < b <= i && !run[b].queued ==> run[i].edges > run[b].edges
  {
    var r := Front(run[a].queue);
    var states, moves := run[a + 1..i + 1], steps[a + 1..i];
    BlockedStarts(run, steps, a);
    SliceIsSegment(run, steps, a + 1, i);
    NotLost(run, steps, a + 1, i, states, moves, r);
    RestWakes(states, moves, r, i - a - 1);
    forall b | a < b <= i && !run[b].queued
      ensures run[i].edges > run[b].edges
    {
      assert states[b - a - 1] == run[b];
    }
  }
}
