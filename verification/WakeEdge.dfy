/**
 The reclaim wake edge. A drain that found its front entry blocked re-arms the
 flag and looks once more; from then on somebody has to look at the whole domain
 after the last reader in the way has left. Who still owes that look, and the two
 steps after which nobody does.
 */
module WakeEdge {
  import opened Words
  import opened EpochCpu
  import opened EpochDomain
  import opened EpochSafety

  // ----- who owes -----

  /**
   Every occupied CPU whose outermost reader is not admitted after epoch `r`: an older reader, or one
   in admission or exit.
   */
  predicate InTheWay(c: Cpu, r: nat) { c.word.depth > 0 && !(HasGuard(c) && c.marker > r) }

  /** A look under way that no CPU it has started on will cut short. */
  predicate Clear(s: Domain, scan: Scan) {
    scan.seen.Some? && scan.at < |s.cpus| ==> Passes(scan.seen.value, s.cpus[scan.at].marker, scan.target)
  }

  predicate Look(s: Domain, f: Frame) { f.Noting? || f.NoteHint? || f.NoteEdge? || (f.NoteScan? && Clear(s, f.scan)) }

  function FrameOf(c: Cpu, k: nat): Frame
    requires k <= |c.below|
  {
    if k < |c.below| then c.below[k] else c.top
  }

  /** Exit code that is looking, or an outermost admission that was rolled back and will be tried again. */
  predicate FrameOwes(s: Domain, c: Cpu, k: nat) {
    k <= |c.below| && (Look(s, FrameOf(c, k)) || (FrameOf(c, k) == Starting(true) && Depth(c.below[..k]) == 0))
  }

  predicate DrainOwes(s: Domain, d: Drain) {
    d.Arming? || d.Rechecking? || d.RecheckEdge? || (d.RecheckScan? && Clear(s, d.scan))
  }

  datatype Debtor = AtCpu(c: nat) | AtFrame(c: nat, level: nat) | AtDrain(d: nat)

  predicate Owes(s: Domain, r: nat, w: Debtor) {
    match w
    case AtCpu(c) => c < |s.cpus| && InTheWay(s.cpus[c], r)
    case AtFrame(c, k) => c < |s.cpus| && FrameOwes(s, s.cpus[c], k)
    case AtDrain(d) => d < |s.drains| && DrainOwes(s, s.drains[d])
  }

  /** The edge was signalled, or somebody will still look. */
  ghost predicate Promised(s: Domain, r: nat) { s.queued || exists w: Debtor :: Owes(s, r, w) }

  /** The frame of `c` that a reader step moves. */
  function TopOf(s: Domain, c: nat): Debtor
    requires c < |s.cpus|
  {
    AtFrame(c, |s.cpus[c].below|)
  }

  predicate Refuses(s: Domain, step: Step) {
    step.Reader? && step.action.Reject? && step.cpu < |s.cpus| && s.cpus[step.cpu].top == Starting(true)
  }

  predicate Admits(s: Domain, step: Step) {
    && step.Reader? && step.action.Confirm? && step.cpu < |s.cpus|
    && s.cpus[step.cpu].top.Marked? && s.cpus[step.cpu].top.epoch == s.epoch
  }

  /**
   The two ways out: a rolled-back admission is refused, or an admission completes, while
   the flag is clear and nobody else owes a look.
   */
  ghost predicate Forsakes(s: Domain, step: Step, r: nat) {
    && !s.queued
    && ((Refuses(s, step) && forall w: Debtor :: Owes(s, r, w) <==> w == TopOf(s, step.cpu))
        || (Admits(s, step) && forall w: Debtor :: Owes(s, r, w) <==> w == AtCpu(step.cpu)))
  }

  /** An outermost reader enters or starts to leave. */
  predicate Reenters(s: Domain, step: Step) {
    && step.Reader? && step.cpu < |s.cpus|
    && ((step.action.Claim? && s.cpus[step.cpu].word.depth == 0)
        || (step.action.Leave? && s.cpus[step.cpu].top.Guard? && !s.cpus[step.cpu].top.nested))
  }

  // ----- from the blocked scan to the next drain -----

  /** The drain is not working on the queue: it found its front blocked, or is not running. */
  predicate AfterBlocked(d: Drain) { d.Off? || d.Arming? || d.Rechecking? || d.RecheckScan? || d.RecheckEdge? }

  /** No drain works on the queue; the blocked front stays, and its hint is published. */
  predicate Stage(s: Domain, r: nat) {
    && s.queue != [] && Front(s.queue) == r && s.hint == r && s.pending && !s.lock.ByDrain?
    && forall d :: 0 <= d < |s.drains| ==> AfterBlocked(s.drains[d])
  }

  // ----- looks are not for younger entries -----

  /** No published hint is above this. */
  function Limit(s: Domain): nat { if s.queue != [] then Front(s.queue) else s.epoch }

  predicate FrameTarget(f: Frame, limit: nat) { f.NoteScan? ==> f.scan.target <= limit }

  predicate CpuTargets(c: Cpu, limit: nat) {
    FrameTarget(c.top, limit) && forall k :: 0 <= k < |c.below| ==> FrameTarget(c.below[k], limit)
  }

  ghost predicate TargetsOk(s: Domain) {
    && s.hint <= Limit(s)
    && (forall c :: 0 <= c < |s.cpus| ==> CpuTargets(s.cpus[c], Limit(s)))
    && (forall d :: 0 <= d < |s.drains| && s.drains[d].RecheckScan? ==> s.drains[d].scan.target <= Limit(s))
  }

  ghost predicate Armed(s: Domain, r: nat) { Inv(s) && TargetsOk(s) && Stage(s, r) }

  lemma TargetsGrow(c: Cpu, limit: nat, more: nat)
    requires CpuTargets(c, limit) && limit <= more
    ensures CpuTargets(c, more)
  {
  }

  lemma ReaderTargets(c: Cpu, v: View, a: Action, limit: nat)
    requires CpuTargets(c, limit) && Enabled(c, v, a)
    ensures CpuTargets(After(c, v, a), limit)
  {
  }

  predicate IsWriterStep(step: Step) {
    step.Open? || step.Close? || step.Swap? || step.Reopen? || step.Commit? || step.SetHint? || step.Release?
  }

  lemma WriterLimit(s: Domain, step: Step)
    requires IsWriterStep(step) && WriterEnabled(s, step) && Inv(s) && s.hint <= Limit(s)
    ensures var t := WriterNext(s, step);
            Limit(s) <= Limit(t) && t.hint <= Limit(t) && t.cpus == s.cpus && t.drains == s.drains
  {
  }

  /** What is used of the order of the queue. */
  predicate FrontFirst(s: Domain) {
    (s.queue != [] ==> s.queue[0].epoch <= s.epoch) && (|s.queue| > 1 ==> s.queue[0].epoch < s.queue[1].epoch)
  }

  lemma QueueFrontFirst(s: Domain)
    requires Inv(s)
    ensures FrontFirst(s)
  {
  }

  /** One drain moves, and no hint above the front appears. */
  predicate LowMove(s: Domain, t: Domain, id: nat) {
    && id < |s.drains| && |t.drains| == |s.drains| && t.drains == s.drains[id := t.drains[id]] && t.cpus == s.cpus
    && Limit(s) <= Limit(t) && t.hint <= Limit(t)
    && (t.drains[id].RecheckScan? ==> t.drains[id].scan.target <= Limit(t))
  }

  lemma PopLimit(s: Domain, id: nat)
    requires FrontFirst(s) && id < |s.drains| && s.drains[id].Popping? && s.queue != [] && s.hint <= Limit(s)
    ensures LowMove(s, DrainNext(s, id), id)
  {
    if |s.queue| > 1 {
      assert s.queue[1..][0] == s.queue[1];
    }
  }

  lemma LockedLimit(s: Domain, id: nat)
    requires id < |s.drains| && s.hint <= Limit(s)
    requires var d := s.drains[id]; d.Unlinked? || d.Finishing? || d.Emptying? || d.Unhinting? || d.Unqueueing?
    ensures LowMove(s, DrainNext(s, id), id)
  {
  }

  lemma RecheckLimit(s: Domain, id: nat)
    requires id < |s.drains| && s.hint <= Limit(s)
    requires var d := s.drains[id];
             d.Arming? || d.Rechecking? || d.RecheckEdge? || (d.RecheckScan? && d.scan.target <= Limit(s))
    ensures LowMove(s, DrainNext(s, id), id)
  {
  }

  lemma DrainLimit(s: Domain, id: nat)
    requires FrontFirst(s) && id < |s.drains| && DrainEnabled(s, s.drains[id]) && s.hint <= Limit(s)
    requires s.drains[id].RecheckScan? ==> s.drains[id].scan.target <= Limit(s)
    ensures LowMove(s, DrainNext(s, id), id)
  {
    var d := s.drains[id];
    if d.Popping? {
      PopLimit(s, id);
    } else if d.Unlinked? || d.Finishing? || d.Emptying? || d.Unhinting? || d.Unqueueing? {
      LockedLimit(s, id);
    } else if !d.Looping? && !d.Ending? {
      RecheckLimit(s, id);
    }
  }

  lemma DrainTargets(s: Domain, id: nat)
    requires FrontFirst(s) && TargetsOk(s) && id < |s.drains| && DrainEnabled(s, s.drains[id])
    ensures TargetsOk(DrainNext(s, id))
  {
    DrainLimit(s, id);
    var t := DrainNext(s, id);
    forall c | 0 <= c < |t.cpus|
      ensures CpuTargets(t.cpus[c], Limit(t))
    {
      TargetsGrow(s.cpus[c], Limit(s), Limit(t));
    }
  }

  lemma OneCpuTargets(s: Domain, t: Domain, c: nat, cpu: Cpu)
    requires TargetsOk(s) && c < |s.cpus| && CpuTargets(cpu, Limit(s))
    requires t.cpus == s.cpus[c := cpu] && t.drains == s.drains && t.hint == s.hint && Limit(t) == Limit(s)
    ensures TargetsOk(t)
  {
  }

  lemma NoteTargets(s: Domain, c: nat)
    requires TargetsOk(s) && c < |s.cpus| && NoteEnabled(s.cpus[c])
    ensures TargetsOk(NoteNext(s, c))
  {
    var t := NoteNext(s, c);
    OneCpuTargets(s, t, c, t.cpus[c]);
  }

  lemma WriterTargets(s: Domain, step: Step)
    requires Inv(s) && TargetsOk(s) && IsWriterStep(step) && WriterEnabled(s, step)
    ensures TargetsOk(WriterNext(s, step))
  {
    WriterLimit(s, step);
    var t := WriterNext(s, step);
    forall c | 0 <= c < |t.cpus|
      ensures CpuTargets(t.cpus[c], Limit(t))
    {
      TargetsGrow(s.cpus[c], Limit(s), Limit(t));
    }
  }

  lemma CpuStepTargets(s: Domain, step: Step)
    requires TargetsOk(s) && StepEnabled(s, step) && (step.Reader? || step.Note? || step.Register? || step.Unregister?)
    ensures TargetsOk(Next(s, step))
  {
    if step.Reader? {
      ReaderTargets(s.cpus[step.cpu], ViewOf(s), step.action, Limit(s));
    }
    if step.Note? {
      NoteTargets(s, step.cpu);
    } else {
      OneCpuTargets(s, Next(s, step), step.cpu, Next(s, step).cpus[step.cpu]);
    }
  }

  lemma StillTargets(s: Domain, step: Step)
    requires TargetsOk(s) && StepEnabled(s, step)
             && (step.Reserve? || step.Cancel? || step.DrainStart? || step.DrainStop?)
    ensures TargetsOk(Next(s, step))
  {
  }

  /** No look is ever for an entry younger than the front. */
  lemma NextTargets(s: Domain, step: Step)
    requires Inv(s) && TargetsOk(s) && StepEnabled(s, step)
    ensures TargetsOk(Next(s, step))
  {
    if step.Reader? || step.Note? || step.Register? || step.Unregister? {
      CpuStepTargets(s, step);
    } else if step.DrainStep? {
      QueueFrontFirst(s);
      DrainTargets(s, step.id);
    } else if IsWriterStep(step) {
      WriterTargets(s, step);
    } else {
      StillTargets(s, step);
    }
  }

  // ----- the setting stays -----

  lemma CpuStepStage(s: Domain, step: Step, r: nat)
    requires Stage(s, r) && StepEnabled(s, step) && (step.Reader? || step.Note? || step.Register? || step.Unregister?)
    ensures Stage(Next(s, step), r)
  {
  }

  lemma WriterStepStage(s: Domain, step: Step, r: nat)
    requires Stage(s, r) && IsWriterStep(step) && WriterEnabled(s, step) && HintOk(s) && LockOk(s)
    ensures Stage(WriterNext(s, step), r)
  {
  }

  lemma DrainStepStage(s: Domain, step: Step, r: nat)
    requires Stage(s, r) && StepEnabled(s, step)
             && (step.DrainStep? || step.DrainStop? || step.Reserve? || step.Cancel?)
    ensures Stage(Next(s, step), r)
  {
    if step.DrainStep? {
      assert AfterBlocked(s.drains[step.id]);
    }
  }

  lemma ArmedKept(s: Domain, step: Step, r: nat)
    requires Armed(s, r) && StepEnabled(s, step) && !step.DrainStart?
    ensures Armed(Next(s, step), r)
  {
    NextInv(s, step);
    NextTargets(s, step);
    if IsWriterStep(step) {
      WriterStepStage(s, step, r);
    } else if step.Reader? || step.Note? || step.Register? || step.Unregister? {
      CpuStepStage(s, step, r);
    } else {
      DrainStepStage(s, step, r);
    }
  }
}
