/**
 Two short runs of a domain with one CPU, one slot and one drain. In the first a
 rolled-back admission is refused and the edge is never signalled. In the second
 the front entry becomes reclaimable when an admission completes, and the edge
 only comes when that reader leaves.
 */
module LostWake {
  import opened Words
  import opened EpochCpu
  import opened EpochDomain
  import opened EpochSafety
  import opened WakeEdge
  import opened WakeRuns

  /** The steps lead from one state to the other. */
  predicate Leads(s: Domain, steps: seq<Step>, t: Domain)
    decreases |steps|
  {
    if steps == [] then s == t else StepEnabled(s, steps[0]) && Leads(Next(s, steps[0]), steps[1..], t)
  }

  lemma {:induction false} LeadsJoin(s: Domain, a: seq<Step>, t: Domain, b: seq<Step>, u: Domain)
    requires Leads(s, a, t) && Leads(t, b, u)
    ensures Leads(s, a + b, u)
    decreases |a|
  {
    if a == [] {
      assert a + b == b;
    } else {
      assert (a + b)[1..] == a[1..] + b;
      LeadsJoin(Next(s, a[0]), a[1..], t, b, u);
    }
  }

  lemma OneStep(s: Domain, step: Step, t: Domain)
    requires StepEnabled(s, step) && Next(s, step) == t
    ensures Leads(s, [step], t)
  {
    assert [step][1..] == [];
  }

  lemma TwoSteps(s: Domain, a: Step, t: Domain, b: Step, u: Domain)
    requires StepEnabled(s, a) && Next(s, a) == t && StepEnabled(t, b) && Next(t, b) == u
    ensures Leads(s, [a, b], u)
  {
    OneStep(s, a, t);
    OneStep(t, b, u);
    LeadsJoin(s, [a], t, [b], u);
    assert [a] + [b] == [a, b];
  }

  /** One offline CPU, object 7 in the only slot, one drain, room for one retired object. */
  function Start(): Domain {
    Domain(0, [Some(7)], [OFFLINE], Idle, [], 0, 0, Free, [Off], false, 0, false, 0, 1, [], 0)
  }

  function WithCpu(s: Domain, word: Word, marker: nat, below: seq<Frame>, top: Frame): Domain {
    s.(cpus := [Cpu(word, marker, below, top, {})])
  }

  const ONLINE: Word := Word(true, 0)
  const BUSY: Word := Word(true, 1)

  /** The domain after object 7 was replaced by 8. */
  function Published(s: Domain): Domain {
    s.(epoch := 2, slots := [Some(8)], queue := [Retired(7, 2)], log := [Retired(7, 2)], hint := 2, pending := true)
  }

  predicate Fresh(s: Domain) {
    && s.epoch == 0 && s.slots == [Some(7)] && s.writer.Idle? && s.queue == [] && s.log == [] && s.dropped == 0
    && s.reserved == 0 && s.tickets == 0 && s.capacity == 1 && s.lock.Free? && s.hint == 0 && !s.pending && !s.queued
       && s.edges == 0
  }

  const REPLACE: seq<Step> := [Reserve, Open(0, Some(8), true)] + [Close, Swap] + [Reopen, Commit] + [SetHint, Release]

  /** Replacing object 7 by 8, whatever the CPU is doing. */
  lemma Replace(s: Domain)
    requires Fresh(s)
    ensures Leads(s, REPLACE, Published(s))
  {
    var s1 := s.(reserved := 1, tickets := 1);
    var s2 := s.(reserved := 1, writer := Opened(0, Some(8), true, 0));
    TwoSteps(s, Reserve, s1, Open(0, Some(8), true), s2);
    var s3 := s2.(epoch := 1, writer := Closing(0, Some(8), true, 0));
    var s4 := s3.(slots := [Some(8)], writer := Swapped(Some(7), true, 0));
    TwoSteps(s2, Close, s3, Swap, s4);
    var s5 := s4.(epoch := 2, writer := Reopened(Some(7), true, 0));
    var s6 := s5.(writer := Committed(true, 0), queue := [Retired(7, 2)], log := [Retired(7, 2)], reserved := 0,
                  lock := ByWriter);
    TwoSteps(s4, Reopen, s5, Commit, s6);
    var s7 := s6.(hint := 2, writer := Hinted);
    TwoSteps(s6, SetHint, s7, Release, Published(s));
    LeadsJoin(s, [Reserve, Open(0, Some(8), true)], s2, [Close, Swap], s4);
    LeadsJoin(s, [Reserve, Open(0, Some(8), true)] + [Close, Swap], s4, [Reopen, Commit], s6);
    LeadsJoin(s, [Reserve, Open(0, Some(8), true)] + [Close, Swap] + [Reopen, Commit], s6, [SetHint, Release],
              Published(s));
  }

  const ARM: seq<Step> := [DrainStart(0, true), DrainStep(0)] + [DrainStep(0), DrainStep(0)] + [DrainStep(0)]
  const RECHECK: seq<Step> := [DrainStep(0), DrainStep(0)] + [DrainStep(0)]

  /** Object 7 is retired at epoch 2, and the only CPU stands in its way. */
  predicate FrontBlocked(s: Domain) {
    && s.queue == [Retired(7, 2)] && s.hint == 2 && s.lock.Free? && s.drains == [Off] && !s.queued
    && |s.cpus| == 1 && s.cpus[0].word == BUSY && s.cpus[0].marker <= 2
  }

  lemma SeesBlocked(s: Domain)
    requires FrontBlocked(s)
    ensures Leads(s.(drains := [Finishing(Scan(2, 0, None))], lock := ByDrain(0)), [DrainStep(0), DrainStep(0)],
                  s.(drains := [Arming]))
  {
    var s2 := s.(drains := [Finishing(Scan(2, 0, None))], lock := ByDrain(0));
    TwoSteps(s2, DrainStep(0), s2.(drains := [Finishing(Scan(2, 0, Some(BUSY)))]), DrainStep(0),
             s.(drains := [Arming]));
  }

  lemma BeginsDrain(s: Domain)
    requires FrontBlocked(s)
    ensures Leads(s, [DrainStart(0, true), DrainStep(0)],
                  s.(drains := [Finishing(Scan(2, 0, None))], lock := ByDrain(0)))
  {
    TwoSteps(s, DrainStart(0, true), s.(drains := [Ending]), DrainStep(0),
             s.(drains := [Finishing(Scan(2, 0, None))], lock := ByDrain(0)));
  }

  lemma Rearms(s: Domain)
    requires FrontBlocked(s)
    ensures Leads(s.(drains := [Arming]), [DrainStep(0)], s.(drains := [Rechecking]))
  {
    OneStep(s.(drains := [Arming]), DrainStep(0), s.(drains := [Rechecking]));
  }

  lemma Arms(s: Domain)
    requires FrontBlocked(s)
    ensures Leads(s, ARM, s.(drains := [Rechecking]))
  {
    BeginsDrain(s);
    SeesBlocked(s);
    Rearms(s);
    JoinThree(s, [DrainStart(0, true), DrainStep(0)], s.(drains := [Finishing(Scan(2, 0, None))], lock := ByDrain(0)),
              [DrainStep(0), DrainStep(0)], s.(drains := [Arming]), [DrainStep(0)], s.(drains := [Rechecking]));
  }

  lemma Rechecks(s: Domain)
    requires FrontBlocked(s)
    ensures Leads(s.(drains := [Rechecking]), RECHECK, s)
  {
    var s1, s2 := s.(drains := [RecheckScan(Scan(2, 0, None))]), s.(drains := [RecheckScan(Scan(2, 0, Some(BUSY)))]);
    TwoSteps(s.(drains := [Rechecking]), DrainStep(0), s1, DrainStep(0), s2);
    OneStep(s2, DrainStep(0), s);
    LeadsJoin(s.(drains := [Rechecking]), [DrainStep(0), DrainStep(0)], s2, [DrainStep(0)], s);
  }

  // ----- a refused retry -----

  const ENTER: seq<Step> := [Register(0), Reader(0, Begin)] + [Reader(0, Claim), Reader(0, Sample)] + [Reader(0, Mark)]
  const GIVE_UP: seq<Step> := [Reader(0, Confirm), Reader(0, GiveBack)] + [Unregister(0), Reader(0, Reject)]

  lemma Enters(s: Domain)
    requires s == Start()
    ensures Leads(s, ENTER, WithCpu(s, BUSY, 1, [Away], Marked(0)))
  {
    var s1, s2 := WithCpu(s, ONLINE, 0, [], Away), WithCpu(s, ONLINE, 0, [Away], Starting(false));
    assert [] + [Away] == [Away];
    TwoSteps(s, Register(0), s1, Reader(0, Begin), s2);
    var s3, s4 := WithCpu(s, BUSY, 0, [Away], Claimed), WithCpu(s, BUSY, 0, [Away], Sampled(0));
    TwoSteps(s2, Reader(0, Claim), s3, Reader(0, Sample), s4);
    OneStep(s4, Reader(0, Mark), WithCpu(s, BUSY, 1, [Away], Marked(0)));
    LeadsJoin(s, [Register(0), Reader(0, Begin)], s2, [Reader(0, Claim), Reader(0, Sample)], s4);
    LeadsJoin(s, [Register(0), Reader(0, Begin)] + [Reader(0, Claim), Reader(0, Sample)], s4, [Reader(0, Mark)],
              WithCpu(s, BUSY, 1, [Away], Marked(0)));
  }

  lemma GivesUp(s: Domain)
    requires s.epoch == 2 && s.cpus == [Cpu(BUSY, 1, [Away], Marked(0), {})]
    ensures Leads(s, GIVE_UP, s.(cpus := [OFFLINE]))
  {
    var s1, s2 := WithCpu(s, BUSY, 0, [Away], Unmarked), WithCpu(s, ONLINE, 0, [Away], Starting(true));
    TwoSteps(s, Reader(0, Confirm), s1, Reader(0, GiveBack), s2);
    var s3 := WithCpu(s, Word(false, 0), 0, [Away], Starting(true));
    TwoSteps(s2, Unregister(0), s3, Reader(0, Reject), s.(cpus := [OFFLINE]));
    LeadsJoin(s, [Reader(0, Confirm), Reader(0, GiveBack)], s2, [Unregister(0), Reader(0, Reject)],
              s.(cpus := [OFFLINE]));
  }

  lemma {:induction false} LeadsInv(s: Domain, steps: seq<Step>, t: Domain)
    requires Inv(s) && TargetsOk(s) && Leads(s, steps, t)
    ensures Inv(t) && TargetsOk(t)
    decreases |steps|
  {
    if steps != [] {
      NextInv(s, steps[0]);
      NextTargets(s, steps[0]);
      LeadsInv(Next(s, steps[0]), steps[1..], t);
    }
  }

  lemma JoinThree(s: Domain, a: seq<Step>, t: Domain, b: seq<Step>, u: Domain, c: seq<Step>, v: Domain)
    requires Leads(s, a, t) && Leads(t, b, u) && Leads(u, c, v)
    ensures Leads(s, a + b + c, v)
  {
    LeadsJoin(s, a, t, b, u);
    LeadsJoin(s, a + b, u, c, v);
  }

  /** The CPU is about to confirm an epoch that has passed; object 7 was retired meanwhile. */
  function Stale(): Domain { Published(WithCpu(Start(), BUSY, 1, [Away], Marked(0))) }

  lemma StaleArmed()
    ensures Leads(Start(), ENTER + REPLACE + ARM, Stale().(drains := [Rechecking]))
  {
    var s := WithCpu(Start(), BUSY, 1, [Away], Marked(0));
    Enters(Start());
    Replace(s);
    Arms(Stale());
    JoinThree(Start(), ENTER, s, REPLACE, Stale(), ARM, Stale().(drains := [Rechecking]));
  }

  lemma StartInv()
    ensures Initial(Start()) && Inv(Start()) && TargetsOk(Start())
  {
  }

  /** A state reached from the start whose drain is about to look once more has the promise. */
  lemma PromisedThere(steps: seq<Step>, armed: Domain)
    requires Leads(Start(), steps, armed) && Stage(armed, 2) && armed.drains == [Rechecking]
    ensures Initial(Start()) && Armed(armed, 2) && Promised(armed, 2)
  {
    StartInv();
    LeadsInv(Start(), steps, armed);
    assert Owes(armed, 2, AtDrain(0));
  }

  /**
   A run in which the wake is lost: the drain has returned, nothing runs, and no edge was signalled
   since the re-arm.
   */
  lemma WakeCanBeLost(armed: Domain, end: Domain)
    requires armed == Stale().(drains := [Rechecking]) && end == Stale().(cpus := [OFFLINE])
    ensures Initial(Start()) && Leads(Start(), ENTER + REPLACE + ARM, armed)
    ensures Armed(armed, 2) && Promised(armed, 2) && armed.drains[0].Rechecking? && !armed.queued
    ensures Leads(armed, RECHECK + GIVE_UP, end) && AtRest(end)
    ensures end.queue != [] && !end.queued && end.edges == armed.edges
  {
    StaleArmed();
    PromisedThere(ENTER + REPLACE + ARM, armed);
    Rechecks(Stale());
    GivesUp(Stale());
    LeadsJoin(armed, RECHECK, Stale(), GIVE_UP, end);
  }

  // ----- an admission that completes -----

  const CLAIM: seq<Step> := [Reader(0, Begin), Reader(0, Claim)]
  const ADMIT: seq<Step> := [Reader(0, Sample), Reader(0, Mark)] + [Reader(0, Confirm)]

  lemma Completes(s: Domain)
    requires s.epoch == 2 && s.cpus == [Cpu(BUSY, 0, [Away], Claimed, {})]
    ensures Leads(s, ADMIT, WithCpu(s, BUSY, 3, [Away], Guard(false, 2)))
  {
    var s1, s2 := WithCpu(s, BUSY, 0, [Away], Sampled(2)), WithCpu(s, BUSY, 3, [Away], Marked(2));
    TwoSteps(s, Reader(0, Sample), s1, Reader(0, Mark), s2);
    OneStep(s2, Reader(0, Confirm), WithCpu(s, BUSY, 3, [Away], Guard(false, 2)));
    LeadsJoin(s, [Reader(0, Sample), Reader(0, Mark)], s2, [Reader(0, Confirm)],
              WithCpu(s, BUSY, 3, [Away], Guard(false, 2)));
  }

  lemma Claims(p: Domain)
    requires p.cpus == [Cpu(ONLINE, 0, [], Away, {})]
    ensures Leads(p, CLAIM, WithCpu(p, BUSY, 0, [Away], Claimed))
  {
    assert [] + [Away] == [Away];
    TwoSteps(p, Reader(0, Begin), WithCpu(p, ONLINE, 0, [Away], Starting(false)), Reader(0, Claim),
             WithCpu(p, BUSY, 0, [Away], Claimed));
  }

  /** Object 7 was retired; a new reader has claimed its admission and not yet read the epoch. */
  function Claiming(): Domain { WithCpu(Published(WithCpu(Start(), ONLINE, 0, [], Away)), BUSY, 0, [Away], Claimed) }

  lemma ClaimingArmed()
    ensures Leads(Start(), ([Register(0)] + REPLACE + CLAIM) + ARM, Claiming().(drains := [Rechecking]))
  {
    var s := WithCpu(Start(), ONLINE, 0, [], Away);
    OneStep(Start(), Register(0), s);
    Replace(s);
    Claims(Published(s));
    JoinThree(Start(), [Register(0)], s, REPLACE, Published(s), CLAIM, Claiming());
    Arms(Claiming());
    LeadsJoin(Start(), [Register(0)] + REPLACE + CLAIM, Claiming(), ARM, Claiming().(drains := [Rechecking]));
  }

  /**
   A run to a state in which the drain has returned blocked, the only CPU is inside
   its section rather than in admission or exit code, the front entry is past its
   grace period, and the flag is not set: an admission that completed forsook the
   promise, and the edge waits for that reader to leave.
   */
  lemma WakeWaitsForReader(armed: Domain, end: Domain)
    requires armed == Claiming().(drains := [Rechecking])
             && end == WithCpu(Claiming(), BUSY, 3, [Away], Guard(false, 2))
    ensures Initial(Start()) && Leads(Start(), ([Register(0)] + REPLACE + CLAIM) + ARM, armed)
    ensures Armed(armed, 2) && Promised(armed, 2) && Leads(armed, RECHECK + ADMIT, end) && Settled(end)
    ensures Front(end.queue) == 2 && GraceOver(end, 2) && !end.queued && end.edges == armed.edges
  {
    ClaimingArmed();
    PromisedThere(([Register(0)] + REPLACE + CLAIM) + ARM, armed);
    Rechecks(Claiming());
    Completes(Claiming());
    LeadsJoin(armed, RECHECK, Claiming(), ADMIT, end);
  }
}
