/**
 Who owes a look after a step. Every step but two passes the debt on or pays it,
 and nothing but a reader entering or leaving makes anybody owe again.
 */
module WakeDebts {
  import opened Words
  import opened EpochCpu
  import opened EpochDomain
  import opened EpochSafety
  import opened WakeEdge

  // ----- one CPU -----

  /** A CPU in the way stays in the way, or its reader has just left or rolled back, unless it is admitted. */
  lemma WayKept(c: Cpu, v: View, a: Action, r: nat)
    requires CpuOk(c, v.epoch) && Enabled(c, v, a) && InTheWay(c, r)
    requires !(a.Confirm? && c.top.epoch == v.epoch)
    ensures var d := After(c, v, a);
            InTheWay(d, r) || d.top.Noting? || (d.top == Starting(true) && Depth(d.below) == 0)
  {
    if a.Begin? {
      DepthPush(c.below, c.top);
    } else if a.Reject? || a.Leave? {
      PopGuard(c);
    }
  }

  /** The outermost guard is seen through frames that do not count. */
  lemma PopGuard(c: Cpu)
    requires StackOk(c.below)
    ensures c.below != [] ==> (HasGuard(Popped(c)) <==> Depth(c.below) > 0)
  {
    if c.below != [] {
      var front, last := c.below[..|c.below| - 1], c.below[|c.below| - 1];
      assert c.below == front + [last];
      DepthPush(front, last);
    }
  }

  /** A CPU that is newly in the way has a reader that enters or starts to leave. */
  lemma NewlyInTheWay(c: Cpu, v: View, a: Action, r: nat)
    requires CpuOk(c, v.epoch) && Enabled(c, v, a) && !InTheWay(c, r) && InTheWay(After(c, v, a), r)
    ensures (a.Claim? && c.word.depth == 0) || (a.Leave? && !c.top.nested)
  {
    if a.Begin? {
      DepthPush(c.below, c.top);
    } else if a.Reject? || a.Leave? {
      PopGuard(c);
    }
  }

  lemma EntersTheWay(c: Cpu, v: View, a: Action, r: nat)
    requires CpuOk(c, v.epoch) && Enabled(c, v, a)
    requires (a.Claim? && c.word.depth == 0) || (a.Leave? && !c.top.nested)
    ensures InTheWay(After(c, v, a), r)
  {
  }

  /** Markers move only under a reader that is in the way. */
  lemma MarkerKept(c: Cpu, v: View, a: Action, r: nat)
    requires CpuOk(c, v.epoch) && Enabled(c, v, a) && !InTheWay(c, r) && !InTheWay(After(c, v, a), r)
    ensures After(c, v, a).marker == c.marker && !a.GiveBack? && !a.Drop? && !(a.Leave? && !c.top.nested)
  {
  }

  /** Frames below the top are not touched. */
  lemma LevelKept(c: Cpu, v: View, a: Action, k: nat)
    requires Enabled(c, v, a) && (k < |c.below| || (a.Begin? && k == |c.below|))
    ensures var d := After(c, v, a); k <= |d.below| && FrameOf(d, k) == FrameOf(c, k) && d.below[..k] == c.below[..k]
  {
  }

  // ----- the same markers -----

  predicate SameMarkers(s: Domain, t: Domain) {
    |t.cpus| == |s.cpus| && forall i :: 0 <= i < |s.cpus| ==> t.cpus[i].marker == s.cpus[i].marker
  }

  lemma LooksSame(s: Domain, t: Domain, f: Frame)
    requires SameMarkers(s, t)
    ensures Look(s, f) == Look(t, f)
  {
  }

  lemma FrameSame(s: Domain, t: Domain, c: Cpu, d: Cpu, k: nat)
    requires SameMarkers(s, t) && k <= |c.below| && k <= |d.below|
    requires FrameOf(d, k) == FrameOf(c, k) && d.below[..k] == c.below[..k]
    ensures FrameOwes(s, c, k) == FrameOwes(t, d, k)
  {
    LooksSame(s, t, FrameOf(c, k));
  }

  lemma DrainSame(s: Domain, t: Domain, d: Drain)
    requires SameMarkers(s, t)
    ensures DrainOwes(s, d) == DrainOwes(t, d)
  {
  }

  /** Everybody but CPU `c` owes what it owed. */
  lemma OthersSame(s: Domain, t: Domain, r: nat, c: nat, w: Debtor)
    requires SameMarkers(s, t) && t.drains == s.drains && c < |s.cpus|
    requires forall i :: 0 <= i < |s.cpus| && i != c ==> t.cpus[i] == s.cpus[i]
    requires w.AtDrain? || w.c != c
    ensures Owes(s, r, w) == Owes(t, r, w)
  {
    match w
    case AtCpu(i) =>
    case AtFrame(i, k) =>
      if i < |s.cpus| && k <= |s.cpus[i].below| {
        FrameSame(s, t, s.cpus[i], t.cpus[i], k);
      }
    case AtDrain(d) =>
      if d < |s.drains| {
        DrainSame(s, t, s.drains[d]);
      }
  }

  // ----- looks -----

  ghost predicate NobodyInTheWay(s: Domain, r: nat) { forall c :: 0 <= c < |s.cpus| ==> !InTheWay(s.cpus[c], r) }

  /** With nobody in the way, a clear look goes on. */
  lemma LookGoesOn(s: Domain, r: nat, scan: Scan)
    requires CpusOk(s) && NobodyInTheWay(s, r) && scan.target <= r && Clear(s, scan)
    ensures !ScanStep(scan, s.cpus).Blocked?
    ensures ScanStep(scan, s.cpus).More? ==> Clear(s, ScanStep(scan, s.cpus).scan)
  {
    if scan.at < |s.cpus| && scan.seen.None? {
      assert CpuOk(s.cpus[scan.at], s.epoch) && !InTheWay(s.cpus[scan.at], r);
    }
  }

  /** A look that is not clear is cut short at its next step. */
  lemma CutShort(s: Domain, scan: Scan)
    requires !Clear(s, scan)
    ensures ScanStep(scan, s.cpus).Blocked?
  {
  }

  // ----- steps of readers -----

  function ReaderNext(s: Domain, c: nat, a: Action): Domain
    requires c < |s.cpus| && Enabled(s.cpus[c], ViewOf(s), a)
  {
    SetCpu(s, c, After(s.cpus[c], ViewOf(s), a))
  }

  /** The frame on top of CPU `c` does not end with this step. */
  predicate TopStays(s: Domain, c: nat, a: Action, w: Debtor)
    requires c < |s.cpus|
  {
    w != TopOf(s, c) || a.Begin?
  }

  /** With markers unchanged and nobody moved in or out of the way, all debts but the top frame's stay. */
  lemma DebtStays(s: Domain, c: nat, a: Action, r: nat, w: Debtor)
    requires c < |s.cpus| && Enabled(s.cpus[c], ViewOf(s), a) && Owes(s, r, w) && w != AtCpu(c) && TopStays(s, c, a, w)
    requires SameMarkers(s, ReaderNext(s, c, a))
    ensures Owes(ReaderNext(s, c, a), r, w)
  {
    var t := ReaderNext(s, c, a);
    if w.AtFrame? && w.c == c {
      LevelKept(s.cpus[c], ViewOf(s), a, w.level);
      FrameSame(s, t, s.cpus[c], t.cpus[c], w.level);
    } else {
      OthersSame(s, t, r, c, w);
    }
  }

  lemma MarkersAfter(s: Domain, c: nat, a: Action)
    requires c < |s.cpus| && Enabled(s.cpus[c], ViewOf(s), a)
             && After(s.cpus[c], ViewOf(s), a).marker == s.cpus[c].marker
    ensures SameMarkers(s, ReaderNext(s, c, a))
  {
  }

  /** A debtor, and what the step leaves of its debt. */
  lemma ReaderPasses(s: Domain, c: nat, a: Action, r: nat, w: Debtor)
    requires CpusOk(s) && c < |s.cpus| && Enabled(s.cpus[c], ViewOf(s), a) && Owes(s, r, w)
    requires Admits(s, Reader(c, a)) ==> w != AtCpu(c)
    requires Refuses(s, Reader(c, a)) ==> w != TopOf(s, c)
    ensures Promised(ReaderNext(s, c, a), r)
  {
    var t, cpu, v := ReaderNext(s, c, a), s.cpus[c], ViewOf(s);
    var next := After(cpu, v, a);
    assert CpuOk(cpu, s.epoch);
    if InTheWay(next, r) {
      assert Owes(t, r, AtCpu(c));
    } else if InTheWay(cpu, r) && !Admits(s, Reader(c, a)) {
      WayKept(cpu, v, a, r);
      assert next.below[..|next.below|] == next.below;
      assert Owes(t, r, TopOf(t, c));
    } else {
      if !InTheWay(cpu, r) {
        MarkerKept(cpu, v, a, r);
      }
      MarkersAfter(s, c, a);
      TopEnds(s, c, a, r, w);
      DebtStays(s, c, a, r, w);
      assert Owes(t, r, w);
    }
  }

  /** The top frame's debt ends by a refusal or by a claim, which puts the CPU in the way. */
  lemma TopEnds(s: Domain, c: nat, a: Action, r: nat, w: Debtor)
    requires CpusOk(s) && c < |s.cpus| && Enabled(s.cpus[c], ViewOf(s), a) && Owes(s, r, w)
    requires !InTheWay(After(s.cpus[c], ViewOf(s), a), r)
    requires Refuses(s, Reader(c, a)) ==> w != TopOf(s, c)
    ensures TopStays(s, c, a, w)
  {
    var cpu := s.cpus[c];
    assert CpuOk(cpu, s.epoch);
    if w == TopOf(s, c) {
      assert cpu.below[..|cpu.below|] == cpu.below;
    }
  }

  /** Back from the state after: what is owed then was owed before. */
  lemma DebtWas(s: Domain, c: nat, a: Action, r: nat, w: Debtor)
    requires CpusOk(s) && c < |s.cpus| && Enabled(s.cpus[c], ViewOf(s), a) && Owes(ReaderNext(s, c, a), r, w)
    requires SameMarkers(s, ReaderNext(s, c, a)) && !InTheWay(After(s.cpus[c], ViewOf(s), a), r) && !a.GiveBack?
             && !a.Drop?
    ensures Owes(s, r, w) && (Refuses(s, Reader(c, a)) ==> w != TopOf(s, c)) && w != AtCpu(c)
  {
    var t, cpu := ReaderNext(s, c, a), s.cpus[c];
    if w.AtFrame? && w.c == c {
      TopIsNew(cpu, ViewOf(s), a, w.level, t);
      LevelKept(cpu, ViewOf(s), a, w.level);
      FrameSame(s, t, cpu, t.cpus[c], w.level);
    } else {
      OthersSame(s, t, r, c, w);
    }
  }

  lemma TopIsNew(c: Cpu, v: View, a: Action, k: nat, t: Domain)
    requires Enabled(c, v, a) && FrameOwes(t, After(c, v, a), k) && !a.GiveBack? && !a.Drop?
    ensures k < |c.below| || (a.Begin? && k == |c.below|)
  {
  }

  /** With nobody owing, a step that lets no reader in or out leaves it so. */
  lemma ReaderAddsNothing(s: Domain, c: nat, a: Action, r: nat)
    requires CpusOk(s) && c < |s.cpus| && Enabled(s.cpus[c], ViewOf(s), a) && !Promised(s, r)
             && !Reenters(s, Reader(c, a))
    ensures !Promised(ReaderNext(s, c, a), r)
  {
    var t, cpu, v := ReaderNext(s, c, a), s.cpus[c], ViewOf(s);
    assert CpuOk(cpu, s.epoch) && !Owes(s, r, AtCpu(c));
    if InTheWay(After(cpu, v, a), r) {
      NewlyInTheWay(cpu, v, a, r);
    }
    MarkerKept(cpu, v, a, r);
    MarkersAfter(s, c, a);
    forall w: Debtor
      ensures !Owes(t, r, w)
    {
      if Owes(t, r, w) {
        DebtWas(s, c, a, r, w);
      }
    }
  }

  lemma ReentersPromises(s: Domain, c: nat, a: Action, r: nat)
    requires CpusOk(s) && c < |s.cpus| && Enabled(s.cpus[c], ViewOf(s), a) && Reenters(s, Reader(c, a))
    ensures Promised(ReaderNext(s, c, a), r)
  {
    assert CpuOk(s.cpus[c], s.epoch);
    EntersTheWay(s.cpus[c], ViewOf(s), a, r);
    assert Owes(ReaderNext(s, c, a), r, AtCpu(c));
  }

  /** After a forsaking step nobody owes. */
  lemma ForsakenAfter(s: Domain, c: nat, a: Action, r: nat)
    requires CpusOk(s) && c < |s.cpus| && Enabled(s.cpus[c], ViewOf(s), a) && Forsakes(s, Reader(c, a), r)
             && r <= s.epoch
    ensures !Promised(ReaderNext(s, c, a), r)
  {
    var t, cpu, v := ReaderNext(s, c, a), s.cpus[c], ViewOf(s);
    assert CpuOk(cpu, s.epoch);
    if Refuses(s, Reader(c, a)) {
      assert !Owes(s, r, AtCpu(c));
      if InTheWay(After(cpu, v, a), r) {
        NewlyInTheWay(cpu, v, a, r);
      }
    }
    MarkersAfter(s, c, a);
    forall w: Debtor
      ensures !Owes(t, r, w)
    {
      if Owes(t, r, w) {
        DebtWas(s, c, a, r, w);
      }
    }
  }

  // ----- steps of exit code -----

  /** Exit code moves no marker and nobody into or out of the way, and leaves the frames below it alone. */
  lemma NoteMoves(s: Domain, c: nat, r: nat)
    requires CpusOk(s) && c < |s.cpus| && NoteEnabled(s.cpus[c])
    ensures var t := NoteNext(s, c);
            && SameMarkers(s, t) && t.drains == s.drains && (InTheWay(t.cpus[c], r) <==> InTheWay(s.cpus[c], r))
            && (forall i :: 0 <= i < |s.cpus| && i != c ==> t.cpus[i] == s.cpus[i])
            && (t.queued <==> s.queued || s.cpus[c].top.NoteEdge?)
  {
    assert CpuOk(s.cpus[c], s.epoch);
    PopGuard(s.cpus[c]);
  }

  lemma NoteLevel(s: Domain, c: nat, k: nat)
    requires c < |s.cpus| && NoteEnabled(s.cpus[c]) && k < |s.cpus[c].below|
    ensures var d := NoteNext(s, c).cpus[c];
            k <= |d.below| && FrameOf(d, k) == FrameOf(s.cpus[c], k) && d.below[..k] == s.cpus[c].below[..k]
  {
  }

  /** A debt that is not the moving frame's is the same before and after. */
  lemma NoteOthers(s: Domain, c: nat, r: nat, w: Debtor)
    requires CpusOk(s) && c < |s.cpus| && NoteEnabled(s.cpus[c])
             && (w.AtFrame? && w.c == c ==> w.level < |s.cpus[c].below|)
    ensures Owes(s, r, w) == Owes(NoteNext(s, c), r, w)
  {
    var t := NoteNext(s, c);
    NoteMoves(s, c, r);
    if w.AtFrame? && w.c == c {
      NoteLevel(s, c, w.level);
      FrameSame(s, t, s.cpus[c], t.cpus[c], w.level);
    } else if w != AtCpu(c) {
      OthersSame(s, t, r, c, w);
    }
  }

  /** With nobody in the way, a look goes on until it claims the edge. */
  lemma NoteGoesOn(s: Domain, c: nat, r: nat)
    requires CpusOk(s) && c < |s.cpus| && NoteEnabled(s.cpus[c]) && NobodyInTheWay(s, r) && Look(s, s.cpus[c].top)
    requires s.pending && s.hint == r && r > 0 && CpuTargets(s.cpus[c], r) && !s.cpus[c].top.NoteEdge?
    ensures var f := NoteFrame(s, s.cpus[c].top); f.Some? && Look(s, f.value)
  {
    if s.cpus[c].top.NoteScan? {
      LookGoesOn(s, r, s.cpus[c].top.scan);
    }
  }

  lemma NotePasses(s: Domain, c: nat, r: nat)
    requires Armed(s, r) && Promised(s, r) && c < |s.cpus| && NoteEnabled(s.cpus[c]) && r > 0
    ensures Promised(NoteNext(s, c), r)
  {
    var t := NoteNext(s, c);
    NoteMoves(s, c, r);
    if !t.queued {
      if i: nat :| i < |s.cpus| && InTheWay(s.cpus[i], r) {
        NoteOthers(s, c, r, AtCpu(i));
        assert Owes(t, r, AtCpu(i));
      } else {
        var w: Debtor :| Owes(s, r, w);
        if w == TopOf(s, c) {
          NoteGoesOn(s, c, r);
          LooksSame(s, t, t.cpus[c].top);
          assert Owes(t, r, TopOf(t, c));
        } else {
          NoteOthers(s, c, r, w);
          assert Owes(t, r, w);
        }
      }
    }
  }

  lemma NoteAddsNothing(s: Domain, c: nat, r: nat)
    requires CpusOk(s) && c < |s.cpus| && NoteEnabled(s.cpus[c]) && !Promised(s, r)
    ensures !Promised(NoteNext(s, c), r)
  {
    var t, cpu := NoteNext(s, c), s.cpus[c];
    NoteMoves(s, c, r);
    assert !Owes(s, r, TopOf(s, c));
    assert !Look(s, cpu.top);
    CutShort(s, cpu.top.scan);
    assert t.cpus[c] == Popped(cpu);
    forall w: Debtor
      ensures !Owes(t, r, w)
    {
      if Owes(t, r, w) {
        NoteOthers(s, c, r, w);
      }
    }
  }

  // ----- steps of drains -----

  lemma DrainOthers(s: Domain, t: Domain, id: nat, r: nat, w: Debtor)
    requires id < |s.drains| && t.cpus == s.cpus && |t.drains| == |s.drains| && t.drains == s.drains[id := t.drains[id]]
    requires w != AtDrain(id)
    ensures Owes(s, r, w) == Owes(t, r, w)
  {
    match w
    case AtCpu(_) =>
    case AtFrame(i, k) =>
      if i < |s.cpus| && k <= |s.cpus[i].below| {
        FrameSame(s, t, s.cpus[i], t.cpus[i], k);
      }
    case AtDrain(d) =>
      if d < |s.drains| {
        DrainSame(s, t, s.drains[d]);
      }
  }

  lemma RecheckMoves(s: Domain, id: nat)
    requires id < |s.drains| && AfterBlocked(s.drains[id]) && !s.drains[id].Off?
    ensures var t := DrainNext(s, id);
            && t.cpus == s.cpus && |t.drains| == |s.drains| && t.drains == s.drains[id := t.drains[id]]
            && (t.queued <==> !s.drains[id].Arming? && (s.queued || s.drains[id].RecheckEdge?))
  {
  }

  /** With nobody in the way, the drain's second look goes on until it claims the edge. */
  lemma RecheckGoesOn(s: Domain, id: nat, r: nat)
    requires CpusOk(s) && id < |s.drains| && NobodyInTheWay(s, r) && DrainOwes(s, s.drains[id])
             && !s.drains[id].RecheckEdge?
    requires s.hint == r && r > 0 && (s.drains[id].RecheckScan? ==> s.drains[id].scan.target <= r)
    ensures DrainOwes(s, DrainNext(s, id).drains[id])
  {
    if s.drains[id].RecheckScan? {
      LookGoesOn(s, r, s.drains[id].scan);
    }
  }

  lemma ArmingGoesOn(s: Domain, id: nat)
    requires id < |s.drains| && s.drains[id].Arming?
    ensures DrainOwes(s, DrainNext(s, id).drains[id])
  {
  }

  lemma DrainPasses(s: Domain, id: nat, r: nat)
    requires Armed(s, r) && Promised(s, r) && id < |s.drains| && DrainEnabled(s, s.drains[id]) && r > 0
    ensures Promised(DrainNext(s, id), r)
  {
    var t := DrainNext(s, id);
    assert AfterBlocked(s.drains[id]);
    RecheckMoves(s, id);
    if s.drains[id].Arming? {
      ArmingGoesOn(s, id);
      DrainSame(s, t, t.drains[id]);
      assert Owes(t, r, AtDrain(id));
    } else if !t.queued {
      if i: nat :| i < |s.cpus| && InTheWay(s.cpus[i], r) {
        assert Owes(t, r, AtCpu(i));
      } else {
        var w: Debtor :| Owes(s, r, w);
        if w == AtDrain(id) {
          RecheckGoesOn(s, id, r);
          DrainSame(s, t, t.drains[id]);
        } else {
          DrainOthers(s, t, id, r, w);
        }
        assert Owes(t, r, w);
      }
    }
  }

  lemma DrainAddsNothing(s: Domain, id: nat, r: nat)
    requires Stage(s, r) && !Promised(s, r) && id < |s.drains| && DrainEnabled(s, s.drains[id])
    ensures !Promised(DrainNext(s, id), r)
  {
    var t := DrainNext(s, id);
    assert AfterBlocked(s.drains[id]) && !Owes(s, r, AtDrain(id));
    RecheckMoves(s, id);
    CutShort(s, s.drains[id].scan);
    forall w: Debtor
      ensures !Owes(t, r, w)
    {
      if w != AtDrain(id) {
        DrainOthers(s, t, id, r, w);
      }
    }
  }

  // ----- all other steps -----

  /** Steps that move no frame, no marker, no depth and no drain. */
  lemma StillSame(s: Domain, t: Domain, r: nat)
    requires t.queued == s.queued && t.drains == s.drains && |t.cpus| == |s.cpus|
    requires forall i :: 0 <= i < |s.cpus| ==>
               && t.cpus[i].word.depth == s.cpus[i].word.depth && t.cpus[i].marker == s.cpus[i].marker
               && t.cpus[i].below == s.cpus[i].below && t.cpus[i].top == s.cpus[i].top
    ensures Promised(t, r) == Promised(s, r)
  {
    forall w: Debtor
      ensures Owes(s, r, w) == Owes(t, r, w)
    {
      match w
      case AtCpu(i) =>
      case AtFrame(i, k) =>
        if i < |s.cpus| && k <= |s.cpus[i].below| {
          FrameSame(s, t, s.cpus[i], t.cpus[i], k);
        }
      case AtDrain(d) =>
        if d < |s.drains| {
          DrainSame(s, t, s.drains[d]);
        }
    }
  }

  lemma OtherSame(s: Domain, step: Step, r: nat)
    requires Stage(s, r) && StepEnabled(s, step) && !step.Reader? && !step.Note? && !step.DrainStep?
             && !step.DrainStart?
    ensures Promised(Next(s, step), r) == Promised(s, r)
  {
    if !step.DrainStop? {
      StillSame(s, Next(s, step), r);
    }
  }

  // ----- every step -----

  lemma ReaderStep(s: Domain, c: nat, a: Action, r: nat)
    requires Armed(s, r) && c < |s.cpus| && Enabled(s.cpus[c], ViewOf(s), a) && r <= s.epoch
    ensures Promised(ReaderNext(s, c, a), r) <==>
            if Promised(s, r) then !Forsakes(s, Reader(c, a), r) else Reenters(s, Reader(c, a))
  {
    if Reenters(s, Reader(c, a)) {
      ReentersPromises(s, c, a, r);
    } else if !Promised(s, r) {
      ReaderAddsNothing(s, c, a, r);
    } else if Forsakes(s, Reader(c, a), r) {
      ForsakenAfter(s, c, a, r);
    } else if !s.queued {
      var w := OtherDebtor(s, c, a, r);
      ReaderPasses(s, c, a, r, w);
    }
  }

  /** A promise that a step does not forsake has a debtor that the step does not end. */
  lemma OtherDebtor(s: Domain, c: nat, a: Action, r: nat) returns (w: Debtor)
    requires c < |s.cpus| && !s.queued && Promised(s, r) && !Forsakes(s, Reader(c, a), r)
    ensures Owes(s, r, w)
    ensures Admits(s, Reader(c, a)) ==> w != AtCpu(c)
    ensures Refuses(s, Reader(c, a)) ==> w != TopOf(s, c)
  {
    w :| Owes(s, r, w);
    if Admits(s, Reader(c, a)) && w == AtCpu(c) {
      w :| Owes(s, r, w) && w != AtCpu(c);
    } else if Refuses(s, Reader(c, a)) && w == TopOf(s, c) {
      w :| Owes(s, r, w) && w != TopOf(s, c);
    }
  }

  lemma FrontEpoch(s: Domain, r: nat)
    requires Armed(s, r)
    ensures 0 < r <= s.epoch
  {
    assert s.queue[0].epoch > 0;
  }

  lemma LookStep(s: Domain, step: Step, r: nat)
    requires Armed(s, r) && StepEnabled(s, step) && (step.Note? || step.DrainStep?)
    ensures Promised(Next(s, step), r) <==> Promised(s, r)
  {
    FrontEpoch(s, r);
    if step.Note? && Promised(s, r) {
      NotePasses(s, step.cpu, r);
    } else if step.Note? {
      NoteAddsNothing(s, step.cpu, r);
    } else if Promised(s, r) {
      DrainPasses(s, step.id, r);
    } else {
      DrainAddsNothing(s, step.id, r);
    }
  }

  /**
   What every step does to the promise: a kept one is broken exactly by a forsaking step, and
   a broken one is made again exactly by an outermost reader that enters or starts to leave.
   */
  lemma PromiseKept(s: Domain, step: Step, r: nat)
    requires Armed(s, r) && StepEnabled(s, step) && !step.DrainStart?
    ensures Armed(Next(s, step), r)
    ensures Promised(Next(s, step), r) <==> if Promised(s, r) then !Forsakes(s, step, r) else Reenters(s, step)
  {
    ArmedKept(s, step, r);
    if step.Reader? {
      FrontEpoch(s, r);
      ReaderStep(s, step.cpu, step.action, r);
    } else if step.Note? || step.DrainStep? {
      LookStep(s, step, r);
    } else {
      OtherSame(s, step, r);
    }
  }
}
