/**
 The epoch domain as interleaved atomic steps: readers on every CPU, one writer
 section at a time, any number of drains, and CPU registration. A grace scan
 takes two steps per CPU, so everything else may move while it runs.
 */
module EpochDomain {
  import opened Words
  import opened EpochCpu

  const MAX_EPOCH: nat := B64 - 1

  datatype Retired = Retired(item: Object, epoch: nat)

  /** The writer section, from the check of the slot to the release of both locks. */
  datatype Writer =
    | Idle
    | Opened(slot: nat, replacement: Option<Object>, retire: bool, epoch: nat)
    | Closing(slot: nat, replacement: Option<Object>, retire: bool, epoch: nat)
    | Swapped(prior: Option<Object>, retire: bool, epoch: nat)
    | Reopened(prior: Option<Object>, retire: bool, epoch: nat)
    | Committed(first: bool, epoch: nat)
    | Hinted

  datatype Drain =
    | Off
    | Looping
    | Popping(scan: Scan)
    | Unlinked
    | Ending
    | Finishing(scan: Scan)
    | Emptying
    | Unhinting
    | Unqueueing
    | Arming
    | Rechecking
    | RecheckScan(scan: Scan)
    | RecheckEdge

  datatype Lock = Free | ByWriter | ByDrain(id: nat)

  predicate HoldsLock(d: Drain) {
    d.Popping? || d.Unlinked? || d.Finishing? || d.Emptying? || d.Unhinting? || d.Unqueueing?
  }

  datatype Domain = Domain(
    epoch: nat, slots: seq<Option<Object>>, cpus: seq<Cpu>,
    writer: Writer, queue: seq<Retired>, reserved: nat, tickets: nat, lock: Lock, drains: seq<Drain>,
    pending: bool, hint: nat, queued: bool, edges: nat,
    capacity: nat, log: seq<Retired>, dropped: nat)

  function ViewOf(s: Domain): View { View(s.epoch, s.slots) }

  // ----- grace scans -----

  /** What the scan makes of one CPU: the word it saw, then the marker it sees. */
  predicate Passes(w: Word, marker: nat, target: nat) {
    if w.depth != 0 then marker != 0 && marker > target
    else if !w.online then marker == 0
    else marker == 0 || marker > target
  }

  datatype ScanResult = More(scan: Scan) | Blocked | Complete

  function ScanStep(scan: Scan, cpus: seq<Cpu>): ScanResult {
    if scan.at >= |cpus| then Complete
    else
      match scan.seen
      case None => More(scan.(seen := Some(cpus[scan.at].word)))
      case Some(w) =>
        if Passes(w, cpus[scan.at].marker, scan.target) then More(Scan(scan.target, scan.at + 1, None)) else Blocked
  }

  // ----- steps -----

  datatype Step =
    | Reader(cpu: nat, action: Action)
    | Note(cpu: nat)
    | Register(cpu: nat)
    | Unregister(cpu: nat)
    | Reserve
    | Cancel
    | Open(slot: nat, replacement: Option<Object>, retire: bool)
    | Close
    | Swap
    | Reopen
    | Commit
    | SetHint
    | Release
    | DrainStart(id: nat, none: bool)
    | DrainStop(id: nat)
    | DrainStep(id: nat)

  function SetCpu(s: Domain, c: nat, cpu: Cpu): Domain
    requires c < |s.cpus|
  {
    s.(cpus := s.cpus[c := cpu])
  }

  function SetDrain(s: Domain, id: nat, d: Drain): Domain
    requires id < |s.drains|
  {
    s.(drains := s.drains[id := d])
  }

  // The exit path after an outermost reader: look at the flag, the hint, the CPUs, and claim the edge.
  predicate NoteEnabled(cpu: Cpu) {
    cpu.below != [] && (cpu.top.Noting? || cpu.top.NoteHint? || cpu.top.NoteScan? || cpu.top.NoteEdge?)
  }

  function NoteFrame(s: Domain, f: Frame): Option<Frame> {
    match f
    case Noting => if s.pending then Some(NoteHint) else None
    case NoteHint => if s.hint != 0 then Some(NoteScan(Scan(s.hint, 0, None))) else None
    case NoteScan(scan) =>
      (match ScanStep(scan, s.cpus)
       case More(next) => Some(NoteScan(next))
       case Blocked => None
       case Complete => Some(NoteEdge))
    case _ => None
  }

  function Edge(s: Domain): Domain { if s.queued then s else s.(queued := true, edges := s.edges + 1) }

  function NoteNext(s: Domain, c: nat): Domain
    requires c < |s.cpus| && NoteEnabled(s.cpus[c])
  {
    var cpu := s.cpus[c];
    match NoteFrame(s, cpu.top)
    case Some(f) => SetCpu(s, c, cpu.(top := f))
    case None => SetCpu(if cpu.top.NoteEdge? then Edge(s) else s, c, Popped(cpu))
  }

  /** A registration word of zero goes online; an idle online CPU goes offline. */
  predicate LifecycleEnabled(cpu: Cpu, online: bool) { cpu.word == Word(!online, 0) }

  predicate WriterEnabled(s: Domain, step: Step)
    requires step.Open? || step.Close? || step.Swap? || step.Reopen? || step.Commit? || step.SetHint? || step.Release?
  {
    match step
    case Open(slot, replacement, retire) =>
      && s.writer.Idle? && slot < |s.slots| && s.epoch + 2 <= MAX_EPOCH
      && s.slots[slot].Some? == retire && (retire || replacement.Some?) && (retire ==> s.tickets > 0)
    case Close => s.writer.Opened?
    case Swap => s.writer.Closing? && s.writer.slot < |s.slots|
    case Reopen => s.writer.Swapped?
    case Commit => s.writer.Reopened? && s.writer.retire && s.writer.prior.Some? && s.lock.Free? && s.reserved > 0
    case SetHint => s.writer.Committed?
    case Release => s.writer.Hinted? || (s.writer.Reopened? && !s.writer.retire)
  }

  function WriterNext(s: Domain, step: Step): Domain
    requires step.Open? || step.Close? || step.Swap? || step.Reopen? || step.Commit? || step.SetHint? || step.Release?
    requires WriterEnabled(s, step)
  {
    match step
    case Open(slot, replacement, retire) =>
      s.(writer := Opened(slot, replacement, retire, s.epoch), tickets := if retire then s.tickets - 1 else s.tickets)
    case Close => s.(epoch := s.writer.epoch + 1,
                     writer := Closing(s.writer.slot, s.writer.replacement, s.writer.retire, s.writer.epoch))
    case Swap =>
      s.(slots := s.slots[s.writer.slot := s.writer.replacement],
         writer := Swapped(s.slots[s.writer.slot], s.writer.retire, s.writer.epoch))
    case Reopen => s.(epoch := s.writer.epoch + 2, writer := Reopened(s.writer.prior, s.writer.retire, s.writer.epoch))
    case Commit =>
      var entry := Retired(s.writer.prior.value, s.writer.epoch + 2);
      s.(writer := Committed(s.queue == [], s.writer.epoch), queue := s.queue + [entry], log := s.log + [entry],
         reserved := s.reserved - 1, lock := ByWriter)
    case SetHint => s.(hint := if s.writer.first then s.writer.epoch + 2 else s.hint, writer := Hinted)
    case Release => if s.writer.Hinted? then s.(pending := true, lock := Free, writer := Idle) else s.(writer := Idle)
  }

  predicate DrainEnabled(s: Domain, d: Drain) {
    && !d.Off?
    && (d.Looping? || d.Ending? ==> s.lock.Free?)
    && (d.Popping? ==> s.queue != [])
  }

  function Front(queue: seq<Retired>): nat { if queue == [] then 0 else queue[0].epoch }

  /** One step of a drain that is past its start. */
  function DrainNext(s: Domain, id: nat): Domain
    requires id < |s.drains| && DrainEnabled(s, s.drains[id])
  {
    match s.drains[id]
    case Looping =>
      if s.queue == [] then SetDrain(s, id, Ending)
      else SetDrain(s, id, Popping(Scan(Front(s.queue), 0, None))).(lock := ByDrain(id))
    case Popping(scan) =>
      (match ScanStep(scan, s.cpus)
       case More(next) => SetDrain(s, id, Popping(next))
       case Blocked => SetDrain(s, id, Ending).(lock := Free)
       case Complete => SetDrain(s, id, Unlinked).(queue := s.queue[1..], dropped := s.dropped + 1))
    case Unlinked => SetDrain(s, id, Looping).(hint := Front(s.queue), lock := Free)
    case Ending =>
      SetDrain(s, id, if s.queue == [] then Emptying
               else Finishing(Scan(Front(s.queue), 0, None))).(lock := ByDrain(id))
    case Finishing(scan) =>
      (match ScanStep(scan, s.cpus)
       case More(next) => SetDrain(s, id, Finishing(next))
       case Blocked => SetDrain(s, id, Arming).(lock := Free)
       case Complete => SetDrain(s, id, Off).(lock := Free))
    case Emptying => SetDrain(s, id, Unhinting).(pending := false)
    case Unhinting => SetDrain(s, id, Unqueueing).(hint := 0)
    case Unqueueing => SetDrain(s, id, Off).(queued := false, lock := Free)
    case Arming => SetDrain(s, id, Rechecking).(queued := false)
    case Rechecking => SetDrain(s, id, if s.hint == 0 then Off else RecheckScan(Scan(s.hint, 0, None)))
    case RecheckScan(scan) =>
      (match ScanStep(scan, s.cpus)
       case More(next) => SetDrain(s, id, RecheckScan(next))
       case Blocked => SetDrain(s, id, Off)
       case Complete => SetDrain(s, id, RecheckEdge))
    case RecheckEdge => SetDrain(Edge(s), id, Off)
    case Off => s
  }

  predicate StepEnabled(s: Domain, step: Step) {
    match step
    case Reader(c, a) => c < |s.cpus| && Enabled(s.cpus[c], ViewOf(s), a)
    case Note(c) => c < |s.cpus| && NoteEnabled(s.cpus[c])
    case Register(c) => c < |s.cpus| && LifecycleEnabled(s.cpus[c], true)
    case Unregister(c) => c < |s.cpus| && LifecycleEnabled(s.cpus[c], false)
    case Reserve => s.lock.Free? && |s.queue| + s.reserved < s.capacity && s.epoch + 2 <= MAX_EPOCH
    case Cancel => s.lock.Free? && s.tickets > 0 && s.reserved > 0
    case DrainStart(id, _) => id < |s.drains| && s.drains[id].Off?
    case DrainStop(id) => id < |s.drains| && s.drains[id].Looping?
    case DrainStep(id) => id < |s.drains| && DrainEnabled(s, s.drains[id])
    case _ => WriterEnabled(s, step)
  }

  function Next(s: Domain, step: Step): Domain
    requires StepEnabled(s, step)
  {
    match step
    case Reader(c, a) => SetCpu(s, c, After(s.cpus[c], ViewOf(s), a))
    case Note(c) => NoteNext(s, c)
    case Register(c) => SetCpu(s, c, s.cpus[c].(word := Word(true, 0)))
    case Unregister(c) => SetCpu(s, c, s.cpus[c].(word := Word(false, 0)))
    case Reserve => s.(reserved := s.reserved + 1, tickets := s.tickets + 1)
    case Cancel => s.(reserved := s.reserved - 1, tickets := s.tickets - 1)
    case DrainStart(id, none) => if none then SetDrain(s, id, Ending) else SetDrain(s, id, Looping).(queued := false)
    case DrainStop(id) => SetDrain(s, id, Ending)
    case DrainStep(id) => DrainNext(s, id)
    case _ => WriterNext(s, step)
  }
}
