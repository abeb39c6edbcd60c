/**
 One CPU of the epoch domain: its admission word, its epoch marker, and the
 read-side code running on it. Interrupts nest, so the code is a stack of frames
 of which only the top one moves; the phases that run with local interrupts
 masked cannot be covered by a new frame.
 */
module EpochCpu {
  import opened Words

  type Object = nat

  const MAX_READER_DEPTH: nat := 0x7fff_ffff

  /** A grace scan: two loads per CPU, the admission word and then the marker. */
  datatype Scan = Scan(target: nat, at: nat, seen: Option<Word>)

  datatype Word = Word(online: bool, depth: nat)

  datatype Frame =
    | Away
    | Starting(retry: bool)
    | Claimed
    | Sampled(epoch: nat)
    | Marked(epoch: nat)
    | Unmarked
    | Refusing
    | NestedClaimed
    | Guard(nested: bool, epoch: nat)
    | Leaving
    | Noting
    | NoteHint
    | NoteScan(scan: Scan)
    | NoteEdge

  /** Local interrupts are masked in the other phases. */
  predicate Interruptible(f: Frame) {
    f.Away? || f.Starting? || f.Guard? || f.Noting? || f.NoteHint? || f.NoteScan? || f.NoteEdge?
  }

  /** The frame holds one unit of admission depth. */
  predicate Counted(f: Frame) {
    f.Claimed? || f.Sampled? || f.Marked? || f.Unmarked? || f.Refusing? || f.NestedClaimed? || f.Guard? || f.Leaving?
  }

  datatype Cpu = Cpu(word: Word, marker: nat, below: seq<Frame>, top: Frame, held: set<Object>)

  const OFFLINE: Cpu := Cpu(Word(false, 0), 0, [], Away, {})

  // ----- the stack -----

  function Depth(frames: seq<Frame>): nat {
    if frames == [] then 0
    else Depth(frames[..|frames| - 1]) + if Counted(frames[|frames| - 1]) then 1 else 0
  }

  /** The epoch of the outermost guard. */
  function OuterEpoch(frames: seq<Frame>): nat {
    if frames == [] then 0
    else
      var front, last := frames[..|frames| - 1], frames[|frames| - 1];
      if Depth(front) > 0 then OuterEpoch(front) else if last.Guard? then last.epoch else 0
  }

  /** A covered frame fits what lies below it. */
  predicate Fits(frames: seq<Frame>, f: Frame) {
    && Interruptible(f)
    && (f.Guard? ==> f.nested == (Depth(frames) > 0))
    && (f.Guard? && f.nested ==> f.epoch == OuterEpoch(frames))
  }

  predicate StackOk(frames: seq<Frame>) {
    frames == [] || (StackOk(frames[..|frames| - 1]) && Fits(frames[..|frames| - 1], frames[|frames| - 1]))
  }

  /** Frames that only an outermost reader has. */
  predicate IsOuter(f: Frame) {
    f.Claimed? || f.Sampled? || f.Marked? || f.Unmarked? || f.Refusing? || f.Leaving? || (f.Guard? && !f.nested)
  }

  predicate IsNested(f: Frame) { f.NestedClaimed? || (f.Guard? && f.nested) }

  function TopMarker(f: Frame): nat {
    match f
    case Marked(e) => e + 1
    case Guard(nested, e) => if nested then 0 else e + 1
    case _ => 0
  }

  /** Epochs remembered by read-side code are even and not in the future. */
  predicate Remembered(f: Frame, epoch: nat) {
    f.Sampled? || f.Marked? || (f.Guard? && !f.nested) ==> f.epoch % 2 == 0 && f.epoch <= epoch
  }

  /** What the admission word and the marker say about the code running on the CPU. */
  predicate CpuOk(c: Cpu, epoch: nat) {
    && StackOk(c.below)
    && c.word.depth == Depth(c.below) + (if Counted(c.top) then 1 else 0)
    && (c.word.depth > 0 ==> c.word.online)
    && (IsOuter(c.top) ==> Depth(c.below) == 0)
    && (IsNested(c.top) ==> Depth(c.below) > 0)
    && (c.top.Guard? && c.top.nested ==> c.top.epoch == OuterEpoch(c.below))
    && c.marker == (if Depth(c.below) > 0 then OuterEpoch(c.below) + 1 else TopMarker(c.top))
    && Remembered(c.top, epoch)
    && (Depth(c.below) > 0 ==> OuterEpoch(c.below) % 2 == 0 && OuterEpoch(c.below) <= epoch)
    && (c.held != {} ==> HasGuard(c))
  }

  /** An outermost guard is open. */
  predicate HasGuard(c: Cpu) { Depth(c.below) > 0 || (c.top.Guard? && !c.top.nested) }

  // ----- steps of the read-side code -----

  /** What read-side code sees of the domain. */
  datatype View = View(epoch: nat, slots: seq<Option<Object>>)

  datatype Action =
    | Begin
    | Claim
    | Reject
    | Sample
    | Mark
    | Confirm
    | GiveBack
    | Inherit
    | Load(slot: nat)
    | Leave
    | Drop

  function Popped(c: Cpu): Cpu
    requires c.below != []
  {
    c.(below := c.below[..|c.below| - 1], top := c.below[|c.below| - 1])
  }

  predicate Enabled(c: Cpu, v: View, a: Action) {
    match a
    case Begin => Interruptible(c.top)
    case Claim => c.top.Starting? && c.word.online && c.word.depth < MAX_READER_DEPTH
    case Reject => c.top.Starting? && c.below != [] && !(c.word.online && c.word.depth < MAX_READER_DEPTH)
    case Sample => c.top.Claimed?
    case Mark => c.top.Sampled?
    case Confirm => c.top.Marked?
    case GiveBack => (c.top.Unmarked? || c.top.Refusing?) && c.word.depth > 0
    case Inherit => c.top.NestedClaimed?
    case Load(slot) => c.top.Guard? && slot < |v.slots|
    case Leave => c.top.Guard? && c.below != [] && c.word.depth > 0
    case Drop => c.top.Leaving? && c.word.depth > 0
  }

  function Deeper(w: Word): Word { w.(depth := w.depth + 1) }

  function Shallower(w: Word): Word
    requires w.depth > 0
  {
    w.(depth := w.depth - 1)
  }

  /** The CPU after one atomic step of its top frame. */
  function After(c: Cpu, v: View, a: Action): Cpu
    requires Enabled(c, v, a)
  {
    match a
    case Begin => c.(below := c.below + [c.top], top := Starting(false))
    case Claim => c.(word := Deeper(c.word), top := if c.word.depth != 0 then NestedClaimed else Claimed)
    case Reject => Popped(c)
    case Sample => c.(top := if v.epoch % 2 == 0 then Sampled(v.epoch) else Refusing)
    case Mark => c.(marker := c.top.epoch + 1, top := Marked(c.top.epoch))
    case Confirm =>
      if v.epoch == c.top.epoch then c.(top := Guard(false, c.top.epoch)) else c.(marker := 0, top := Unmarked)
    case GiveBack => c.(word := Shallower(c.word), top := Starting(true))
    case Inherit => c.(top := Guard(true, if c.marker > 0 then c.marker - 1 else 0))
    case Load(slot) =>
      (match v.slots[slot]
       case None => c
       case Some(o) => c.(held := c.held + {o}))
    case Leave =>
      if c.top.nested then Popped(c.(word := Shallower(c.word)))
      else c.(marker := 0, held := {}, top := Leaving)
    case Drop => c.(word := Shallower(c.word), top := Noting)
  }

  // ----- what every step keeps -----

  lemma DepthPush(frames: seq<Frame>, f: Frame)
    ensures Depth(frames + [f]) == Depth(frames) + (if Counted(f) then 1 else 0)
    ensures OuterEpoch(frames + [f]) == if Depth(frames) > 0 then OuterEpoch(frames) else if f.Guard? then f.epoch
            else 0
    ensures StackOk(frames + [f]) <==> StackOk(frames) && Fits(frames, f)
  {
    var s := frames + [f];
    assert s[..|s| - 1] == frames && s[|s| - 1] == f;
  }

  lemma BeginOk(c: Cpu, v: View)
    requires CpuOk(c, v.epoch) && Enabled(c, v, Begin)
    ensures CpuOk(After(c, v, Begin), v.epoch)
  {
    DepthPush(c.below, c.top);
  }

  /** Removing the top frame puts the covered one back in charge. */
  lemma PoppedOk(c: Cpu, epoch: nat)
    requires c.below != [] && StackOk(c.below) && c.word.depth == Depth(c.below)
    requires c.word.depth > 0 ==> c.word.online && c.marker == OuterEpoch(c.below) + 1
    requires c.word.depth > 0 ==> OuterEpoch(c.below) % 2 == 0 && OuterEpoch(c.below) <= epoch
    requires c.word.depth == 0 ==> c.marker == 0 && c.held == {}
    ensures CpuOk(Popped(c), epoch)
  {
    var front, last := c.below[..|c.below| - 1], c.below[|c.below| - 1];
    assert c.below == front + [last];
    DepthPush(front, last);
  }

  lemma LeaveOk(c: Cpu, v: View)
    requires CpuOk(c, v.epoch) && Enabled(c, v, Leave)
    ensures CpuOk(After(c, v, Leave), v.epoch)
  {
    if c.top.nested {
      PoppedOk(c.(word := Shallower(c.word)), v.epoch);
    }
  }

  lemma RejectOk(c: Cpu, v: View)
    requires CpuOk(c, v.epoch) && Enabled(c, v, Reject)
    ensures CpuOk(After(c, v, Reject), v.epoch)
  {
    PoppedOk(c, v.epoch);
  }

  /** Every step of the read-side code keeps the word, the marker and the stack consistent. */
  lemma StepOk(c: Cpu, v: View, a: Action)
    requires CpuOk(c, v.epoch) && Enabled(c, v, a)
    ensures CpuOk(After(c, v, a), v.epoch)
  {
    match a
    case Begin => BeginOk(c, v);
    case Reject => RejectOk(c, v);
    case Leave => LeaveOk(c, v);
    case _ =>
  }

  lemma LaterOk(c: Cpu, epoch: nat, later: nat)
    requires CpuOk(c, epoch) && epoch <= later
    ensures CpuOk(c, later)
  {
  }
}
