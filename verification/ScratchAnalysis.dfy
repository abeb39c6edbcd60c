/**
 The one forward pass that decides whether a program may read a scratch word
 that some path did not store. Its masks are proved to be the intersection, over
 every control-flow path, of the words stored on the path.
 */
module ScratchAnalysis {
  import opened Words
  import opened Bpf
  import opened Paths
  import opened Masks

  type Mask = set<nat>

  /** Merging what one more path has stored. */
  function Merge(slot: Option<Mask>, incoming: Mask): Option<Mask> {
    match slot
    case Some(existing) => Some(existing * incoming)
    case None => Some(incoming)
  }

  /** The set that a slot of the pass holds, if it was reached. */
  function Held(slot: Option<U16>): Option<Mask> {
    match slot
    case Some(m) => Some(SetOf(m))
    case None => None
  }

  // ----- what the masks mean -----

  /** A path to `q` whose earlier instructions all lie before `n`. */
  predicate PathTo(program: seq<Instruction>, n: nat, q: nat, p: seq<nat>) {
    IsPath(program, p) && Last(p) == q && (|p| == 1 || p[|p| - 2] < n)
  }

  /** A set of stored words as seen from all those paths. */
  ghost predicate StoredOnAll(program: seq<Instruction>, n: nat, q: nat, k: nat) {
    forall p :: PathTo(program, n, q, p) ==> k in StoredOn(program, p)
  }

  /**
   `o` is the intersection of what the paths to `q` through instructions before `n` store; `None`
   without such a path.
   */
  ghost predicate IsMeet(program: seq<Instruction>, n: nat, q: nat, o: Option<Mask>) {
    && (o.Some? <==> exists p :: PathTo(program, n, q, p))
    && (o.Some? ==> forall k :: 0 <= k < SCRATCH_WORDS ==> (k in o.value <==> StoredOnAll(program, n, q, k)))
  }

  /** `out` is what is stored on every path after the instruction at `n`. */
  ghost predicate IsOutgoing(program: seq<Instruction>, n: nat, out: Mask)
    requires n < |program|
  {
    forall k :: 0 <= k < SCRATCH_WORDS ==>
      (k in out <==> StoredOnAll(program, n, n, k) || k in StoredBy(program[n]))
  }

  /** Some path reads, at `pc`, a word that was not stored on it. */
  ghost predicate UnsafeAt(program: seq<Instruction>, pc: nat) {
    pc < |program| && Reads(program[pc]) && exists p ::
        IsPath(program, p) && Last(p) == pc && program[pc].k !in StoredOn(program, p)
  }

  lemma SafeMeansNowhereUnsafe(program: seq<Instruction>)
    ensures ScratchSafe(program) <==> forall pc: nat :: !UnsafeAt(program, pc)
  {
    if !ScratchSafe(program) {
      var p :| IsPath(program, p) && Reads(program[Last(p)]) && program[Last(p)].k !in StoredOn(program, p);
      assert UnsafeAt(program, Last(p));
    }
  }

  /** Control only moves forward, so the paths to `n` use instructions before `n` only. */
  lemma AllPathsBefore(program: seq<Instruction>, n: nat, p: seq<nat>)
    requires IsPath(program, p) && Last(p) == n
    ensures PathTo(program, n, n, p)
  {
    if |p| > 1 {
      assert p[|p| - 1] in Successors(program[p[|p| - 2]], p[|p| - 2]);
    }
  }

  /** A path to `q` through `n` is a path to `n` extended by `q`. */
  lemma ThroughPath(program: seq<Instruction>, n: nat, q: nat, p: seq<nat>)
    requires PathTo(program, n + 1, q, p) && !PathTo(program, n, q, p)
    ensures PathTo(program, n, n, p[..|p| - 1]) && q in Successors(program[n], n)
    ensures StoredOn(program, p) == StoredOn(program, p[..|p| - 1]) + StoredBy(program[n])
  {
    var r := p[..|p| - 1];
    assert p[|p| - 2] == n && Last(r) == n;
    assert p[|p| - 1] in Successors(program[p[|p| - 2]], p[|p| - 2]);
    assert IsPath(program, r);
    AllPathsBefore(program, n, r);
  }

  /** Where `n` does not go, one more instruction changes nothing. */
  lemma Unaffected(program: seq<Instruction>, n: nat, q: nat, o: Option<Mask>)
    requires n < |program| && IsMeet(program, n, q, o)
    requires q !in Successors(program[n], n) || !exists p :: PathTo(program, n, n, p)
    ensures IsMeet(program, n + 1, q, o)
  {
    forall p | IsPath(program, p)
      ensures PathTo(program, n + 1, q, p) <==> PathTo(program, n, q, p)
    {
      if PathTo(program, n + 1, q, p) && !PathTo(program, n, q, p) {
        ThroughPath(program, n, q, p);
      }
    }
    if exists p :: PathTo(program, n, q, p) {
      var p :| PathTo(program, n, q, p);
      assert PathTo(program, n + 1, q, p);
    }
  }

  /** What every path to `q` stores, once the paths through `n` are counted. */
  lemma MergedPaths(program: seq<Instruction>, n: nat, q: nat, k: nat)
    requires n < |program| && q < |program| && q in Successors(program[n], n)
    ensures StoredOnAll(program, n + 1, q, k) <==>
            StoredOnAll(program, n, q, k) && (StoredOnAll(program, n, n, k) || k in StoredBy(program[n]))
  {
    if StoredOnAll(program, n + 1, q, k) {
      forall p | PathTo(program, n, q, p)
        ensures k in StoredOn(program, p)
      {
        assert PathTo(program, n + 1, q, p);
      }
      forall p | PathTo(program, n, n, p)
        ensures k in StoredOn(program, p) || k in StoredBy(program[n])
      {
        ExtendPath(program, p, q);
        assert PathTo(program, n + 1, q, p + [q]);
      }
    }
    if StoredOnAll(program, n, q, k) && (StoredOnAll(program, n, n, k) || k in StoredBy(program[n])) {
      forall p | PathTo(program, n + 1, q, p)
        ensures k in StoredOn(program, p)
      {
        if !PathTo(program, n, q, p) {
          ThroughPath(program, n, q, p);
        }
      }
    }
  }

  /** Merging the outgoing mask into a successor accounts for the paths through `n`. */
  lemma MergeStep(program: seq<Instruction>, n: nat, q: nat, o: Option<Mask>, out: Mask)
    requires n < |program| && q < |program| && q in Successors(program[n], n)
    requires IsMeet(program, n, q, o) && IsOutgoing(program, n, out) && exists p :: PathTo(program, n, n, p)
    ensures IsMeet(program, n + 1, q, Merge(o, out))
  {
    var p :| PathTo(program, n, n, p);
    ExtendPath(program, p, q);
    assert PathTo(program, n + 1, q, p + [q]);
    forall k | 0 <= k < SCRATCH_WORDS
      ensures k in Merge(o, out).value <==> StoredOnAll(program, n + 1, q, k)
    {
      MergedPaths(program, n, q, k);
    }
  }

  /** Merging the same mask again, as a conditional jump with equal targets does, changes no meaning. */
  lemma MergeAgain(program: seq<Instruction>, n: nat, q: nat, o: Option<Mask>, out: Mask)
    requires n < |program| && q < |program| && q in Successors(program[n], n)
    requires IsMeet(program, n + 1, q, o) && IsOutgoing(program, n, out) && o.Some?
    ensures IsMeet(program, n + 1, q, Merge(o, out))
  {
    forall k | 0 <= k < SCRATCH_WORDS
      ensures k in Merge(o, out).value <==> StoredOnAll(program, n + 1, q, k)
    {
      MergedPaths(program, n, q, k);
    }
  }

  /** A read is safe exactly when the mask at its instruction has the slot. */
  lemma ReadDecided(program: seq<Instruction>, n: nat, m: Mask)
    requires n < |program| && IsMeet(program, n, n, Some(m)) && Reads(program[n]) && program[n].k < SCRATCH_WORDS
    ensures UnsafeAt(program, n) <==> program[n].k !in m
  {
    if program[n].k !in m {
      var p :| PathTo(program, n, n, p) && program[n].k !in StoredOn(program, p);
      assert UnsafeAt(program, n);
    }
    if UnsafeAt(program, n) {
      var p :| IsPath(program, p) && Last(p) == n && program[n].k !in StoredOn(program, p);
      AllPathsBefore(program, n, p);
    }
  }

  lemma UnreachedSafe(program: seq<Instruction>, n: nat)
    requires n < |program| && IsMeet(program, n, n, None)
    ensures !UnsafeAt(program, n)
  {
    if UnsafeAt(program, n) {
      var p :| IsPath(program, p) && Last(p) == n && program[n].k !in StoredOn(program, p);
      AllPathsBefore(program, n, p);
    }
  }

  lemma OutgoingMask(program: seq<Instruction>, n: nat, m: Mask, out: Mask)
    requires n < |program| && IsMeet(program, n, n, Some(m)) && Executable(program[n])
    requires out == if program[n].op.St? || program[n].op.Stx? then m + {program[n].k} else m
    ensures IsOutgoing(program, n, out)
  {
  }

  lemma InitialMeet(program: seq<Instruction>, q: nat)
    requires |program| > 0 && q < |program|
    ensures IsMeet(program, 0, q, if q == 0 then Some({}) else None)
  {
    StartPath(program);
    if q == 0 {
      assert PathTo(program, 0, 0, [0]);
      forall k | 0 <= k < SCRATCH_WORDS
        ensures !StoredOnAll(program, 0, 0, k)
      {
        assert k !in StoredOn(program, [0]);
      }
    }
  }

  /** Every slot of the pass is the meet over the paths through the instructions before `n`. */
  ghost predicate Meets(program: seq<Instruction>, n: nat, incoming: array<Option<U16>>)
    reads incoming
  {
    incoming.Length == |program| && forall q :: 0 <= q < |program| ==> IsMeet(program, n, q, Held(incoming[q]))
  }

  lemma StartMeets(program: seq<Instruction>, incoming: array<Option<U16>>)
    requires |program| > 0 && incoming.Length == |program|
    requires forall q :: 0 <= q < |program| ==> incoming[q] == if q == 0 then Some(0) else None
    ensures Meets(program, 0, incoming)
  {
    EmptyMask();
    forall q | 0 <= q < |program|
      ensures IsMeet(program, 0, q, Held(incoming[q]))
    {
      InitialMeet(program, q);
    }
  }

  /** An instruction that no path reaches is skipped. */
  lemma SkipMeets(program: seq<Instruction>, n: nat, incoming: array<Option<U16>>)
    requires n < |program| && Meets(program, n, incoming) && incoming[n].None?
    ensures Meets(program, n + 1, incoming) && !UnsafeAt(program, n)
  {
    UnreachedSafe(program, n);
    forall q | 0 <= q < |program|
      ensures IsMeet(program, n + 1, q, Held(incoming[q]))
    {
      Unaffected(program, n, q, Held(incoming[q]));
    }
  }

  // ----- the pass -----

  /** The slots in `done` already count the paths through `n`; the others do not yet. */
  ghost predicate Merging(program: seq<Instruction>, n: nat, incoming: array<Option<U16>>, done: set<nat>)
    reads incoming
  {
    && n < |program| && incoming.Length == |program|
    && forall q :: 0 <= q < |program| ==> IsMeet(program, if q in done then n + 1 else n, q, Held(incoming[q]))
  }

  /** Merges a mask into one slot, which a conditional jump with equal targets does twice. */
  method MergeInitialized(incoming: array<Option<U16>>, q: nat, initialized: U16,
                          ghost program: seq<Instruction>, ghost n: nat, ghost done: set<nat>)
    requires Merging(program, n, incoming, done) && q < |program| && q in Successors(program[n], n)
    requires IsOutgoing(program, n, SetOf(initialized)) && exists p :: PathTo(program, n, n, p)
    modifies incoming
    ensures Merging(program, n, incoming, done + {q})
  {
    MergedSlot(program, n, incoming, done, q, SetOf(initialized));
    match incoming[q] {
      case Some(existing) =>
        AndIntersects(existing, initialized);
        incoming[q] := Some(And16(existing, initialized));
      case None =>
        incoming[q] := Some(initialized);
    }
  }

  lemma MergedSlot(program: seq<Instruction>, n: nat, incoming: array<Option<U16>>, done: set<nat>, q: nat, out: Mask)
    requires Merging(program, n, incoming, done) && q < |program| && q in Successors(program[n], n)
    requires IsOutgoing(program, n, out) && exists p :: PathTo(program, n, n, p)
    ensures IsMeet(program, n + 1, q, Merge(Held(incoming[q]), out))
  {
    if q in done {
      var p :| PathTo(program, n, n, p);
      ExtendPath(program, p, q);
      assert PathTo(program, n + 1, q, p + [q]);
      MergeAgain(program, n, q, Held(incoming[q]), out);
    } else {
      MergeStep(program, n, q, Held(incoming[q]), out);
    }
  }

  /** Once every successor inside the program is merged, all slots count the paths through `n`. */
  lemma MergedAll(program: seq<Instruction>, n: nat, incoming: array<Option<U16>>, done: set<nat>)
    requires Merging(program, n, incoming, done)
    requires forall q :: q in Successors(program[n], n) && q < |program| ==> q in done
    ensures Meets(program, n + 1, incoming)
  {
    forall q | 0 <= q < |program|
      ensures IsMeet(program, n + 1, q, Held(incoming[q]))
    {
      if q !in done {
        Unaffected(program, n, q, Held(incoming[q]));
      }
    }
  }

  /** Merges a mask into the successors of `n`, as the last part of one iteration does. */
  method Propagate(incoming: array<Option<U16>>, program: seq<Instruction>, n: nat, initialized: U16)
    requires n < |program| && Closed(program) && Meets(program, n, incoming)
    requires IsOutgoing(program, n, SetOf(initialized)) && exists p :: PathTo(program, n, n, p)
    modifies incoming
    ensures Meets(program, n + 1, incoming)
  {
    var i := program[n];
    ghost var done: set<nat> := {};
    if i.op.RetK? || i.op.RetA? {
    } else if i.op.Jump? {
      var yes, no := n + 1 + i.jt, n + 1 + i.jf;
      assert yes in Successors(i, n) && no in Successors(i, n);
      MergeInitialized(incoming, yes, initialized, program, n, done);
      done := done + {yes};
      MergeInitialized(incoming, no, initialized, program, n, done);
      done := done + {no};
    } else {
      var next := if i.op.Ja? then n + 1 + i.k else n + 1;
      assert next in Successors(i, n);
      MergeInitialized(incoming, next, initialized, program, n, done);
      done := done + {next};
    }
    MergedAll(program, n, incoming, done);
  }

  /**
   The scratch pass: `None` exactly when no path reads an unstored word, and otherwise
   the first instruction at which some path does.
   */
  method CheckScratch(program: seq<Instruction>) returns (bad: Option<nat>)
    requires Closed(program)
    ensures bad.None? <==> ScratchSafe(program)
    ensures bad.Some? ==> UnsafeAt(program, bad.value) && forall q: nat :: q < bad.value ==> !UnsafeAt(program, q)
  {
    var incoming := new Option<U16>[|program|](q => if q == 0 then Some(0) else None);
    StartMeets(program, incoming);
    SafeMeansNowhereUnsafe(program);
    for n := 0 to |program|
      invariant Meets(program, n, incoming)
      invariant forall q: nat :: q < n ==> !UnsafeAt(program, q)
    {
      var i := program[n];
      if incoming[n].None? {
        SkipMeets(program, n, incoming);
      } else {
        var initialized := incoming[n].value;
        ghost var mask := SetOf(initialized);
        if i.op.LdMem? || i.op.LdxMem? {
          ReadDecided(program, n, mask);
          TestIsMember(initialized, i.k);
          if And16(initialized, Bit16(i.k)) == 0 {
            return Some(n);
          }
        }
        if i.op.St? || i.op.Stx? {
          OrAdds(initialized, i.k);
          initialized := Or16(initialized, Bit16(i.k));
        }
        OutgoingMask(program, n, mask, SetOf(initialized));
        Propagate(incoming, program, n, initialized);
      }
    }
    return None;
  }
}
