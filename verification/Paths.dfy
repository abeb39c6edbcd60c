/**
 Control-flow paths of a program and the scratch words stored along them: the
 declarative meaning that the one-pass scratch analysis has to compute.
 */
module Paths {
  import opened Words
  import opened Bpf

  function Last(p: seq<nat>): nat
    requires |p| > 0
  {
    p[|p| - 1]
  }

  function StoredBy(i: Instruction): set<nat> { if i.op.St? || i.op.Stx? then {i.k} else {} }

  predicate Reads(i: Instruction) { i.op.LdMem? || i.op.LdxMem? }

  /** A walk from the first instruction along successors. */
  predicate IsPath(program: seq<Instruction>, p: seq<nat>) {
    && |p| > 0 && p[0] == 0
    && (forall i :: 0 <= i < |p| ==> p[i] < |program|)
    && (forall i :: 0 < i < |p| ==> p[i] in Successors(program[p[i - 1]], p[i - 1]))
  }

  /** The scratch words stored before the last instruction of a path. */
  function StoredOn(program: seq<Instruction>, p: seq<nat>): set<nat>
    requires forall i :: 0 <= i < |p| ==> p[i] < |program|
  {
    if |p| <= 1 then {} else StoredOn(program, p[..|p| - 1]) + StoredBy(program[p[|p| - 2]])
  }

  /** No path reaches a scratch load whose word was not stored on it. */
  ghost predicate ScratchSafe(program: seq<Instruction>) {
    forall p :: IsPath(program, p) && Reads(program[Last(p)]) ==> program[Last(p)].k in StoredOn(program, p)
  }

  lemma StartPath(program: seq<Instruction>)
    requires |program| > 0
    ensures IsPath(program, [0]) && StoredOn(program, [0]) == {}
  {
  }

  lemma ExtendPath(program: seq<Instruction>, p: seq<nat>, q: nat)
    requires IsPath(program, p) && q < |program| && q in Successors(program[Last(p)], Last(p))
    ensures IsPath(program, p + [q]) && Last(p + [q]) == q
    ensures StoredOn(program, p + [q]) == StoredOn(program, p) + StoredBy(program[Last(p)])
  {
    assert (p + [q])[..|p|] == p;
  }

  /** Two scratch stores that agree on what a path stored cannot be told apart from there. */
  lemma {:induction false} SameResult(program: seq<Instruction>, p: seq<nat>, v: Vm, w: Vm, input: Input)
    requires Closed(program) && ScratchSafe(program) && IsPath(program, p)
    requires ValidVm(v) && ValidVm(w) && v.a == w.a && v.x == w.x
    requires forall k :: k in StoredOn(program, p) ==> k < SCRATCH_WORDS && v.m[k] == w.m[k]
    ensures Evaluate(program, Last(p), v, input) == Evaluate(program, Last(p), w, input)
    decreases |program| - Last(p)
  {
    var pc := Last(p);
    var i := program[pc];
    StepStays(i, pc, v, input);
    StepStays(i, pc, w, input);
    StepAgrees(i, pc, v, w, input, StoredOn(program, p));
    var o := Step(i, pc, v, input);
    if o.Next? {
      ExtendPath(program, p, o.pc);
      SameResult(program, p + [o.pc], o.vm, Step(i, pc, w, input).vm, input);
    }
  }

  lemma StepAgrees(i: Instruction, pc: nat, v: Vm, w: Vm, input: Input, known: set<nat>)
    requires Executable(i) && ValidVm(v) && ValidVm(w) && v.a == w.a && v.x == w.x
    requires forall k :: k in known ==> k < SCRATCH_WORDS && v.m[k] == w.m[k]
    requires Reads(i) ==> i.k in known
    ensures var o, r := Step(i, pc, v, input), Step(i, pc, w, input);
            && (o.Done? ==> o == r)
            && (o.Next? ==> r.Next? && o.pc == r.pc && o.vm.a == r.vm.a && o.vm.x == r.vm.x
                            && forall k :: k in known + StoredBy(i) ==> k < SCRATCH_WORDS && o.vm.m[k] == r.vm.m[k])
  {
  }

  /** For accepted programs the result does not depend on what the scratch words held at entry. */
  lemma ScratchIrrelevant(program: seq<Instruction>, m: seq<U32>, n: seq<U32>, input: Input)
    requires Closed(program) && ScratchSafe(program) && |m| == SCRATCH_WORDS && |n| == SCRATCH_WORDS
    ensures Evaluate(program, 0, Vm(0, 0, m), input) == Evaluate(program, 0, Vm(0, 0, n), input)
  {
    StartPath(program);
    SameResult(program, [0], Vm(0, 0, m), Vm(0, 0, n), input);
  }
}
