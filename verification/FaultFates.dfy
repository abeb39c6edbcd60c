/**
 What a request has become, told from the moves alone: it waits for delivery until
 it is claimed or made visible, its result is the one it was completed with, and it
 is visible once a completion or a release made it so.
 */
module FaultFates {
  import opened Words
  import opened LinkedLists
  import opened FaultBoard
  import opened FaultHistory
  import BrokerSweeps

  /** The move makes the request's result visible. */
  predicate Reveals(m: Move, s: nat) { m == Releasing(s) || (m.Completing? && m.slot == s && m.visible) }

  /** The move ends the request's wait for delivery. */
  predicate EndsWait(m: Move, s: nat) { m == Claiming(s) || Reveals(m, s) }

  /** The move gives the request its result. */
  predicate Decides(m: Move, s: nat, c: Completion) { m.Completing? && m.slot == s && m.completion == c }

  // ----- one move -----

  /**
   A completion that stays deferred moves nothing in the queue: the request waits exactly as it did,
   with its result.
   */
  lemma DeferredStaysQueued(b: Board, s: nat, c: Completion)
    requires WellFormed(b) && Allowed(b, Completing(s, c, false))
    ensures var t := After(b, Completing(s, c, false));
            && t.fifo == b.fifo && s in t.requests
            && ResultOf(t.requests[s].state) == Some(c) && !t.requests[s].state.Visible?
            && t == b.(requests := b.requests[s := b.requests[s].(state := t.requests[s].state)])
  {
    assert b.requests[s].state.Delivered? ==> s !in b.fifo;
  }

  /** A claim takes the request out of the queue and leaves its result alone. */
  lemma ClaimKeepsResult(b: Board, s: nat)
    requires Allowed(b, Claiming(s))
    ensures var t := After(b, Claiming(s)).requests[s].state;
            ResultOf(t) == ResultOf(b.requests[s].state) && !t.Visible? && !Waiting(t)
  {
  }

  lemma StateFate(b: Board, m: Move, s: nat, c: Completion)
    requires Allowed(b, m) && s in b.requests && s in After(b, m).requests
    requires m.Admission? ==> m.slot != s
    ensures var before, after := b.requests[s].state, After(b, m).requests[s].state;
            && (Waiting(after) <==> Waiting(before) && !EndsWait(m, s))
            && (ResultOf(after) == Some(c) <==> ResultOf(before) == Some(c) || Decides(m, s, c))
            && (after.Visible? <==> before.Visible? || Reveals(m, s))
  {
  }

  /** What one move does to a request that it leaves in place. */
  lemma MoveFate(b: Board, m: Move, s: nat, c: Completion)
    requires WellFormed(b) && Allowed(b, m) && s in b.requests && s in After(b, m).requests
    ensures s in After(b, m).fifo <==> s in b.fifo && !EndsWait(m, s)
    ensures var before, after := b.requests[s].state, After(b, m).requests[s].state;
            && (ResultOf(after) == Some(c) <==> ResultOf(before) == Some(c) || Decides(m, s, c))
            && (after.Visible? <==> before.Visible? || Reveals(m, s))
  {
    MoveKeeps(b, m);
    StateFate(b, m, s, c);
  }

  // ----- whole histories -----

  predicate WaitEnded(moves: seq<Move>, i: nat, j: nat, s: nat)
    requires j <= |moves|
  {
    exists k :: i < k < j && EndsWait(moves[k], s)
  }

  predicate Decided(moves: seq<Move>, i: nat, j: nat, s: nat, c: Completion)
    requires j <= |moves|
  {
    exists k :: i < k < j && Decides(moves[k], s, c)
  }

  predicate Revealed(moves: seq<Move>, i: nat, j: nat, s: nat)
    requires j <= |moves|
  {
    exists k :: i < k < j && Reveals(moves[k], s)
  }

  /** One more move. */
  lemma OneMore(moves: seq<Move>, i: nat, j: nat, s: nat, c: Completion)
    requires i < j < |moves|
    ensures WaitEnded(moves, i, j + 1, s) <==> WaitEnded(moves, i, j, s) || EndsWait(moves[j], s)
    ensures Decided(moves, i, j + 1, s, c) <==> Decided(moves, i, j, s, c) || Decides(moves[j], s, c)
    ensures Revealed(moves, i, j + 1, s) <==> Revealed(moves, i, j, s) || Reveals(moves[j], s)
  {
  }

  /** A slot that is in use after a move without a new generation was in use before it. */
  lemma SameGeneration(b: Board, m: Move, s: nat)
    requires Allowed(b, m) && s < |b.requestGen|
    ensures |After(b, m).requestGen| == |b.requestGen| && After(b, m).requestGen[s] >= b.requestGen[s]
    ensures s in After(b, m).requests && After(b, m).requestGen[s] == b.requestGen[s] ==> s in b.requests
  {
  }

  lemma {:induction false} GenerationGrows(boards: seq<Board>, moves: seq<Move>, i: nat, j: nat, s: nat)
    requires IsHistory(boards, moves) && i <= j < |boards| && s < |boards[i].requestGen|
    ensures |boards[j].requestGen| == |boards[i].requestGen| && boards[j].requestGen[s] >= boards[i].requestGen[s]
    decreases j - i
  {
    if i < j {
      GenerationGrows(boards, moves, i, j - 1, s);
      HistoryMove(boards, moves, j - 1);
      SameGeneration(boards[j - 1], moves[j - 1], s);
    }
  }

  /** The request admitted by move `i` is still in its slot. */
  predicate StillThere(boards: seq<Board>, moves: seq<Move>, i: nat, j: nat)
    requires |boards| == |moves| + 1 && i < |moves| && i < j < |boards| && moves[i].Admission?
  {
    var s := moves[i].slot;
    s < |boards[i + 1].requestGen| && Names(boards[j], s, boards[i + 1].requestGen[s])
  }

  lemma ThereBefore(boards: seq<Board>, moves: seq<Move>, i: nat, j: nat)
    requires IsHistory(boards, moves) && i < |moves| && i + 1 < j < |boards| && moves[i].Admission?
    requires StillThere(boards, moves, i, j)
    ensures StillThere(boards, moves, i, j - 1)
  {
    var s := moves[i].slot;
    GenerationGrows(boards, moves, i + 1, j - 1, s);
    HistoryMove(boards, moves, j - 1);
    SameGeneration(boards[j - 1], moves[j - 1], s);
  }

  lemma AdmittedFresh(b: Board, m: Move, c: Completion)
    requires WellFormed(b) && Allowed(b, m) && m.Admission?
    ensures var t := After(b, m);
            && t.fifo == b.fifo + [m.slot] && m.slot in t.requests
            && t.requests[m.slot].handler == m.handler && t.requests[m.slot].key == m.key
            && ResultOf(t.requests[m.slot].state) != Some(c) && !t.requests[m.slot].state.Visible?
  {
  }

  /**
   What the moves after `i` say of the request in slot `s`: it waits for delivery exactly as long as it was neither
   claimed nor made visible, its result is exactly the one it was completed with, and it is visible exactly when a
   completion or a release made it so.
   */
  predicate Tells(moves: seq<Move>, i: nat, j: nat, s: nat, c: Completion, b: Board)
    requires j <= |moves| && s in b.requests
  {
    && (s in b.fifo <==> !WaitEnded(moves, i, j, s))
    && (ResultOf(b.requests[s].state) == Some(c) <==> Decided(moves, i, j, s, c))
    && (b.requests[s].state.Visible? <==> Revealed(moves, i, j, s))
  }

  lemma TellsNext(moves: seq<Move>, i: nat, j: nat, s: nat, c: Completion, b: Board)
    requires i < j < |moves| && WellFormed(b) && Allowed(b, moves[j])
    requires s in b.requests && s in After(b, moves[j]).requests && Tells(moves, i, j, s, c, b)
    ensures Tells(moves, i, j + 1, s, c, After(b, moves[j]))
  {
    MoveFate(b, moves[j], s, c);
    OneMore(moves, i, j, s, c);
  }

  lemma TellsFirst(moves: seq<Move>, i: nat, c: Completion, b: Board)
    requires i < |moves| && moves[i].Admission? && WellFormed(b) && Allowed(b, moves[i])
    ensures moves[i].slot in After(b, moves[i]).requests
    ensures Tells(moves, i, i + 1, moves[i].slot, c, After(b, moves[i]))
  {
    AdmittedFresh(b, moves[i], c);
  }

  lemma TellsAdmitted(boards: seq<Board>, moves: seq<Move>, i: nat, c: Completion)
    requires IsHistory(boards, moves) && i < |moves| && moves[i].Admission?
    ensures moves[i].slot in boards[i + 1].requests && Tells(moves, i, i + 1, moves[i].slot, c, boards[i + 1])
  {
    HistoryWellFormed(boards, moves, i);
    HistoryMove(boards, moves, i);
    TellsFirst(moves, i, c, boards[i]);
  }

  lemma TellsOn(boards: seq<Board>, moves: seq<Move>, i: nat, j: nat, s: nat, c: Completion)
    requires IsHistory(boards, moves) && i < j < |moves| && s in boards[j].requests && s in boards[j + 1].requests
    requires Tells(moves, i, j, s, c, boards[j])
    ensures Tells(moves, i, j + 1, s, c, boards[j + 1])
  {
    HistoryWellFormed(boards, moves, j);
    HistoryMove(boards, moves, j);
    TellsNext(moves, i, j, s, c, boards[j]);
  }

  /** As long as an admitted request is in its slot, the moves tell what has become of it. */
  lemma {:induction false} Fate(boards: seq<Board>, moves: seq<Move>, i: nat, j: nat, c: Completion)
    requires IsHistory(boards, moves) && i < |moves| && i < j < |boards| && moves[i].Admission?
    requires StillThere(boards, moves, i, j)
    ensures Tells(moves, i, j, moves[i].slot, c, boards[j])
    decreases j
  {
    if j == i + 1 {
      TellsAdmitted(boards, moves, i, c);
    } else {
      ThereBefore(boards, moves, i, j);
      Fate(boards, moves, i, j - 1, c);
      TellsOn(boards, moves, i, j - 1, moves[i].slot, c);
    }
  }

  /** What may still happen to an admitted request, told from the moves. */
  ghost predicate Open(moves: seq<Move>, i: nat, j: nat, s: nat)
    requires j <= |moves|
  {
    forall c: Completion :: !Decided(moves, i, j, s, c)
  }

  lemma ResultTold(boards: seq<Board>, moves: seq<Move>, i: nat, j: nat)
    requires IsHistory(boards, moves) && i < |moves| && i < j < |boards| && moves[i].Admission?
    requires StillThere(boards, moves, i, j)
    ensures ResultOf(boards[j].requests[moves[i].slot].state).None? <==> Open(moves, i, j, moves[i].slot)
  {
    var s := moves[i].slot;
    forall c: Completion
      ensures ResultOf(boards[j].requests[s].state) == Some(c) <==> Decided(moves, i, j, s, c)
    {
      Fate(boards, moves, i, j, c);
    }
    if ResultOf(boards[j].requests[s].state).Some? {
      assert Decided(moves, i, j, s, ResultOf(boards[j].requests[s].state).value);
    }
  }

  /**
   An admitted request in its slot can be claimed exactly as long as it was neither claimed nor made visible,
   completed exactly as long as it was not completed, and released exactly between its completion and its visibility.
   */
  lemma StaysClaimable(boards: seq<Board>, moves: seq<Move>, i: nat, j: nat, c: Completion, visible: bool)
    requires IsHistory(boards, moves) && i < |moves| && i < j < |boards| && moves[i].Admission?
    requires StillThere(boards, moves, i, j)
    ensures var s := moves[i].slot;
            && (Allowed(boards[j], Claiming(s)) <==> !WaitEnded(moves, i, j, s))
            && (Allowed(boards[j], Completing(s, c, visible)) <==> Open(moves, i, j, s))
            && (Allowed(boards[j], Releasing(s)) <==> !Open(moves, i, j, s) && !Revealed(moves, i, j, s))
  {
    Fate(boards, moves, i, j, c);
    ResultTold(boards, moves, i, j);
    HistoryWellFormed(boards, moves, j);
  }

  /** The phase that a snapshot shows of an admitted request, told from the moves. */
  lemma PhaseTold(boards: seq<Board>, moves: seq<Move>, i: nat, j: nat)
    requires IsHistory(boards, moves) && i < |moves| && i < j < |boards| && moves[i].Admission?
    requires StillThere(boards, moves, i, j)
    ensures var s := moves[i].slot;
            var waits, open, seen := !WaitEnded(moves, i, j, s), Open(moves, i, j, s), Revealed(moves, i, j, s);
            BrokerSweeps.PhaseOf(boards[j].requests[s].state) ==
              if seen then BrokerSweeps.TerminalVisible
              else if waits && open then BrokerSweeps.RequestPhase.Pending
              else if waits then BrokerSweeps.RequestPhase.DeferredPending
              else if open then BrokerSweeps.RequestPhase.Delivered
              else BrokerSweeps.RequestPhase.DeferredDelivered
  {
    Fate(boards, moves, i, j, 0);
    ResultTold(boards, moves, i, j);
    HistoryWellFormed(boards, moves, j);
  }
}
