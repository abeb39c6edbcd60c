/**
 Sweeps over all request slots: what a request looks like from outside, and the
 board after the selected requests changed their states one slot after another.
 */
module BrokerSweeps {
  import opened Words
  import opened FaultBoard
  import opened FaultHistory
  import opened BrokerSlots

  /** Observable phase of a request. */
  datatype RequestPhase = Pending | Delivered | DeferredPending | DeferredDelivered | TerminalVisible

  function PhaseOf(s: RequestState): RequestPhase {
    match s
    case Pending => RequestPhase.Pending
    case Delivered => RequestPhase.Delivered
    case DeferredPending(_) => RequestPhase.DeferredPending
    case DeferredDelivered(_) => RequestPhase.DeferredDelivered
    case Visible(_) => RequestPhase.TerminalVisible
  }

  datatype Snapshot = Snapshot(token: Token, key: Key, handler: Handler, phase: RequestPhase, waiters: nat)

  function SnapshotOf(id: nat, b: Board, s: nat): Snapshot
    requires s in b.requests && s < |b.requestGen|
  {
    var e := b.requests[s];
    Snapshot(Token(id, s, b.requestGen[s]), e.key, e.handler, PhaseOf(e.state), |e.waiters|)
  }

  datatype Summary = Summary(completed: nat, released: nat, waiters: nat)

  /** Only states change. */
  ghost predicate Swept(b: Board, c: Board, next: nat -> RequestState) {
    && c.requests.Keys == b.requests.Keys && c.owners == b.owners && c.requestGen == b.requestGen
       && c.waiterGen == b.waiterGen && c.clock == b.clock
    && forall s :: s in b.requests ==> c.requests[s] == b.requests[s].(state := next(s))
  }

  /** A live request that passes the state test and is picked by its snapshot. */
  predicate Selected(id: nat, b: Board, pick: Snapshot -> bool, test: RequestState -> bool, s: nat) {
    s in b.requests && s < |b.requestGen| && test(b.requests[s].state) && pick(SnapshotOf(id, b, s))
  }

  function Selection(id: nat, b: Board, n: nat, pick: Snapshot -> bool, test: RequestState -> bool): set<nat> {
    set s | s in b.requests && s < n && Selected(id, b, pick, test, s)
  }

  /** The states once the selected requests among the first `n` slots were turned. */
  function Turned(id: nat, b: Board, n: nat, pick: Snapshot -> bool, test: RequestState -> bool,
                  turn: RequestState -> RequestState): nat -> RequestState {
    (s: nat) =>
      if s !in b.requests then RequestState.Pending
      else if s < n && Selected(id, b, pick, test, s) then turn(b.requests[s].state)
      else b.requests[s].state
  }

  /** The result that a completion gives an open request. */
  function CompletedBy(c: Completion, visible: bool): RequestState -> RequestState {
    (s: RequestState) => CompletedState(s, c, visible)
  }

  /** A deferred result becomes visible as it is. */
  function Revealed(s: RequestState): RequestState { if IsDeferred(s) then Visible(s.completion) else s }

  /** The states once every live request of a handler was made terminal and visible. */
  function Detached(b: Board, h: Handler, c: Completion): nat -> RequestState {
    (s: nat) =>
      if s !in b.requests then RequestState.Pending
      else if b.requests[s].handler != h then b.requests[s].state
      else if IsOpen(b.requests[s].state) then Visible(c)
      else Revealed(b.requests[s].state)
  }

  /** One more state of a sweep. */
  lemma SweptNext(b: Board, d: Board, next: nat -> RequestState, after: nat -> RequestState, n: nat,
                  state: RequestState)
    requires Swept(b, d, next) && n in b.requests && after(n) == state && forall s :: s in b.requests && s != n ==>
               after(s) == next(s)
    ensures n in d.requests && Swept(b, WithState(d, n, state), after)
  {
  }

  lemma SweptSame(b: Board, d: Board, next: nat -> RequestState, after: nat -> RequestState)
    requires Swept(b, d, next) && forall s :: s in b.requests ==> after(s) == next(s)
    ensures Swept(b, d, after)
  {
  }

  /** A slot that the sweep has not reached is as it was. */
  lemma Unswept(id: nat, b: Board, d: Board, next: nat -> RequestState, n: nat, pick: Snapshot -> bool,
                test: RequestState -> bool)
    requires Swept(b, d, next) && (n in b.requests ==> next(n) == b.requests[n].state)
    ensures (n in d.requests <==> n in b.requests) && (n in b.requests ==> d.requests[n] == b.requests[n])
    ensures Selected(id, d, pick, test, n) <==> Selected(id, b, pick, test, n)
  {
  }

  lemma SelectionNext(id: nat, b: Board, n: nat, pick: Snapshot -> bool, test: RequestState -> bool)
    ensures |Selection(id, b, n + 1, pick, test)| == |Selection(id, b, n, pick, test)| +
            if Selected(id, b, pick, test, n) then 1 else 0
  {
    if Selected(id, b, pick, test, n) {
      assert Selection(id, b, n + 1, pick, test) == Selection(id, b, n, pick, test) + {n};
    } else {
      assert Selection(id, b, n + 1, pick, test) == Selection(id, b, n, pick, test);
    }
  }

  lemma TurnedAt(id: nat, b: Board, n: nat, pick: Snapshot -> bool, test: RequestState -> bool,
                 turn: RequestState -> RequestState)
    ensures n in b.requests ==> Turned(id, b, n, pick, test, turn)(n) == b.requests[n].state
    ensures Selected(id, b, pick, test, n) ==> Turned(id, b, n + 1, pick, test, turn)(n) == turn(b.requests[n].state)
    ensures forall s :: s in b.requests && !(s == n && Selected(id, b, pick, test, n)) ==>
              Turned(id, b, n + 1, pick, test, turn)(s) == Turned(id, b, n, pick, test, turn)(s)
  {
  }

  lemma TurnedOn(
    id: nat, b: Board, d: Board, e: Board, done: bool, n: nat, pick: Snapshot -> bool, test: RequestState -> bool,
      turn: RequestState -> RequestState, next: nat -> RequestState, after: nat -> RequestState)
    requires Swept(b, d, next) && (done <==> Selected(id, d, pick, test, n))
    requires e == if done then WithState(d, n, turn(d.requests[n].state)) else d
    requires n in b.requests ==> next(n) == b.requests[n].state
    requires Selected(id, b, pick, test, n) ==> after(n) == turn(b.requests[n].state)
    requires forall s :: s in b.requests && !(s == n && Selected(id, b, pick, test, n)) ==> after(s) == next(s)
    ensures Swept(b, e, after) && (done <==> Selected(id, b, pick, test, n))
  {
    Unswept(id, b, d, next, n, pick, test);
    if done {
      SweptNext(b, d, next, after, n, turn(d.requests[n].state));
    } else {
      SweptSame(b, d, next, after);
    }
  }

  /** One more slot of a sweep. */
  lemma SweepNext(
    id: nat, b: Board, d: Board, e: Board, done: bool, n: nat, pick: Snapshot -> bool, test: RequestState -> bool,
      turn: RequestState -> RequestState)
    requires Swept(b, d, Turned(id, b, n, pick, test, turn)) && (done <==> Selected(id, d, pick, test, n))
    requires e == if done then WithState(d, n, turn(d.requests[n].state)) else d
    ensures Swept(b, e, Turned(id, b, n + 1, pick, test, turn))
    ensures |Selection(id, b, n + 1, pick, test)| == |Selection(id, b, n, pick, test)| + if done then 1 else 0
  {
    TurnedAt(id, b, n, pick, test, turn);
    SelectionNext(id, b, n, pick, test);
    TurnedOn(id, b, d, e, done, n, pick, test, turn, Turned(id, b, n, pick, test, turn),
             Turned(id, b, n + 1, pick, test, turn));
  }

  /**
   A sweep that has passed the first `n` slots: the history behind it, the states
   it has reached, how many requests it turned and how many waiters that made ready.
   */
  ghost predicate Underway(
    id: nat, b: Board, d: Board, n: nat, pick: Snapshot -> bool, test: RequestState -> bool,
      turn: RequestState -> RequestState, boards: seq<Board>, moves: seq<Move>, count: nat, waiters: nat)
  {
    && Leads(b, boards, moves, d) && Swept(b, d, Turned(id, b, n, pick, test, turn))
    && count == |Selection(id, b, n, pick, test)| && |ReadySet(d)| == |ReadySet(b)| + waiters
  }

  predicate LookSweep(d: Board, n: nat, k: nat) { true }

  /** The same, unfolded on demand. */
  ghost predicate Sweeping(
    id: nat, b: Board, d: Board, n: nat, pick: Snapshot -> bool, test: RequestState -> bool,
      turn: RequestState -> RequestState, boards: seq<Board>, moves: seq<Move>, count: nat, waiters: nat)
  {
    forall k: nat {:trigger LookSweep(d, n, k)} :: LookSweep(d, n, k) ==>
        Underway(id, b, d, n, pick, test, turn, boards, moves, count, waiters)
  }

  lemma SweepStart(id: nat, b: Board, pick: Snapshot -> bool, test: RequestState -> bool,
                   turn: RequestState -> RequestState)
    requires Formed(b)
    ensures Sweeping(id, b, b, 0, pick, test, turn, [b], [], 0, 0)
  {
    assert LookBoard(b, 0);
    assert Selection(id, b, 0, pick, test) == {};
  }

  lemma SweepSkip(
    id: nat, b: Board, d: Board, n: nat, pick: Snapshot -> bool, test: RequestState -> bool,
      turn: RequestState -> RequestState, boards: seq<Board>, moves: seq<Move>, count: nat, waiters: nat)
    requires Sweeping(id, b, d, n, pick, test, turn, boards, moves, count, waiters) && !Selected(id, d, pick, test, n)
    ensures Sweeping(id, b, d, n + 1, pick, test, turn, boards, moves, count, waiters)
  {
    assert LookSweep(d, n, 0);
    SweepNext(id, b, d, d, false, n, pick, test, turn);
  }

  lemma SweepStep(
    id: nat, b: Board, d: Board, n: nat, pick: Snapshot -> bool, test: RequestState -> bool,
      turn: RequestState -> RequestState,
    boards: seq<Board>, moves: seq<Move>, count: nat, waiters: nat, m: Move, released: nat)
    requires Sweeping(id, b, d, n, pick, test, turn, boards, moves, count, waiters) && Selected(id, d, pick, test, n)
    requires Allowed(d, m) && After(d, m) == WithState(d, n, turn(d.requests[n].state))
             && |ReadySet(After(d, m))| == |ReadySet(d)| + released
    ensures Sweeping(id, b, After(d, m), n + 1, pick, test, turn, boards + [After(d, m)], moves + [m], count + 1,
                     waiters + released)
  {
    assert LookSweep(d, n, 0);
    LeadsOn(b, boards, moves, d, m);
    SweepNext(id, b, d, After(d, m), true, n, pick, test, turn);
  }

  lemma CompletingTurns(id: nat, d: Board, n: nat, pick: Snapshot -> bool, c: Completion, visible: bool,
                        turn: RequestState -> RequestState)
    requires Selected(id, d, pick, IsOpen, n) && turn == CompletedBy(c, visible)
    ensures Allowed(d, Completing(n, c, visible))
            && After(d, Completing(n, c, visible)) == WithState(d, n, turn(d.requests[n].state))
  {
  }

  lemma ReleasingTurns(id: nat, d: Board, n: nat, pick: Snapshot -> bool, turn: RequestState -> RequestState)
    requires Selected(id, d, pick, IsDeferred, n) && turn == Revealed
    ensures Allowed(d, Releasing(n)) && After(d, Releasing(n)) == WithState(d, n, turn(d.requests[n].state))
  {
  }

  /** Two sweeps in a row. */
  lemma SweptTwice(b: Board, d: Board, e: Board, next: nat -> RequestState, after: nat -> RequestState,
                   both: nat -> RequestState)
    requires Swept(b, d, next) && Swept(d, e, after) && forall s :: s in b.requests ==> both(s) == after(s)
    ensures Swept(b, e, both)
  {
  }

  function OwnedBy(h: Handler): Snapshot -> bool { (s: Snapshot) => s.handler == h }

  lemma DetachedState(id: nat, b: Board, d: Board, h: Handler, c: Completion, n: nat, s: nat)
    requires Swept(b, d, Turned(id, b, n, OwnedBy(h), IsOpen, CompletedBy(c, true))) && s in b.requests
             && s < n <= |b.requestGen|
    ensures Turned(id, d, n, OwnedBy(h), IsDeferred, Revealed)(s) == Detached(b, h, c)(s)
  {
    assert d.requests[s] == b.requests[s].(state := Turned(id, b, n, OwnedBy(h), IsOpen, CompletedBy(c, true))(s));
    assert Selected(id, b, OwnedBy(h), IsOpen, s) <==> b.requests[s].handler == h && IsOpen(b.requests[s].state);
    assert Selected(id, d, OwnedBy(h), IsDeferred, s) <==>
             b.requests[s].handler == h && IsDeferred(d.requests[s].state);
  }

  lemma BothSwept(id: nat, b: Board, d: Board, e: Board, h: Handler, c: Completion)
    requires EntriesOk(b)
    requires Swept(b, d, Turned(id, b, |b.requestGen|, OwnedBy(h), IsOpen, CompletedBy(c, true)))
    requires Swept(d, e, Turned(id, d, |b.requestGen|, OwnedBy(h), IsDeferred, Revealed))
    ensures Swept(b, e, Detached(b, h, c))
  {
    forall s | s in b.requests
      ensures Detached(b, h, c)(s) == Turned(id, d, |b.requestGen|, OwnedBy(h), IsDeferred, Revealed)(s) {
      assert EntryOk(b, s);
      DetachedState(id, b, d, h, c, |b.requestGen|, s);
    }
    SweptTwice(b, d, e, Turned(id, b, |b.requestGen|, OwnedBy(h), IsOpen, CompletedBy(c, true)),
               Turned(id, d, |b.requestGen|, OwnedBy(h), IsDeferred, Revealed), Detached(b, h, c));
  }

  /** Completing visibly defers nothing and reveals nothing, so the deferred requests are the same as before. */
  lemma SameDeferred(id: nat, b: Board, d: Board, h: Handler, c: Completion)
    requires Swept(b, d, Turned(id, b, |b.requestGen|, OwnedBy(h), IsOpen, CompletedBy(c, true)))
    ensures Selection(id, d, |d.requestGen|, OwnedBy(h), IsDeferred) ==
            Selection(id, b, |b.requestGen|, OwnedBy(h), IsDeferred)
  {
    forall s ensures Selected(id, d, OwnedBy(h), IsDeferred, s) <==> Selected(id, b, OwnedBy(h), IsDeferred, s) {
      if s in b.requests {
        assert d.requests[s] ==
               b.requests[s].(state := Turned(id, b, |b.requestGen|, OwnedBy(h), IsOpen, CompletedBy(c, true))(s));
      }
    }
  }

  /** Completing and then releasing everything of a handler detaches it. */
  lemma SweepsDetach(
    id: nat, b: Board, d: Board, e: Board, h: Handler, c: Completion, boards: seq<Board>, moves: seq<Move>,
      more: seq<Board>, next: seq<Move>, completed: nat, released: nat, waiters: nat, others: nat)
    requires Formed(b)
    requires Sweeping(id, b, d, |b.requestGen|, OwnedBy(h), IsOpen, CompletedBy(c, true), boards, moves, completed,
                      waiters)
    requires Sweeping(id, d, e, |d.requestGen|, OwnedBy(h), IsDeferred, Revealed, more, next, released, others)
    ensures |more| > 0 && Leads(b, boards + more[1..], moves + next, e) && Swept(b, e, Detached(b, h, c))
    ensures |ReadySet(e)| == |ReadySet(b)| + waiters + others
    ensures completed == |Selection(id, b, |b.requestGen|, OwnedBy(h), IsOpen)|
    ensures released == |Selection(id, b, |b.requestGen|, OwnedBy(h), IsDeferred)|
  {
    assert LookBoard(b, 0) && LookSweep(d, |b.requestGen|, 0) && LookSweep(e, |d.requestGen|, 0);
    BothSwept(id, b, d, e, h, c);
    SameDeferred(id, b, d, h, c);
    LeadsThrough(b, boards, moves, d, more, next, e);
  }

  /** A detached handler has no open or deferred request left, and earlier results are kept. */
  lemma DetachedIsFinal(b: Board, e: Board, h: Handler, c: Completion, s: nat)
    requires Swept(b, e, Detached(b, h, c)) && s in e.requests && e.requests[s].handler == h
    ensures s in b.requests && e.requests[s].state.Visible?
    ensures e.requests[s].state.completion ==
            (if ResultOf(b.requests[s].state).Some? then ResultOf(b.requests[s].state).value else c)
  {
  }

  /** One history after another. */
  lemma LeadsThrough(b: Board, boards: seq<Board>, moves: seq<Move>, c: Board, more: seq<Board>, next: seq<Move>,
                     d: Board)
    requires Leads(b, boards, moves, c) && Leads(c, more, next, d)
    ensures Leads(b, boards + more[1..], moves + next, d)
  {
    var bs, ms := boards + more[1..], moves + next;
    forall i: nat | i < |ms| ensures Allowed(bs[i], ms[i]) && bs[i + 1] == After(bs[i], ms[i]) {
      if i < |moves| {
        HistoryMove(boards, moves, i);
        assert bs[i] == boards[i] && bs[i + 1] == boards[i + 1] && ms[i] == moves[i];
      } else {
        var j := i - |moves|;
        HistoryMove(more, next, j);
        assert bs[i] == more[j] && bs[i + 1] == more[j + 1] && ms[i] == next[j];
      }
    }
  }
}
