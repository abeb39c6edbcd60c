/**
 Whole histories of a fault broker: a result never changes once it is fixed, a
 request is claimed at most once, a waiter becomes ready at most once and keeps
 its result, and no generation of a slot is ever issued twice.
 */
module FaultHistory {
  import opened Words
  import opened LinkedLists
  import opened FaultBoard

  /** Names the moves of a history, so that they are looked at one at a time. */
  predicate Made(i: nat) { true }

  ghost predicate IsHistory(boards: seq<Board>, moves: seq<Move>) {
    && |boards| == |moves| + 1 && WellFormed(boards[0])
    && forall i: nat {:trigger Made(i)} :: Made(i) && i < |moves| ==>
         Allowed(boards[i], moves[i]) && boards[i + 1] == After(boards[i], moves[i])
  }

  lemma HistoryMove(boards: seq<Board>, moves: seq<Move>, i: nat)
    requires IsHistory(boards, moves) && i < |moves|
    ensures Allowed(boards[i], moves[i]) && boards[i + 1] == After(boards[i], moves[i])
  {
    assert Made(i);
  }

  lemma HistoryKeeps(boards: seq<Board>, moves: seq<Move>, i: nat)
    requires IsHistory(boards, moves) && i < |moves| && WellFormed(boards[i])
    ensures WellFormed(boards[i + 1])
  {
    HistoryMove(boards, moves, i);
    MoveKeeps(boards[i], moves[i]);
  }

  lemma {:induction false} HistoryWellFormed(boards: seq<Board>, moves: seq<Move>, i: nat)
    requires IsHistory(boards, moves) && i < |boards|
    ensures WellFormed(boards[i])
    decreases i
  {
    if i > 0 {
      HistoryWellFormed(boards, moves, i - 1);
      HistoryKeeps(boards, moves, i - 1);
    }
  }

  /** A history from one board to another. */
  ghost predicate Leads(b: Board, boards: seq<Board>, moves: seq<Move>, c: Board) {
    IsHistory(boards, moves) && boards[0] == b && boards[|moves|] == c
  }

  lemma LeadsOn(b: Board, boards: seq<Board>, moves: seq<Move>, c: Board, m: Move)
    requires Leads(b, boards, moves, c) && Allowed(c, m)
    ensures Leads(b, boards + [After(c, m)], moves + [m], After(c, m))
  {
    var bs, ms := boards + [After(c, m)], moves + [m];
    forall i: nat | i < |ms| ensures Allowed(bs[i], ms[i]) && bs[i + 1] == After(bs[i], ms[i]) {
      if i < |moves| {
        HistoryMove(boards, moves, i);
        assert bs[i] == boards[i] && bs[i + 1] == boards[i + 1] && ms[i] == moves[i];
      }
    }
  }

  // ----- one request -----

  /** The same request later on: a fixed result stays, delivery and visibility are never taken back. */
  predicate Same(e: Entry, f: Entry) {
    && f.key == e.key && f.handler == e.handler && f.stamp == e.stamp
    && (ResultOf(e.state).Some? ==> ResultOf(f.state) == ResultOf(e.state))
    && (!Waiting(e.state) ==> !Waiting(f.state))
    && (e.state.Visible? ==> f.state == e.state)
  }

  /** What becomes of the request in slot `s`: it carries on, or its generation is over for good. */
  predicate Follows(b: Board, c: Board, s: nat)
    requires s in b.requests && s < |b.requestGen|
  {
    && |c.requestGen| == |b.requestGen|
    && (c.requestGen[s] > b.requestGen[s]
        || (c.requestGen[s] == b.requestGen[s] && (s in c.requests ==> Same(b.requests[s], c.requests[s]))))
  }

  lemma FollowsStep(b: Board, c: Board, m: Move, s: nat)
    requires s in b.requests && s < |b.requestGen| && Follows(b, c, s) && Allowed(c, m)
    ensures Follows(b, After(c, m), s)
  {
  }

  lemma {:induction false} RequestFollows(boards: seq<Board>, moves: seq<Move>, i: nat, j: nat, s: nat)
    requires IsHistory(boards, moves) && i <= j < |boards| && s in boards[i].requests && s < |boards[i].requestGen|
    ensures Follows(boards[i], boards[j], s)
    decreases j - i
  {
    if i < j {
      RequestFollows(boards, moves, i, j - 1, s);
      FollowsMove(boards, moves, i, j - 1, s);
    }
  }

  lemma FollowsMove(boards: seq<Board>, moves: seq<Move>, i: nat, j: nat, s: nat)
    requires IsHistory(boards, moves) && i < |boards| && j < |moves| && s in boards[i].requests
             && s < |boards[i].requestGen|
    requires Follows(boards[i], boards[j], s)
    ensures Follows(boards[i], boards[j + 1], s)
  {
    HistoryMove(boards, moves, j);
    FollowsStep(boards[i], boards[j], moves[j], s);
  }

  /** The request that a token names: its slot, still in the token's generation. */
  predicate Names(b: Board, slot: nat, generation: nat) {
    slot in b.requests && slot < |b.requestGen| && b.requestGen[slot] == generation
  }

  predicate NamesWaiter(b: Board, slot: nat, generation: nat) {
    slot in b.owners && slot < |b.waiterGen| && b.waiterGen[slot] == generation
  }

  /** A terminal result never changes while the token is valid. */
  lemma ResultIsFixed(boards: seq<Board>, moves: seq<Move>, i: nat, j: nat, s: nat, g: nat, c: Completion)
    requires IsHistory(boards, moves) && i <= j < |boards| && Names(boards[i], s, g) && Names(boards[j], s, g)
    requires ResultOf(boards[i].requests[s].state) == Some(c)
    ensures ResultOf(boards[j].requests[s].state) == Some(c)
  {
    RequestFollows(boards, moves, i, j, s);
  }

  lemma ClaimDelivers(b: Board, s: nat)
    requires EntriesOk(b) && Allowed(b, Claiming(s))
    ensures s < |b.requestGen| && Names(After(b, Claiming(s)), s, b.requestGen[s])
    ensures !Waiting(After(b, Claiming(s)).requests[s].state)
  {
  }

  /** A request is claimed at most once. */
  lemma ClaimedOnce(boards: seq<Board>, moves: seq<Move>, i: nat, j: nat, s: nat)
    requires IsHistory(boards, moves) && i < j < |moves| && moves[i] == Claiming(s) && moves[j] == Claiming(s)
    ensures s < |boards[i].requestGen| && s < |boards[j].requestGen|
            && boards[j].requestGen[s] != boards[i].requestGen[s]
  {
    HistoryWellFormed(boards, moves, i);
    HistoryMove(boards, moves, i);
    HistoryMove(boards, moves, j);
    ClaimDelivers(boards[i], s);
    RequestFollows(boards, moves, i + 1, j, s);
  }

  /** An empty slot stays empty until it is admitted with the next generation. */
  lemma EmptyStep(b: Board, m: Move, s: nat)
    requires Allowed(b, m) && s < |b.requestGen| && s !in b.requests
    ensures |After(b, m).requestGen| == |b.requestGen|
    ensures After(b, m).requestGen[s] == b.requestGen[s] + (if s in After(b, m).requests then 1 else 0)
  {
  }

  lemma {:induction false} EmptyFollows(boards: seq<Board>, moves: seq<Move>, k: nat, j: nat, s: nat)
    requires IsHistory(boards, moves) && k <= j < |boards| && s < |boards[k].requestGen| && s !in boards[k].requests
    ensures |boards[j].requestGen| == |boards[k].requestGen|
    ensures boards[j].requestGen[s] > boards[k].requestGen[s]
            || (s !in boards[j].requests && boards[j].requestGen[s] == boards[k].requestGen[s])
    decreases j - k
  {
    if k < j {
      EmptyFollows(boards, moves, k, j - 1, s);
      HistoryMove(boards, moves, j - 1);
      if s in boards[j - 1].requests {
        FollowsStep(boards[j - 1], boards[j - 1], moves[j - 1], s);
      } else {
        EmptyStep(boards[j - 1], moves[j - 1], s);
      }
    }
  }

  /** A reused slot has a younger generation, so an old token never names the new request. */
  lemma StaleForever(boards: seq<Board>, moves: seq<Move>, i: nat, k: nat, j: nat, s: nat, g: nat)
    requires IsHistory(boards, moves) && i <= k <= j < |boards| && Names(boards[i], s, g) && s !in boards[k].requests
    ensures !Names(boards[j], s, g)
  {
    RequestFollows(boards, moves, i, k, s);
    EmptyFollows(boards, moves, k, j, s);
  }

  // ----- one waiter -----

  predicate IsReady(b: Board, w: nat) {
    w in b.owners && b.owners[w] in b.requests && b.requests[b.owners[w]].state.Visible?
  }

  /**
   What becomes of waiter `w`: it stays with its request and, once ready, keeps its result; or its
   generation is over.
   */
  ghost predicate WaiterFollows(b: Board, c: Board, w: nat)
    requires w in b.owners && w < |b.waiterGen| && b.owners[w] in b.requests
  {
    && |c.waiterGen| == |b.waiterGen|
    && (c.waiterGen[w] > b.waiterGen[w]
        || (c.waiterGen[w] == b.waiterGen[w] &&
            (w in c.owners ==>
               && c.owners[w] == b.owners[w] && c.owners[w] in c.requests
               && (IsReady(b, w) ==> c.requests[c.owners[w]].state == b.requests[b.owners[w]].state))))
  }

  lemma WaiterStep(b: Board, c: Board, m: Move, w: nat)
    requires w in b.owners && w < |b.waiterGen| && b.owners[w] in b.requests
    requires WaiterFollows(b, c, w) && Allowed(c, m) && OwnersOk(After(c, m))
    ensures WaiterFollows(b, After(c, m), w)
  {
  }

  lemma {:induction false} WaiterHistory(boards: seq<Board>, moves: seq<Move>, i: nat, j: nat, w: nat)
    requires IsHistory(boards, moves) && i <= j < |boards| && w in boards[i].owners
    ensures w < |boards[i].waiterGen| && boards[i].owners[w] in boards[i].requests
            && WaiterFollows(boards[i], boards[j], w)
    decreases j - i
  {
    HistoryWellFormed(boards, moves, i);
    if i < j {
      WaiterHistory(boards, moves, i, j - 1, w);
      WaiterMove(boards, moves, i, j - 1, w);
    }
  }

  lemma WaiterMove(boards: seq<Board>, moves: seq<Move>, i: nat, j: nat, w: nat)
    requires IsHistory(boards, moves) && i < |boards| && j < |moves| && w in boards[i].owners
             && w < |boards[i].waiterGen|
    requires boards[i].owners[w] in boards[i].requests && WaiterFollows(boards[i], boards[j], w)
    ensures WaiterFollows(boards[i], boards[j + 1], w)
  {
    HistoryMove(boards, moves, j);
    HistoryWellFormed(boards, moves, j + 1);
    WaiterStep(boards[i], boards[j], moves[j], w);
  }

  /** A ready waiter stays ready, with the same result, until it leaves. */
  lemma ReadyIsKept(boards: seq<Board>, moves: seq<Move>, i: nat, j: nat, w: nat)
    requires IsHistory(boards, moves) && i <= j < |boards| && IsReady(boards[i], w)
    requires w in boards[j].owners && w < |boards[i].waiterGen| && w < |boards[j].waiterGen|
             && boards[j].waiterGen[w] == boards[i].waiterGen[w]
    ensures IsReady(boards[j], w)
    ensures boards[j].requests[boards[j].owners[w]].state == boards[i].requests[boards[i].owners[w]].state
  {
    WaiterHistory(boards, moves, i, j, w);
  }

  // ----- how many waiters became ready -----

  function ReadySet(b: Board): set<nat> { set w | w in b.owners && IsReady(b, w) }

  /** What the broker reports as released by a move. */
  function Released(b: Board, m: Move): nat
    requires Allowed(b, m)
  {
    if (m.Completing? && m.visible) || m.Releasing? then |b.requests[m.slot].waiters| else 0
  }

  lemma ReadyAfterRelease(b: Board, m: Move)
    requires EntriesOk(b) && OwnersOk(b) && Allowed(b, m) && ((m.Completing? && m.visible) || m.Releasing?)
    ensures ReadySet(After(b, m)) == ReadySet(b) + Elements(b.requests[m.slot].waiters)
    ensures ReadySet(b) !! Elements(b.requests[m.slot].waiters)
  {
    assert EntryOk(b, m.slot);
  }

  lemma ReadyAfterOther(b: Board, m: Move)
    requires EntriesOk(b) && OwnersOk(b) && Allowed(b, m) && !(m.Completing? && m.visible) && !m.Releasing?
             && !m.Parting?
    ensures ReadySet(After(b, m)) == ReadySet(b)
  {
    var t := After(b, m);
    forall w ensures IsReady(t, w) <==> IsReady(b, w) {
      if w in b.owners {
        assert b.owners[w] in b.requests;
      }
    }
  }

  /**
   The reported count is exactly the number of waiters that became ready; nothing but a departure takes
   readiness away.
   */
  lemma ReleasedExactly(b: Board, m: Move)
    requires WellFormed(b) && Allowed(b, m) && !m.Parting?
    ensures |ReadySet(After(b, m))| == |ReadySet(b)| + Released(b, m)
  {
    if (m.Completing? && m.visible) || m.Releasing? {
      ReadyAfterRelease(b, m);
      assert EntryOk(b, m.slot);
      DistinctCount(b.requests[m.slot].waiters);
    } else {
      ReadyAfterOther(b, m);
    }
  }

  // ----- credits shared by several brokers -----

  /** A broker and the credits it holds beyond its requests: taken but not used yet, or freed but not given back yet. */
  datatype Holder = Holder(board: Board, spare: nat)

  datatype System = System(brokers: seq<Holder>, live: nat, capacity: nat)

  function Holding(h: Holder): nat { |h.board.requests| + h.spare }

  function Total(brokers: seq<Holder>): nat {
    if brokers == [] then 0 else Holding(brokers[0]) + Total(brokers[1..])
  }

  ghost predicate AllGood(brokers: seq<Holder>, good: Board -> bool) {
    forall i :: 0 <= i < |brokers| ==> good(brokers[i].board)
  }

  ghost function Good(): Board -> bool { (b: Board) => WellFormed(b) }

  ghost predicate Exact(s: System, good: Board -> bool) {
    AllGood(s.brokers, good) && s.live == Total(s.brokers) <= s.capacity
  }

  /** Every broker is well-formed, and the live credits are what the brokers hold, within the capacity. */
  ghost predicate Conserved(s: System) { Exact(s, Good()) }

  /** How many credits a move uses or frees. */
  function Credits(b: Board, m: Move): int
    requires Allowed(b, m)
  {
    if m.Admission? then 1
    else if m.Parting? && Minus(b.requests[b.owners[m.waiter]].waiters, m.waiter) == [] then -1
    else 0
  }

  lemma MapWithout(m: map<nat, Entry>, s: nat)
    requires s in m
    ensures |m - {s}| == |m| - 1
  {
    assert m == (m - {s})[s := m[s]];
  }

  /** A move changes the number of live requests by exactly its credits. */
  lemma CreditsExact(b: Board, m: Move)
    requires Allowed(b, m)
    ensures |After(b, m).requests| == |b.requests| + Credits(b, m)
  {
    if m.Parting? {
      MapWithout(b.requests, b.owners[m.waiter]);
    }
  }

  /**
   The steps of the brokers of one pool. Taking a credit, using it for a new request,
   freeing it with the last waiter and giving it back are separate steps, between
   which other brokers may do anything.
   */
  datatype SystemStep = Take(broker: nat) | Act(broker: nat, move: Move) | Give(broker: nat) | Close(broker: nat)

  /** A closed broker has no requests left. */
  function Closed(b: Board): Board { Board(map[], map[], [], b.requestGen, b.waiterGen, b.clock) }

  predicate StepAllowed(s: System, step: SystemStep) {
    && step.broker < |s.brokers|
    && var h := s.brokers[step.broker];
       match step
       case Take(_) => h.spare == 0 && s.live < s.capacity
       case Act(_, m) => Allowed(h.board, m) && h.spare == if m.Admission? then 1 else 0
       case Give(_) => h.spare > 0
       case Close(_) => h.spare == 0
  }

  function HolderAfter(h: Holder, step: SystemStep): Holder
    requires step.Act? ==> Allowed(h.board, step.move) && h.spare >= Credits(h.board, step.move)
    requires step.Give? ==> h.spare > 0
  {
    match step
    case Take(_) => Holder(h.board, h.spare + 1)
    case Act(_, m) => Holder(After(h.board, m), h.spare - Credits(h.board, m))
    case Give(_) => Holder(h.board, h.spare - 1)
    case Close(_) => Holder(Closed(h.board), 0)
  }

  /** What a step adds to the pool's live credits. */
  function Change(h: Holder, step: SystemStep): int {
    match step
    case Take(_) => 1
    case Act(_, _) => 0
    case Give(_) => -1
    case Close(_) => 0 - Holding(h)
  }

  /** The pool subtracts with a check, so a step that would underflow is not taken: it would be a panic. */
  ghost predicate SystemNext(s: System, t: System, step: SystemStep) {
    && StepAllowed(s, step)
    && var h := s.brokers[step.broker];
       && s.live + Change(h, step) >= 0
       && t == System(s.brokers[step.broker := HolderAfter(h, step)], s.live + Change(h, step), s.capacity)
  }

  /** Any interleaving of the brokers of one pool. */
  ghost predicate IsSystemRun(states: seq<System>, steps: seq<SystemStep>) {
    && |states| == |steps| + 1 && Conserved(states[0])
    && forall k :: 0 <= k < |steps| ==> SystemNext(states[k], states[k + 1], steps[k])
  }

  lemma {:induction false} TotalUpdate(brokers: seq<Holder>, i: nat, h: Holder)
    requires i < |brokers|
    ensures Total(brokers[i := h]) == Total(brokers) - Holding(brokers[i]) + Holding(h)
    decreases |brokers|
  {
    if i == 0 {
      assert brokers[i := h][1..] == brokers[1..];
    } else {
      assert brokers[i := h][1..] == brokers[1..][i - 1 := h];
      TotalUpdate(brokers[1..], i - 1, h);
    }
  }

  lemma StillGood(brokers: seq<Holder>, good: Board -> bool, i: nat, h: Holder)
    requires AllGood(brokers, good) && i < |brokers| && good(h.board)
    ensures AllGood(brokers[i := h], good)
  {
  }

  lemma Replaced(s: System, i: nat, h: Holder, live: nat, good: Board -> bool)
    requires Exact(s, good) && i < |s.brokers| && good(h.board)
             && live == s.live - Holding(s.brokers[i]) + Holding(h) <= s.capacity
    ensures Exact(System(s.brokers[i := h], live, s.capacity), good)
  {
    StillGood(s.brokers, good, i, h);
    TotalUpdate(s.brokers, i, h);
  }

  /** A broker holds no more than the pool has live credits. */
  lemma {:induction false} TotalCovers(brokers: seq<Holder>, i: nat)
    requires i < |brokers|
    ensures Holding(brokers[i]) <= Total(brokers)
    decreases i
  {
    if i > 0 {
      TotalCovers(brokers[1..], i - 1);
    }
  }

  /** A step keeps its broker well-formed. */
  lemma HolderGood(h: Holder, step: SystemStep)
    requires Good()(h.board) && (step.Act? ==> Allowed(h.board, step.move) && h.spare >= Credits(h.board, step.move))
             && (step.Give? ==> h.spare > 0)
    ensures Good()(HolderAfter(h, step).board)
  {
    if step.Act? {
      MoveKeeps(h.board, step.move);
    }
  }

  /** A step changes the pool by exactly what its broker holds more or less afterwards. */
  lemma HoldingChange(h: Holder, step: SystemStep)
    requires step.Act? ==> Allowed(h.board, step.move) && h.spare >= Credits(h.board, step.move)
    requires step.Give? ==> h.spare > 0
    ensures Holding(HolderAfter(h, step)) == Holding(h) + Change(h, step)
  {
    if step.Act? {
      CreditsExact(h.board, step.move);
    }
  }

  /** Giving credits back never underflows the pool. */
  lemma NeverUnderflows(s: System, step: SystemStep)
    requires Conserved(s) && StepAllowed(s, step)
    ensures s.live + Change(s.brokers[step.broker], step) >= 0
  {
    TotalCovers(s.brokers, step.broker);
  }

  lemma StepConserves(s: System, t: System, step: SystemStep)
    requires Conserved(s) && SystemNext(s, t, step)
    ensures Conserved(t)
  {
    var h := s.brokers[step.broker];
    assert Good()(h.board);
    HolderGood(h, step);
    HoldingChange(h, step);
    Replaced(s, step.broker, HolderAfter(h, step), s.live + Change(h, step), Good());
  }

  /**
   In every state of every interleaving the live credits are exactly what the brokers hold, and within
   the capacity.
   */
  lemma {:induction false} PoolConserved(states: seq<System>, steps: seq<SystemStep>, k: nat)
    requires IsSystemRun(states, steps) && k < |states|
    ensures Conserved(states[k])
    decreases k
  {
    if k > 0 {
      PoolConserved(states, steps, k - 1);
      StepConserves(states[k - 1], states[k], steps[k - 1]);
    }
  }

  function Requests(brokers: seq<Holder>): nat {
    if brokers == [] then 0 else |brokers[0].board.requests| + Requests(brokers[1..])
  }

  lemma {:induction false} NothingSpare(brokers: seq<Holder>)
    requires forall i :: 0 <= i < |brokers| ==> brokers[i].spare == 0
    ensures Total(brokers) == Requests(brokers)
    decreases |brokers|
  {
    if brokers != [] {
      NothingSpare(brokers[1..]);
    }
  }

  /** While no broker is in the middle of an operation, live credits equal the live requests of all brokers. */
  lemma CreditsAreRequests(states: seq<System>, steps: seq<SystemStep>, k: nat)
    requires IsSystemRun(states, steps) && k < |states| && forall i :: 0 <= i < |states[k].brokers| ==>
               states[k].brokers[i].spare == 0
    ensures states[k].live == Requests(states[k].brokers) <= states[k].capacity
  {
    PoolConserved(states, steps, k);
    NothingSpare(states[k].brokers);
  }

  // ----- coalescing -----

  /** At most one request per handler and key can still be joined. */
  ghost predicate Unique(b: Board) {
    forall s, t, h, k :: Matches(b, s, h, k) && Matches(b, t, h, k) ==> s == t
  }

  /** A new request is only admitted when there is none to join. */
  ghost predicate Coalescing(b: Board, m: Move) { m.Admission? ==> forall s :: !Matches(b, s, m.handler, m.key) }

  lemma MatchesBefore(b: Board, m: Move, s: nat, h: Handler, k: Key)
    requires Allowed(b, m) && Matches(After(b, m), s, h, k)
    ensures Matches(b, s, h, k) || (m.Admission? && m.slot == s && m.handler == h && m.key == k)
  {
  }

  lemma UniqueStep(b: Board, m: Move)
    requires Unique(b) && Allowed(b, m) && Coalescing(b, m)
    ensures Unique(After(b, m))
  {
    forall s, t, h, k | Matches(After(b, m), s, h, k) && Matches(After(b, m), t, h, k) ensures s == t {
      MatchesBefore(b, m, s, h, k);
      MatchesBefore(b, m, t, h, k);
    }
  }

  lemma {:induction false} UniqueForever(boards: seq<Board>, moves: seq<Move>, i: nat)
    requires IsHistory(boards, moves) && Unique(boards[0]) && i < |boards|
    requires forall j :: 0 <= j < |moves| ==> Coalescing(boards[j], moves[j])
    ensures Unique(boards[i])
    decreases i
  {
    if i > 0 {
      UniqueForever(boards, moves, i - 1);
      HistoryMove(boards, moves, i - 1);
      UniqueStep(boards[i - 1], moves[i - 1]);
    }
  }
}
