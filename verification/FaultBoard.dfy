/**
 What a fault broker keeps track of, without its links: live requests with their
 waiters, the order in which pending requests were admitted, and the generation
 of every slot. Every broker operation is a sequence of the moves below.
 */
module FaultBoard {
  import opened Words
  import opened LinkedLists

  type Key = nat
  type Handler = nat
  type Completion = nat

  const MAX_GENERATION: nat := B64 - 1

  datatype RequestState =
    | Pending
    | Delivered
    | DeferredPending(completion: Completion)
    | DeferredDelivered(completion: Completion)
    | Visible(completion: Completion)

  /** Linked in the delivery queue. */
  predicate Waiting(s: RequestState) { s.Pending? || s.DeferredPending? }

  /** No terminal result yet. */
  predicate IsOpen(s: RequestState) { s.Pending? || s.Delivered? }

  predicate IsDeferred(s: RequestState) { s.DeferredPending? || s.DeferredDelivered? }

  function ResultOf(s: RequestState): Option<Completion> { if IsOpen(s) then None else Some(s.completion) }

  datatype Entry = Entry(key: Key, handler: Handler, state: RequestState, waiters: seq<nat>, stamp: nat)

  /** `owners` maps a live waiter to its request; `clock` counts admissions of new requests. */
  datatype Board = Board(
    requests: map<nat, Entry>, owners: map<nat, nat>, fifo: seq<nat>,
    requestGen: seq<nat>, waiterGen: seq<nat>, clock: nat)

  predicate EntryOk(b: Board, s: nat)
    requires s in b.requests
  {
    && b.requests[s].waiters != [] && Distinct(b.requests[s].waiters) && b.requests[s].stamp < b.clock
    && forall w :: w in b.requests[s].waiters ==> w in b.owners && b.owners[w] == s
  }

  ghost predicate EntriesOk(b: Board) { forall s :: s in b.requests ==> s < |b.requestGen| && EntryOk(b, s) }

  ghost predicate OwnersOk(b: Board) {
    forall w :: w in b.owners ==> w < |b.waiterGen| && b.owners[w] in b.requests && w in b.requests[b.owners[w]].waiters
  }

  ghost predicate QueueOk(b: Board) { forall s :: s in b.fifo <==> s in b.requests && Waiting(b.requests[s].state) }

  /** Every waiter is on exactly one list, and the queue holds the waiting requests in admission order. */
  ghost predicate WellFormed(b: Board) { EntriesOk(b) && OwnersOk(b) && QueueOk(b) && Ordered(b.fifo, Stamps(b)) }

  function Stamps(b: Board): nat -> nat { (s: nat) => if s in b.requests then b.requests[s].stamp else 0 }

  /** Strictly increasing admission stamps. */
  predicate Ordered(list: seq<nat>, stamp: nat -> nat) {
    forall i, j :: 0 <= i < j < |list| ==> stamp(list[i]) < stamp(list[j])
  }

  /** An open or deferred request that a new fault with this handler and key joins. */
  predicate Matches(b: Board, s: nat, h: Handler, k: Key) {
    s in b.requests && b.requests[s].handler == h && b.requests[s].key == k && !b.requests[s].state.Visible?
  }

  // ----- moves -----

  datatype Move =
    | Admission(slot: nat, waiter: nat, handler: Handler, key: Key)
    | Joining(slot: nat, waiter: nat)
    | Claiming(slot: nat)
    | Completing(slot: nat, completion: Completion, visible: bool)
    | Releasing(slot: nat)
    | Parting(waiter: nat)

  predicate Allowed(b: Board, m: Move) {
    match m
    case Admission(s, w, _, _) =>
      && s < |b.requestGen| && s !in b.requests && b.requestGen[s] < MAX_GENERATION
      && w < |b.waiterGen| && w !in b.owners && b.waiterGen[w] < MAX_GENERATION
    case Joining(s, w) =>
      s in b.requests && !b.requests[s].state.Visible? && w < |b.waiterGen| && w !in b.owners
        && b.waiterGen[w] < MAX_GENERATION
    case Claiming(s) => s in b.requests && Waiting(b.requests[s].state)
    case Completing(s, _, _) => s in b.requests && IsOpen(b.requests[s].state)
    case Releasing(s) => s in b.requests && IsDeferred(b.requests[s].state)
    case Parting(w) => w in b.owners && b.owners[w] in b.requests
  }

  function ClaimedState(s: RequestState): RequestState {
    match s
    case Pending => Delivered
    case DeferredPending(c) => DeferredDelivered(c)
    case _ => s
  }

  function CompletedState(s: RequestState, c: Completion, visible: bool): RequestState {
    if visible then Visible(c) else if s.Pending? then DeferredPending(c) else DeferredDelivered(c)
  }

  /** A request in a new state; it leaves the queue when the state no longer waits for delivery. */
  function WithState(b: Board, s: nat, state: RequestState): Board
    requires s in b.requests
  {
    b.(requests := b.requests[s := b.requests[s].(state := state)], fifo := if Waiting(state) then b.fifo
       else Minus(b.fifo, s))
  }

  function After(b: Board, m: Move): Board
    requires Allowed(b, m)
  {
    match m
    case Admission(s, w, h, k) =>
      b.(requests := b.requests[s := Entry(k, h, Pending, [w], b.clock)], owners := b.owners[w := s],
         fifo := b.fifo + [s],
         requestGen := b.requestGen[s := b.requestGen[s] + 1], waiterGen :=
           b.waiterGen[w := b.waiterGen[w] + 1], clock := b.clock + 1)
    case Joining(s, w) =>
      b.(requests := b.requests[s := b.requests[s].(waiters := b.requests[s].waiters + [w])],
         owners := b.owners[w := s], waiterGen := b.waiterGen[w := b.waiterGen[w] + 1])
    case Claiming(s) => WithState(b, s, ClaimedState(b.requests[s].state))
    case Completing(s, c, visible) => WithState(b, s, CompletedState(b.requests[s].state, c, visible))
    case Releasing(s) => WithState(b, s, Visible(b.requests[s].state.completion))
    case Parting(w) =>
      var s := b.owners[w];
      var rest := Minus(b.requests[s].waiters, w);
      if rest == [] then b.(requests := b.requests - {s}, owners := b.owners - {w}, fifo := Minus(b.fifo, s))
      else b.(requests := b.requests[s := b.requests[s].(waiters := rest)], owners := b.owners - {w})
  }

  // ----- every move keeps the board well-formed -----

  lemma OrderedDistinct(list: seq<nat>, stamp: nat -> nat)
    requires Ordered(list, stamp)
    ensures Distinct(list)
  {
  }

  lemma WithoutOrdered(list: seq<nat>, stamp: nat -> nat, k: nat, stamp': nat -> nat, i: nat, j: nat)
    requires Ordered(list, stamp) && k < |list| && i < j < |list| && i != k && j != k
    requires forall y :: y in list && y != list[k] ==> stamp'(y) == stamp(y)
    ensures stamp'(list[i]) < stamp'(list[j])
  {
    assert list[i] in list && list[j] in list;
    assert i < k ==> stamp(list[i]) < stamp(list[k]);
    assert k < i ==> stamp(list[k]) < stamp(list[i]);
    assert j < k ==> stamp(list[j]) < stamp(list[k]);
    assert k < j ==> stamp(list[k]) < stamp(list[j]);
  }

  lemma MinusOrdered(list: seq<nat>, stamp: nat -> nat, x: nat, stamp': nat -> nat)
    requires Ordered(list, stamp) && forall y :: y in list && y != x ==> stamp'(y) == stamp(y)
    ensures Ordered(Minus(list, x), stamp')
  {
    if x in list {
      var k := IndexOf(list, x);
      var r := Without(list, k);
      forall i, j | 0 <= i < j < |r| ensures stamp'(r[i]) < stamp'(r[j]) {
        WithoutOrdered(list, stamp, k, stamp', if i < k then i else i + 1, if j < k then j else j + 1);
      }
    } else {
      SameOrder(list, stamp, stamp');
    }
  }

  lemma SameOrder(list: seq<nat>, stamp: nat -> nat, stamp': nat -> nat)
    requires Ordered(list, stamp) && forall y :: y in list ==> stamp'(y) == stamp(y)
    ensures Ordered(list, stamp')
  {
    forall i, j | 0 <= i < j < |list| ensures stamp'(list[i]) < stamp'(list[j]) {
      assert list[i] in list && list[j] in list;
    }
  }

  /** The queue does not notice a change that keeps every state and stamp. */
  lemma QueueKept(b: Board, t: Board, s: nat, e: Entry)
    requires QueueOk(b) && Ordered(b.fifo, Stamps(b)) && s in b.requests
             && Waiting(e.state) == Waiting(b.requests[s].state) && e.stamp == b.requests[s].stamp
    requires t.requests == b.requests[s := e] && t.fifo == b.fifo
    ensures QueueOk(t) && Ordered(t.fifo, Stamps(t))
  {
    SameOrder(b.fifo, Stamps(b), Stamps(t));
  }

  /** A request that is gone or no longer waits leaves the queue. */
  lemma QueueWithout(b: Board, t: Board, s: nat)
    requires QueueOk(b) && Ordered(b.fifo, Stamps(b)) && t.fifo == Minus(b.fifo, s)
             && (s in t.requests ==> !Waiting(t.requests[s].state))
    requires forall x :: x != s ==> (x in t.requests <==> x in b.requests)
                                    && (x in b.requests ==> t.requests[x] == b.requests[x])
    ensures QueueOk(t) && Ordered(t.fifo, Stamps(t))
  {
    OrderedDistinct(b.fifo, Stamps(b));
    forall x ensures x in t.fifo <==> x in b.fifo && x != s {
      MinusKeeps(b.fifo, s, x);
    }
    MinusOrdered(b.fifo, Stamps(b), s, Stamps(t));
  }

  lemma StateEntries(b: Board, s: nat, state: RequestState)
    requires EntriesOk(b) && OwnersOk(b) && s in b.requests
    ensures EntriesOk(WithState(b, s, state)) && OwnersOk(WithState(b, s, state))
  {
    var t := WithState(b, s, state);
    forall x | x in t.requests ensures EntryOk(t, x) {
      assert EntryOk(b, x);
    }
  }

  lemma StateMove(b: Board, s: nat, state: RequestState)
    requires WellFormed(b) && s in b.requests && (Waiting(state) ==> Waiting(b.requests[s].state))
    ensures WellFormed(WithState(b, s, state))
  {
    StateEntries(b, s, state);
    StateQueue(b, s, state);
  }

  lemma StateQueue(b: Board, s: nat, state: RequestState)
    requires QueueOk(b) && Ordered(b.fifo, Stamps(b)) && s in b.requests
             && (Waiting(state) ==> Waiting(b.requests[s].state))
    ensures var t := WithState(b, s, state); QueueOk(t) && Ordered(t.fifo, Stamps(t))
  {
    var t := WithState(b, s, state);
    if Waiting(state) {
      QueueKept(b, t, s, t.requests[s]);
    } else {
      QueueWithout(b, t, s);
    }
  }

  lemma AdmissionEntries(b: Board, m: Move)
    requires EntriesOk(b) && OwnersOk(b) && Allowed(b, m) && m.Admission?
    ensures EntriesOk(After(b, m)) && OwnersOk(After(b, m))
  {
    var t := After(b, m);
    forall x | x in t.requests ensures EntryOk(t, x) {
      assert x != m.slot ==> EntryOk(b, x);
    }
  }

  lemma AdmissionOrder(b: Board, m: Move)
    requires EntriesOk(b) && QueueOk(b) && Ordered(b.fifo, Stamps(b)) && Allowed(b, m) && m.Admission?
    ensures QueueOk(After(b, m)) && Ordered(After(b, m).fifo, Stamps(After(b, m)))
  {
    var t := After(b, m);
    forall i, j | 0 <= i < j < |t.fifo| ensures Stamps(t)(t.fifo[i]) < Stamps(t)(t.fifo[j]) {
      assert t.fifo[i] in b.fifo && EntryOk(b, t.fifo[i]);
      assert j < |b.fifo| ==> t.fifo[j] in b.fifo;
    }
  }

  lemma JoiningMove(b: Board, m: Move)
    requires WellFormed(b) && Allowed(b, m) && m.Joining?
    ensures WellFormed(After(b, m))
  {
    JoiningEntries(b, m);
    QueueKept(b, After(b, m), m.slot, After(b, m).requests[m.slot]);
  }

  lemma JoiningEntries(b: Board, m: Move)
    requires EntriesOk(b) && OwnersOk(b) && Allowed(b, m) && m.Joining?
    ensures EntriesOk(After(b, m)) && OwnersOk(After(b, m))
  {
    var t := After(b, m);
    forall x | x in t.requests ensures EntryOk(t, x) {
      assert EntryOk(b, x);
    }
  }

  /** The waiters that stay when one leaves. */
  lemma PartingRest(b: Board, w: nat)
    requires EntriesOk(b) && OwnersOk(b) && w in b.owners
    ensures var list := b.requests[b.owners[w]].waiters;
            Distinct(Minus(list, w)) && forall y :: y in Minus(list, w) <==> y in list && y != w
  {
    var list := b.requests[b.owners[w]].waiters;
    assert EntryOk(b, b.owners[w]);
    forall y ensures y in Minus(list, w) <==> y in list && y != w {
      MinusKeeps(list, w, y);
    }
    MinusKeeps(list, w, w);
  }

  lemma PartingEntries(b: Board, w: nat)
    requires EntriesOk(b) && OwnersOk(b) && Allowed(b, Parting(w))
    ensures EntriesOk(After(b, Parting(w))) && OwnersOk(After(b, Parting(w)))
  {
    var t := After(b, Parting(w));
    PartingRest(b, w);
    forall x | x in t.requests ensures EntryOk(t, x) {
      assert EntryOk(b, x);
    }
  }

  lemma PartingQueue(b: Board, w: nat)
    requires QueueOk(b) && Ordered(b.fifo, Stamps(b)) && Allowed(b, Parting(w))
    ensures var t := After(b, Parting(w)); QueueOk(t) && Ordered(t.fifo, Stamps(t))
  {
    var t, s := After(b, Parting(w)), b.owners[w];
    if s in t.requests {
      QueueKept(b, t, s, t.requests[s]);
    } else {
      QueueWithout(b, t, s);
    }
  }

  lemma PartingMove(b: Board, w: nat)
    requires WellFormed(b) && Allowed(b, Parting(w))
    ensures WellFormed(After(b, Parting(w)))
  {
    PartingEntries(b, w);
    PartingQueue(b, w);
  }

  lemma MoveKeeps(b: Board, m: Move)
    requires WellFormed(b) && Allowed(b, m)
    ensures WellFormed(After(b, m))
  {
    match m
    case Admission(_, _, _, _) =>
      AdmissionEntries(b, m);
      AdmissionOrder(b, m);
    case Joining(_, _) => JoiningMove(b, m);
    case Claiming(s) => StateMove(b, s, ClaimedState(b.requests[s].state));
    case Completing(s, c, visible) => StateMove(b, s, CompletedState(b.requests[s].state, c, visible));
    case Releasing(s) => StateMove(b, s, Visible(b.requests[s].state.completion));
    case Parting(w) => PartingMove(b, w);
  }
}
