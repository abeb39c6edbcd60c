/**
 The fault broker itself: slot arrays updated in place, cursor loops over the
 links, and a pool of request credits shared with other brokers. The ghost field
 `board` is what the slots represent; every method says how it moves.
 */
module FaultBroker {
  import opened Words
  import opened LinkedLists
  import opened FaultBoard
  import opened FaultHistory
  import opened BrokerSlots
  import opened BrokerMoves
  import opened BrokerSweeps

  /** A finite pool of live-request credits. */
  class RequestCreditPool {
    const capacity: nat
    var live: nat

    ghost predicate Valid()
      reads this
    {
      live <= capacity
    }

    constructor (capacity: nat)
      ensures Valid() && this.capacity == capacity && live == 0
    {
      this.capacity := capacity;
      live := 0;
    }

    method TryAcquire() returns (ok: bool)
      requires Valid()
      modifies this
      ensures Valid() && (ok <==> old(live) < capacity) && live == old(live) + if ok then 1 else 0
    {
      ok := live < capacity;
      if ok {
        live := live + 1;
      }
    }

    method Release(count: nat)
      requires Valid() && count <= live
      modifies this
      ensures Valid() && live == old(live) - count
    {
      live := live - count;
    }
  }

  datatype AdmissionError =
    | RequestCapacity
    | RequestCreditCapacity
    | RequestTokenExhausted
    | WaiterCapacity
    | WaiterTokenExhausted
    | InconsistentAdmission

  datatype RequestError = StaleOrForeignRequest | AlreadyTerminal | NotTerminal

  datatype WaiterError = StaleOrForeignWaiter | NotReady | InconsistentWaiter

  datatype Admitted = Admitted(request: Token, waiter: Token, coalesced: bool)

  // ----- choosing slots -----

  /** A free slot whose generation space is not used up. */
  predicate Usable(generation: seq<nat>, live: set<nat>, s: nat) {
    s < |generation| && s !in live && generation[s] < MAX_GENERATION
  }

  datatype Choice = Chosen(slot: nat) | Full | Exhausted

  /** The lowest usable slot, or why there is none. */
  ghost predicate IsChoice(generation: seq<nat>, live: set<nat>, c: Choice) {
    match c
    case Chosen(s) => Usable(generation, live, s) && forall x :: 0 <= x < s ==> !Usable(generation, live, x)
    case Full => forall x :: 0 <= x < |generation| ==> x in live
    case Exhausted => (exists x :: 0 <= x < |generation| && x !in live) && forall x :: 0 <= x < |generation| ==>
        !Usable(generation, live, x)
  }

  /** The request that a new fault with this handler and key joins, if there is one. */
  ghost predicate IsMatch(b: Board, h: Handler, k: Key, m: Option<nat>) {
    && (m.Some? ==> Matches(b, m.value, h, k))
    && (m.None? ==> forall x :: !Matches(b, x, h, k))
  }

  /** Why an admission fails, in the order in which the reasons are considered. */
  ghost predicate Refused(b: Board, h: Handler, k: Key, noCredit: bool, m: Option<nat>, request: Choice, waiter: Choice,
                          e: AdmissionError) {
    && IsMatch(b, h, k, m) && (m.None? ==> IsChoice(b.requestGen, b.requests.Keys, request))
       && IsChoice(b.waiterGen, b.owners.Keys, waiter)
    && match e
       case RequestCapacity => m.None? && request.Full?
       case RequestTokenExhausted => m.None? && request.Exhausted?
       case WaiterCapacity => (m.Some? || request.Chosen?) && waiter.Full?
       case WaiterTokenExhausted => (m.Some? || request.Chosen?) && waiter.Exhausted?
       case RequestCreditCapacity => m.None? && request.Chosen? && waiter.Chosen? && noCredit
       case InconsistentAdmission => false
  }

  /** What an admission that succeeds returns and which move it is. */
  ghost predicate Accepted(id: nat, b: Board, h: Handler, k: Key, noCredit: bool, m: Option<nat>, request: Choice,
                           waiter: Choice, a: Admitted, move: Move) {
    && IsMatch(b, h, k, m) && (m.None? ==> IsChoice(b.requestGen, b.requests.Keys, request))
       && IsChoice(b.waiterGen, b.owners.Keys, waiter)
    && waiter.Chosen? && a.coalesced == m.Some?
    && a.waiter == Token(id, waiter.slot, b.waiterGen[waiter.slot] + 1)
    && (m.Some? ==>
          && m.value < |b.requestGen| && move == Joining(m.value, waiter.slot)
          && a.request == Token(id, m.value, b.requestGen[m.value]))
    && (m.None? ==>
          && request.Chosen? && !noCredit && move == Admission(request.slot, waiter.slot, h, k)
          && a.request == Token(id, request.slot, b.requestGen[request.slot] + 1))
  }

  class Broker {
    const id: nat
    const pool: RequestCreditPool?
    var requests: seq<RequestSlot>
    var waiters: seq<WaiterSlot>
    var head: Option<nat>
    var tail: Option<nat>
    ghost var board: Board

    ghost predicate Valid()
      reads this
    {
      Represents(id, requests, waiters, head, tail, board)
    }

    /** The pool holds at least this broker's credits. */
    ghost predicate Funded()
      reads this, pool
    {
      pool != null ==> pool.Valid() && |board.requests| <= pool.live
    }

    function PendingQueue(): Queue
      reads this
    {
      Queue(requests, head, tail)
    }

    constructor (id: nat, requestCapacity: nat, waiterCapacity: nat, pool: RequestCreditPool?)
      ensures Valid() && this.id == id && this.pool == pool
      ensures board == Board(map[], map[], [], seq(requestCapacity, _ => 0), seq(waiterCapacity, _ => 0), 0)
    {
      this.id := id;
      this.pool := pool;
      requests := seq(requestCapacity, _ => RequestSlot(0, None));
      waiters := seq(waiterCapacity, _ => WaiterSlot(0, None));
      head, tail := None, None;
      board := Board(map[], map[], [], seq(requestCapacity, _ => 0), seq(waiterCapacity, _ => 0), 0);
    }

    // ----- finding slots -----

    method FindMatch(handler: Handler, key: Key) returns (m: Option<nat>)
      requires Valid()
      ensures IsMatch(board, handler, key, m)
    {
      var slot := 0;
      while slot < |requests|
        invariant slot <= |requests| && forall x: nat :: x < slot ==> !Matches(board, x, handler, key)
      {
        SlotAt(id, requests, waiters, head, tail, board, slot);
        if requests[slot].record.Some? {
          RecordAt(id, requests, waiters, head, tail, board, slot);
          var record := requests[slot].record.value;
          if record.handler == handler && record.key == key && !record.state.Visible? {
            return Some(slot);
          }
        }
        slot := slot + 1;
      }
      forall x ensures !Matches(board, x, handler, key) {
        SlotAt(id, requests, waiters, head, tail, board, x);
      }
      return None;
    }

    method ChooseRequestSlot() returns (c: Choice)
      requires Valid()
      ensures IsChoice(board.requestGen, board.requests.Keys, c)
    {
      var exhausted := false;
      var slot := 0;
      SlotAt(id, requests, waiters, head, tail, board, 0);
      while slot < |requests|
        invariant slot <= |requests| == |board.requestGen|
        invariant forall x :: 0 <= x < slot ==> !Usable(board.requestGen, board.requests.Keys, x)
        invariant exhausted <==> exists x :: 0 <= x < slot && x !in board.requests.Keys
      {
        SlotAt(id, requests, waiters, head, tail, board, slot);
        if requests[slot].record.None? {
          if requests[slot].generation < MAX_GENERATION {
            return Chosen(slot);
          }
          exhausted := true;
        }
        slot := slot + 1;
      }
      return if exhausted then Exhausted else Full;
    }

    method ChooseWaiterSlot() returns (c: Choice)
      requires Valid()
      ensures IsChoice(board.waiterGen, board.owners.Keys, c)
    {
      var exhausted := false;
      var slot := 0;
      SlotAt(id, requests, waiters, head, tail, board, 0);
      while slot < |waiters|
        invariant slot <= |waiters| == |board.waiterGen|
        invariant forall x :: 0 <= x < slot ==> !Usable(board.waiterGen, board.owners.Keys, x)
        invariant exhausted <==> exists x :: 0 <= x < slot && x !in board.owners.Keys
      {
        SlotAt(id, requests, waiters, head, tail, board, slot);
        if waiters[slot].record.None? {
          if waiters[slot].generation < MAX_GENERATION {
            return Chosen(slot);
          }
          exhausted := true;
        }
        slot := slot + 1;
      }
      return if exhausted then Exhausted else Full;
    }

    method RequestIndex(token: Token) returns (r: Option<nat>)
      requires Valid()
      ensures r.Some? <==> token.broker == id && Names(board, token.slot, token.generation)
      ensures r.Some? ==> r.value == token.slot
    {
      SlotAt(id, requests, waiters, head, tail, board, token.slot);
      if token.broker != id || token.slot >= |requests| {
        return None;
      }
      if requests[token.slot].generation != token.generation || requests[token.slot].record.None? {
        return None;
      }
      return Some(token.slot);
    }

    method WaiterIndex(token: Token) returns (r: Option<nat>)
      requires Valid()
      ensures r.Some? <==> token.broker == id && NamesWaiter(board, token.slot, token.generation)
      ensures r.Some? ==> r.value == token.slot
    {
      SlotAt(id, requests, waiters, head, tail, board, token.slot);
      if token.broker != id || token.slot >= |waiters| {
        return None;
      }
      if waiters[token.slot].generation != token.generation || waiters[token.slot].record.None? {
        return None;
      }
      return Some(token.slot);
    }

    // ----- admission -----

    /** Admits a fault: one more waiter on a matching request, or a new request. A refusal changes nothing. */
    method Admit(handler: Handler, key: Key)
      returns (r: Result<Admitted, AdmissionError>, ghost m: Option<nat>, ghost q: Choice, ghost w: Choice,
               ghost move: Move)
      requires Valid() && Funded()
      modifies this`requests, this`waiters, this`head, this`tail, this`board, pool
      ensures Valid() && Funded()
      ensures r.Err? ==>
                && Refused(old(board), handler, key, pool != null && old(pool.live) >= pool.capacity, m, q, w, r.error)
                && unchanged(this) && (pool != null ==> pool.live == old(pool.live))
      ensures r.Ok? ==>
                && Accepted(id, old(board), handler, key, pool != null
                            && old(pool.live) >= pool.capacity, m, q, w, r.value, move)
                && Allowed(old(board), move) && board == After(old(board), move)
      ensures pool != null ==> pool.live - |board.requests| == old(pool.live) - |old(board.requests)|
    {
      var request := Full;
      var existing := FindMatch(handler, key);
      if existing.None? {
        request := ChooseRequestSlot();
      }
      var waiter := ChooseWaiterSlot();
      m, q, w, move := existing, request, waiter, Parting(0);
      if existing.None? && !request.Chosen? {
        return Err(if request.Full? then RequestCapacity else RequestTokenExhausted), m, q, w, move;
      }
      if !waiter.Chosen? {
        return Err(if waiter.Full? then WaiterCapacity else WaiterTokenExhausted), m, q, w, move;
      }
      if existing.Some? {
        move := Joining(existing.value, waiter.slot);
        CreditsExact(board, move);
        r := Join(existing.value, waiter.slot);
      } else {
        move := Admission(request.slot, waiter.slot, handler, key);
        CreditsExact(board, move);
        r := Open(request.slot, waiter.slot, handler, key);
      }
    }

    /** One more waiter on a live request. */
    method Join(slot: nat, waiter: nat) returns (r: Result<Admitted, AdmissionError>)
      requires Valid() && Allowed(board, Joining(slot, waiter))
      modifies this`requests, this`waiters, this`board
      ensures Valid() && board == After(old(board), Joining(slot, waiter)) && slot < |board.requestGen|
      ensures r == Ok(Admitted(Token(id, slot, old(board).requestGen[slot]),
                               Token(id, waiter, old(board).waiterGen[waiter] + 1), true))
    {
      RecordAt(id, requests, waiters, head, tail, board, slot);
      SlotAt(id, requests, waiters, head, tail, board, waiter);
      LastAt(id, requests, waiters, head, tail, board, slot, waiter);
      var record := requests[slot].record.value;
      if record.waiterCount + 1 > |waiters| || record.waiterCount == 0 || record.waiterHead.None?
          || record.waiterTail.None? {
        return Err(InconsistentAdmission);
      }
      var request := Token(id, slot, requests[slot].generation);
      var previous := record.waiterTail.value;
      if previous >= |waiters| || waiters[previous].record.None? {
        return Err(InconsistentAdmission);
      }
      if waiters[previous].record.value.request != request || waiters[previous].record.value.next.Some? {
        return Err(InconsistentAdmission);
      }
      Link(slot, waiter, request, previous);
      return Ok(Admitted(request, Token(id, waiter, waiters[waiter].generation), true));
    }

    method Link(slot: nat, waiter: nat, request: Token, previous: nat)
      requires Valid() && Allowed(board, Joining(slot, waiter)) && slot < |board.requestGen|
      requires board.requests[slot].waiters != []
               && previous == board.requests[slot].waiters[|board.requests[slot].waiters| - 1]
      requires previous < |waiters| && previous != waiter && waiters[previous].record.Some?
      requires request == Token(id, slot, board.requestGen[slot])
      modifies this`requests, this`waiters, this`board
      ensures Valid() && board == After(old(board), Joining(slot, waiter))
      ensures |waiters| == |old(waiters)| && waiter < |waiters|
              && waiters[waiter].generation == old(board).waiterGen[waiter] + 1
    {
      SlotAt(id, requests, waiters, head, tail, board, waiter);
      JoiningShows(id, PendingQueue(), waiters, board, Joining(slot, waiter), previous);
      ghost var q, ws, b := PendingQueue(), waiters, board;
      AppendWaiter(slot, waiter, request, previous);
      board := After(board, Joining(slot, waiter));
      assert waiters == JoinedWaiters(ws, waiter, b.waiterGen[waiter] + 1, Token(id, slot, b.requestGen[slot]),
                                      previous);
      assert PendingQueue() == q.(slots := Update(q.slots, slot, Heavier(q.slots[slot].record.value, waiter)));
      assert Shows(id, PendingQueue(), waiters, board);
    }

    /** Links a new waiter behind the last one. */
    method AppendWaiter(slot: nat, waiter: nat, request: Token, previous: nat)
      requires slot < |requests| && requests[slot].record.Some? && waiter < |waiters|
      requires previous < |waiters| && previous != waiter && waiters[previous].record.Some?
      modifies this`requests, this`waiters
      ensures waiters == JoinedWaiters(old(waiters), waiter, old(waiters)[waiter].generation + 1, request, previous)
      ensures requests == Update(old(requests), slot, Heavier(old(requests)[slot].record.value, waiter))
    {
      waiters := waiters[waiter := WaiterSlot(waiters[waiter].generation + 1,
                                              Some(WaiterRecord(request, Active, Some(previous), None)))];
      waiters := UpdateWaiter(waiters, previous, waiters[previous].record.value.(next := Some(waiter)));
      var record := requests[slot].record.value;
      requests := Update(requests, slot, record.(waiterTail := Some(waiter), waiterCount := record.waiterCount + 1));
    }

    /** A new request with its first waiter, if the pool has a credit for it. */
    method Open(slot: nat, waiter: nat, handler: Handler, key: Key) returns (r: Result<Admitted, AdmissionError>)
      requires Valid() && Allowed(board, Admission(slot, waiter, handler, key)) && (pool != null ==> pool.Valid())
      modifies this`requests, this`waiters, this`head, this`tail, this`board, pool
      ensures Valid() && (pool != null ==> pool.Valid())
      ensures r.Err? ==> r.error == RequestCreditCapacity && unchanged(this) && pool != null
                         && old(pool.live) >= pool.capacity && pool.live == old(pool.live)
      ensures r.Ok? ==>
                && (pool != null ==> old(pool.live) < pool.capacity && pool.live == old(pool.live) + 1)
                && board == After(old(board), Admission(slot, waiter, handler, key))
                && r.value == Admitted(Token(id, slot, old(board).requestGen[slot] + 1),
                                       Token(id, waiter, old(board).waiterGen[waiter] + 1), false)
    {
      TailAt(id, requests, waiters, head, tail, board);
      SlotAt(id, requests, waiters, head, tail, board, slot);
      SlotAt(id, requests, waiters, head, tail, board, waiter);
      if |waiters| < 1 || head.Some? != tail.Some? {
        return Err(InconsistentAdmission);
      }
      if tail.Some? {
        if tail.value >= |requests| || requests[tail.value].record.None? {
          return Err(InconsistentAdmission);
        }
        if !Waiting(requests[tail.value].record.value.state) || requests[tail.value].record.value.next.Some? {
          return Err(InconsistentAdmission);
        }
      }
      if pool != null {
        var ok := pool.TryAcquire();
        if !ok {
          return Err(RequestCreditCapacity);
        }
      }
      r := Publish(slot, waiter, handler, key);
    }

    /** Publishes a new request and its first waiter. */
    method Publish(slot: nat, waiter: nat, handler: Handler, key: Key) returns (r: Result<Admitted, AdmissionError>)
      requires Valid() && Allowed(board, Admission(slot, waiter, handler, key))
      modifies this`requests, this`waiters, this`head, this`tail, this`board
      ensures Valid() && board == After(old(board), Admission(slot, waiter, handler, key))
      ensures r == Ok(Admitted(Token(id, slot, old(board).requestGen[slot] + 1),
                               Token(id, waiter, old(board).waiterGen[waiter] + 1), false))
    {
      TailAt(id, requests, waiters, head, tail, board);
      SlotAt(id, requests, waiters, head, tail, board, slot);
      SlotAt(id, requests, waiters, head, tail, board, waiter);
      AdmissionShows(id, PendingQueue(), waiters, board, Admission(slot, waiter, handler, key));
      ghost var q, ws, b := PendingQueue(), waiters, board;
      r := Write(slot, waiter, handler, key);
      board := After(board, Admission(slot, waiter, handler, key));
      assert waiters == FirstWaiter(ws, waiter, b.waiterGen[waiter] + 1, Token(id, slot, b.requestGen[slot] + 1));
      assert PendingQueue() == AdmittedSlots(q, slot, b.requestGen[slot] + 1, waiter, key, handler);
      assert Shows(id, PendingQueue(), waiters, board);
    }

    /** Writes a new request and its first waiter. */
    method Write(slot: nat, waiter: nat, handler: Handler, key: Key) returns (r: Result<Admitted, AdmissionError>)
      requires slot < |requests| && waiter < |waiters|
      requires tail.Some? ==> tail.value < |requests| && requests[tail.value].record.Some? && tail.value != slot
      modifies this`requests, this`waiters, this`head, this`tail
      ensures PendingQueue() ==
              AdmittedSlots(old(PendingQueue()), slot, old(requests)[slot].generation + 1, waiter, key, handler)
      ensures waiters == FirstWaiter(old(waiters), waiter, old(waiters)[waiter].generation + 1,
                                     Token(id, slot, old(requests)[slot].generation + 1))
      ensures r == Ok(Admitted(Token(id, slot, old(requests)[slot].generation + 1),
                               Token(id, waiter, old(waiters)[waiter].generation + 1), false))
    {
      var request := Token(id, slot, requests[slot].generation + 1);
      Enqueue(slot, handler, key);
      var generation := waiters[waiter].generation + 1;
      waiters := waiters[waiter := WaiterSlot(generation, Some(WaiterRecord(request, Active, None, None)))];
      requests := Update(requests, slot,
                         requests[slot].record.value.(waiterHead := Some(waiter), waiterTail := Some(waiter),
                                                      waiterCount := 1));
      return Ok(Admitted(request, Token(id, waiter, generation), false));
    }

    /** Writes a new request at the end of the queue. */
    method Enqueue(slot: nat, handler: Handler, key: Key)
      requires slot < |requests|
               && (tail.Some? ==> tail.value < |requests| && requests[tail.value].record.Some? && tail.value != slot)
      modifies this`requests, this`head, this`tail
      ensures PendingQueue() == Enqueued(old(PendingQueue()), slot, old(requests)[slot].generation + 1, key, handler)
      ensures |requests| == |old(requests)| && requests[slot].record.Some?
    {
      requests := requests[slot := RequestSlot(requests[slot].generation + 1,
                                               Some(RequestRecord(key, handler, RequestState.Pending, None, None, 0,
                                                                  tail, None)))];
      if tail.Some? {
        requests := Update(requests, tail.value, requests[tail.value].record.value.(next := Some(slot)));
      } else {
        head := Some(slot);
      }
      tail := Some(slot);
    }

    // ----- the pending queue -----

    method UnlinkPending(slot: nat)
      requires slot < |requests| && requests[slot].record.Some?
      modifies this`requests, this`head, this`tail
      ensures PendingQueue() == TakenOut(old(PendingQueue()), slot)
    {
      var record := requests[slot].record.value;
      if record.prev.Some? {
        var p := record.prev.value;
        if p < |requests| && requests[p].record.Some? {
          requests := Update(requests, p, requests[p].record.value.(next := record.next));
        }
      } else {
        head := record.next;
      }
      if record.next.Some? {
        var n := record.next.value;
        if n < |requests| && requests[n].record.Some? {
          requests := Update(requests, n, requests[n].record.value.(prev := record.prev));
        }
      } else {
        tail := record.prev;
      }
      if requests[slot].record.Some? {
        requests := Update(requests, slot, requests[slot].record.value.(prev := None, next := None));
      }
    }

    /** Sets the state of a live request, taking it out of the queue if it no longer waits. */
    method Restate(slot: nat, state: RequestState)
      requires slot < |requests| && requests[slot].record.Some?
      modifies this`requests, this`head, this`tail
      ensures PendingQueue() == Restated(old(PendingQueue()), slot, state)
    {
      if Waiting(requests[slot].record.value.state) && !Waiting(state) {
        UnlinkPending(slot);
      }
      if requests[slot].record.Some? {
        requests := Update(requests, slot, requests[slot].record.value.(state := state));
      }
    }

    /** Claims the oldest pending request of a handler. */
    method ClaimNext(handler: Handler) returns (r: Option<Snapshot>)
      requires Valid()
      modifies this`requests, this`head, this`tail, this`board
      ensures Valid()
      ensures r.None? ==> unchanged(this) && forall s :: s in board.requests && Waiting(board.requests[s].state) ==>
                board.requests[s].handler != handler
      ensures r.Some? ==>
                var s, b := r.value.token.slot, old(board);
                && Allowed(b, Claiming(s)) && board == After(b, Claiming(s)) && b.requests[s].handler == handler
                   && s < |b.requestGen|
                && (forall x :: x in b.requests && Waiting(b.requests[x].state) && b.requests[x].handler == handler ==>
                      b.requests[s].stamp <= b.requests[x].stamp)
                && r.value == SnapshotOf(id, board, s)
    {
      var cursor := head;
      ghost var i := 0;
      CursorAt(id, requests, waiters, head, tail, board, 0);
      while cursor.Some?
        invariant unchanged(this) && 0 <= i <= |board.fifo|
                  && cursor == (if i < |board.fifo| then Some(board.fifo[i]) else None)
        invariant forall j :: 0 <= j < i ==> board.fifo[j] in board.requests
                                             && board.requests[board.fifo[j]].handler != handler
        decreases |board.fifo| - i
      {
        var slot := cursor.value;
        CursorAt(id, requests, waiters, head, tail, board, i);
        var record := requests[slot].record.value;
        cursor := record.next;
        if record.handler == handler {
          OldestOf(board, i);
          r := Claim(slot);
          return;
        }
        i := i + 1;
      }
      NoneOf(board, handler);
      return None;
    }

    /** Delivers a queued request. */
    method Claim(slot: nat) returns (r: Option<Snapshot>)
      requires Valid() && Allowed(board, Claiming(slot))
      modifies this`requests, this`head, this`tail, this`board
      ensures Valid() && board == After(old(board), Claiming(slot)) && slot < |board.requestGen|
              && r == Some(SnapshotOf(id, board, slot))
    {
      RecordAt(id, requests, waiters, head, tail, board, slot);
      var state := ClaimedState(requests[slot].record.value.state);
      Shift(slot, state);
      r := SnapshotSlot(slot);
    }

    /** A change between states that waiters cannot see. */
    method Shift(slot: nat, state: RequestState)
      requires Valid() && slot in board.requests && !board.requests[slot].state.Visible? && !state.Visible?
      requires Waiting(state) ==> Waiting(board.requests[slot].state)
      modifies this`requests, this`head, this`tail, this`board
      ensures Valid() && board == WithState(old(board), slot, state)
    {
      RecordAt(id, requests, waiters, head, tail, board, slot);
      ghost var q := PendingQueue();
      Restate(slot, state);
      HiddenMove(id, q, waiters, board, slot, state);
      board := WithState(board, slot, state);
      assert Shows(id, PendingQueue(), waiters, board);
    }

    method SnapshotSlot(slot: nat) returns (r: Option<Snapshot>)
      requires Valid()
      ensures r.Some? <==> slot in board.requests
      ensures slot in board.requests ==> slot < |board.requestGen| && r == Some(SnapshotOf(id, board, slot))
    {
      SlotAt(id, requests, waiters, head, tail, board, slot);
      if slot >= |requests| || requests[slot].record.None? {
        return None;
      }
      RecordAt(id, requests, waiters, head, tail, board, slot);
      var record := requests[slot].record.value;
      return Some(Snapshot(Token(id, slot, requests[slot].generation), record.key, record.handler,
                           PhaseOf(record.state), record.waiterCount));
    }

    // ----- results -----

    /** Makes every waiter of a request ready. */
    method PublishWaiters(slot: nat, completion: Completion, ghost list: seq<nat>) returns (released: nat)
      requires slot < |requests| && requests[slot].record.Some? && requests[slot].record.value.waiterHead == First(list)
      requires Distinct(list) && WaiterListOk(waiters, list)
      requires forall i :: 0 <= i < |list| ==>
                 list[i] < |waiters| && waiters[list[i]].record.Some? && waiters[list[i]].record.value.state.Active?
      modifies this`waiters
      ensures PublishedTo(old(waiters), waiters, list, completion) && released == |list|
    {
      released := 0;
      var cursor := requests[slot].record.value.waiterHead;
      ghost var i := 0;
      while cursor.Some?
        invariant 0 <= i <= |list| && cursor == (if i < |list| then Some(list[i]) else None) && released == i
        invariant PublishedTo(old(waiters), waiters, list[..i], completion)
        decreases |list| - i
      {
        var w := cursor.value;
        PartedNeighbours(old(waiters), list, i);
        assert w !in list[..i];
        var record := waiters[w].record.value;
        cursor := record.next;
        if record.state.Active? {
          waiters := UpdateWaiter(waiters, w, record.(state := Ready(completion)));
          released := released + 1;
        }
        assert list[..i + 1] == list[..i] + [w];
        i := i + 1;
      }
      assert list[..i] == list;
    }

    method CompleteSlot(slot: nat, completion: Completion, visible: bool) returns (released: nat)
      requires Valid() && slot in board.requests
      modifies this`requests, this`waiters, this`head, this`tail, this`board
      ensures Valid()
      ensures !IsOpen(old(board).requests[slot].state) ==> unchanged(this) && released == 0
      ensures IsOpen(old(board).requests[slot].state) ==>
                board == After(old(board), Completing(slot, completion, visible))
                  && released == Released(old(board), Completing(slot, completion, visible))
    {
      RecordAt(id, requests, waiters, head, tail, board, slot);
      var state := requests[slot].record.value.state;
      if !IsOpen(state) {
        return 0;
      }
      if visible {
        released := Reveal(slot, completion);
      } else {
        Shift(slot, CompletedState(state, completion, false));
        released := 0;
      }
    }

    /** Makes a request visible and all of its waiters ready. */
    method Reveal(slot: nat, completion: Completion) returns (released: nat)
      requires Valid() && slot in board.requests && !board.requests[slot].state.Visible?
      modifies this`requests, this`waiters, this`head, this`tail, this`board
      ensures Valid() && board == WithState(old(board), slot, Visible(completion))
              && released == |old(board).requests[slot].waiters|
    {
      RecordAt(id, requests, waiters, head, tail, board, slot);
      ListAt(id, requests, waiters, head, tail, board, slot);
      ghost var q, ws := PendingQueue(), waiters;
      RestatedRecord(q, slot, Visible(completion));
      Restate(slot, Visible(completion));
      released := PublishWaiters(slot, completion, board.requests[slot].waiters);
      VisibleMove(id, q, ws, waiters, board, slot, completion);
      board := WithState(board, slot, Visible(completion));
      assert Shows(id, PendingQueue(), waiters, board);
    }

    method ReleaseSlot(slot: nat) returns (released: nat)
      requires Valid() && slot in board.requests
      modifies this`requests, this`waiters, this`head, this`tail, this`board
      ensures Valid()
      ensures !IsDeferred(old(board).requests[slot].state) ==> unchanged(this) && released == 0
      ensures IsDeferred(old(board).requests[slot].state) ==>
                board == After(old(board), Releasing(slot)) && released == Released(old(board), Releasing(slot))
    {
      RecordAt(id, requests, waiters, head, tail, board, slot);
      var state := requests[slot].record.value.state;
      if !IsDeferred(state) {
        return 0;
      }
      released := Reveal(slot, state.completion);
    }

    /** Gives an open request its result. */
    method Complete(token: Token, completion: Completion, visible: bool) returns (r: Result<nat, RequestError>)
      requires Valid()
      modifies this`requests, this`waiters, this`head, this`tail, this`board
      ensures Valid()
      ensures r == Err(StaleOrForeignRequest) <==>
                !(token.broker == id && Names(old(board), token.slot, token.generation))
      ensures r == Err(AlreadyTerminal) <==>
                token.broker == id && Names(old(board), token.slot, token.generation)
                  && !IsOpen(old(board).requests[token.slot].state)
      ensures r != Err(NotTerminal) && (r.Err? ==> unchanged(this))
      ensures r.Ok? ==>
                var m := Completing(token.slot, completion, visible);
                Allowed(old(board), m) && board == After(old(board), m)
                  && |ReadySet(board)| == |ReadySet(old(board))| + r.value
    {
      var slot := RequestIndex(token);
      if slot.None? {
        return Err(StaleOrForeignRequest);
      }
      RecordAt(id, requests, waiters, head, tail, board, slot.value);
      if !IsOpen(requests[slot.value].record.value.state) {
        return Err(AlreadyTerminal);
      }
      FormedReleases(board, Completing(slot.value, completion, visible));
      var released := CompleteSlot(slot.value, completion, visible);
      return Ok(released);
    }

    /** Makes a deferred result visible without changing it. */
    method Release(token: Token) returns (r: Result<nat, RequestError>)
      requires Valid()
      modifies this`requests, this`waiters, this`head, this`tail, this`board
      ensures Valid()
      ensures r == Err(StaleOrForeignRequest) <==>
                !(token.broker == id && Names(old(board), token.slot, token.generation))
      ensures r == Err(NotTerminal) <==>
                token.broker == id && Names(old(board), token.slot, token.generation)
                  && IsOpen(old(board).requests[token.slot].state)
      ensures r != Err(AlreadyTerminal) && (r.Err? ==> unchanged(this))
      ensures r.Ok? && old(board).requests[token.slot].state.Visible? ==> unchanged(this) && r.value == 0
      ensures r.Ok? && !old(board).requests[token.slot].state.Visible? ==>
                && Allowed(old(board), Releasing(token.slot)) && board == After(old(board), Releasing(token.slot))
                && |ReadySet(board)| == |ReadySet(old(board))| + r.value
    {
      var slot := RequestIndex(token);
      if slot.None? {
        return Err(StaleOrForeignRequest);
      }
      RecordAt(id, requests, waiters, head, tail, board, slot.value);
      var state := requests[slot.value].record.value.state;
      if IsDeferred(state) {
        FormedReleases(board, Releasing(slot.value));
        var released := ReleaseSlot(slot.value);
        return Ok(released);
      } else if state.Visible? {
        return Ok(0);
      }
      return Err(NotTerminal);
    }

    // ----- sweeps -----

    /** Gives a slot's open request its result if it is picked. */
    method CompleteIf(slot: nat, pick: Snapshot -> bool, completion: Completion, visible: bool)
      returns (done: bool, released: nat)
      requires Valid()
      modifies this`requests, this`waiters, this`head, this`tail, this`board
      ensures Valid() && board.requestGen == old(board).requestGen
              && (done <==> Selected(id, old(board), pick, IsOpen, slot))
      ensures !done ==> unchanged(this) && released == 0
      ensures done ==> board == After(old(board), Completing(slot, completion, visible))
                       && |ReadySet(board)| == |ReadySet(old(board))| + released
    {
      var snapshot := SnapshotSlot(slot);
      if snapshot.None? {
        return false, 0;
      }
      var phase := snapshot.value.phase;
      if (phase == RequestPhase.Pending || phase == RequestPhase.Delivered) && pick(snapshot.value) {
        FormedReleases(board, Completing(slot, completion, visible));
        released := CompleteSlot(slot, completion, visible);
        return true, released;
      }
      return false, 0;
    }

    /** One slot of a completing sweep that began at board `b`. */
    method CompleteNext(
      slot: nat, pick: Snapshot -> bool, completion: Completion, visible: bool, sum: Summary, ghost b: Board,
        ghost boards: seq<Board>, ghost moves: seq<Move>)
      returns (total: Summary, ghost boards': seq<Board>, ghost moves': seq<Move>)
      requires Valid() && Sweeping(id, b, board, slot, pick, IsOpen, CompletedBy(completion, visible), boards, moves,
                                   sum.completed, sum.waiters)
      modifies this`requests, this`waiters, this`head, this`tail, this`board
      ensures Valid() && board.requestGen == old(board).requestGen && total.released == sum.released
      ensures Sweeping(id, b, board, slot + 1, pick, IsOpen, CompletedBy(completion, visible), boards', moves',
                       total.completed, total.waiters)
    {
      var done, released := CompleteIf(slot, pick, completion, visible);
      if done {
        ghost var m := Completing(slot, completion, visible);
        CompletingTurns(id, old(board), slot, pick, completion, visible, CompletedBy(completion, visible));
        SweepStep(id, b, old(board), slot, pick, IsOpen, CompletedBy(completion, visible), boards, moves, sum.completed,
                  sum.waiters, m, released);
        return sum.(completed := sum.completed + 1, waiters := sum.waiters + released), boards + [board], moves + [m];
      }
      SweepSkip(id, b, board, slot, pick, IsOpen, CompletedBy(completion, visible), boards, moves, sum.completed,
                sum.waiters);
      return sum, boards, moves;
    }

    /** Gives every open request that is picked its result. */
    method CompleteWhere(pick: Snapshot -> bool, completion: Completion, visible: bool)
      returns (sum: Summary, ghost boards: seq<Board>, ghost moves: seq<Move>)
      requires Valid()
      modifies this`requests, this`waiters, this`head, this`tail, this`board
      ensures Valid() && sum.released == 0
      ensures Sweeping(id, old(board), board, |old(board).requestGen|, pick, IsOpen, CompletedBy(completion, visible),
                       boards, moves, sum.completed, sum.waiters)
    {
      sum, boards, moves := Summary(0, 0, 0), [board], [];
      var slot := 0;
      SlotAt(id, requests, waiters, head, tail, board, 0);
      SweepStart(id, board, pick, IsOpen, CompletedBy(completion, visible));
      while slot < |requests|
        invariant Valid() && slot <= |requests| == |board.requestGen| && board.requestGen == old(board).requestGen
                  && sum.released == 0
        invariant Sweeping(id, old(board), board, slot, pick, IsOpen, CompletedBy(completion, visible), boards, moves,
                           sum.completed, sum.waiters)
        decreases |old(board).requestGen| - slot
      {
        sum, boards, moves := CompleteNext(slot, pick, completion, visible, sum, old(board), boards, moves);
        SlotAt(id, requests, waiters, head, tail, board, 0);
        slot := slot + 1;
      }
    }

    /** Makes a slot's deferred result visible if it is picked. */
    method ReleaseIf(slot: nat, pick: Snapshot -> bool) returns (done: bool, released: nat)
      requires Valid()
      modifies this`requests, this`waiters, this`head, this`tail, this`board
      ensures Valid() && board.requestGen == old(board).requestGen
              && (done <==> Selected(id, old(board), pick, IsDeferred, slot))
      ensures !done ==> unchanged(this) && released == 0
      ensures done ==> board == After(old(board), Releasing(slot))
                       && |ReadySet(board)| == |ReadySet(old(board))| + released
    {
      var snapshot := SnapshotSlot(slot);
      if snapshot.None? {
        return false, 0;
      }
      var phase := snapshot.value.phase;
      if (phase == RequestPhase.DeferredPending || phase == RequestPhase.DeferredDelivered) && pick(snapshot.value) {
        FormedReleases(board, Releasing(slot));
        released := ReleaseSlot(slot);
        return true, released;
      }
      return false, 0;
    }

    /** One slot of a releasing sweep that began at board `b`. */
    method ReleaseNext(slot: nat, pick: Snapshot -> bool, sum: Summary, ghost b: Board, ghost boards: seq<Board>,
                       ghost moves: seq<Move>)
      returns (total: Summary, ghost boards': seq<Board>, ghost moves': seq<Move>)
      requires Valid() && Sweeping(id, b, board, slot, pick, IsDeferred, Revealed, boards, moves, sum.released,
                                   sum.waiters)
      modifies this`requests, this`waiters, this`head, this`tail, this`board
      ensures Valid() && board.requestGen == old(board).requestGen && total.completed == sum.completed
      ensures Sweeping(id, b, board, slot + 1, pick, IsDeferred, Revealed, boards', moves', total.released,
                       total.waiters)
    {
      var done, released := ReleaseIf(slot, pick);
      if done {
        ReleasingTurns(id, old(board), slot, pick, Revealed);
        SweepStep(id, b, old(board), slot, pick, IsDeferred, Revealed, boards, moves, sum.released, sum.waiters,
                  Releasing(slot), released);
        return sum.(released := sum.released + 1, waiters := sum.waiters + released), boards + [board],
          moves + [Releasing(slot)];
      }
      SweepSkip(id, b, board, slot, pick, IsDeferred, Revealed, boards, moves, sum.released, sum.waiters);
      return sum, boards, moves;
    }

    /** Makes every deferred result that is picked visible. */
    method ReleaseWhere(pick: Snapshot -> bool) returns (sum: Summary, ghost boards: seq<Board>, ghost moves: seq<Move>)
      requires Valid()
      modifies this`requests, this`waiters, this`head, this`tail, this`board
      ensures Valid() && sum.completed == 0
      ensures Sweeping(id, old(board), board, |old(board).requestGen|, pick, IsDeferred, Revealed, boards, moves,
                       sum.released, sum.waiters)
    {
      sum, boards, moves := Summary(0, 0, 0), [board], [];
      var slot := 0;
      SlotAt(id, requests, waiters, head, tail, board, 0);
      SweepStart(id, board, pick, IsDeferred, Revealed);
      while slot < |requests|
        invariant Valid() && slot <= |requests| == |board.requestGen| && board.requestGen == old(board).requestGen
                  && sum.completed == 0
        invariant Sweeping(id, old(board), board, slot, pick, IsDeferred, Revealed, boards, moves, sum.released,
                           sum.waiters)
        decreases |old(board).requestGen| - slot
      {
        sum, boards, moves := ReleaseNext(slot, pick, sum, old(board), boards, moves);
        SlotAt(id, requests, waiters, head, tail, board, 0);
        slot := slot + 1;
      }
    }

    /** Makes every live request of a handler terminal and visible; deferred results stay as they were. */
    method DetachHandler(handler: Handler, completion: Completion)
      returns (sum: Summary, ghost boards: seq<Board>, ghost moves: seq<Move>)
      requires Valid()
      modifies this`requests, this`waiters, this`head, this`tail, this`board
      ensures Valid() && Leads(old(board), boards, moves, board)
      ensures Swept(old(board), board, Detached(old(board), handler, completion))
      ensures sum.completed == |Selection(id, old(board), |old(board).requestGen|, OwnedBy(handler), IsOpen)|
      ensures sum.released == |Selection(id, old(board), |old(board).requestGen|, OwnedBy(handler), IsDeferred)|
      ensures |ReadySet(board)| == |ReadySet(old(board))| + sum.waiters
    {
      ghost var b := board;
      sum, boards, moves := CompleteWhere(OwnedBy(handler), completion, true);
      ghost var d := board;
      var more, rest, next := ReleaseWhere(OwnedBy(handler));
      SweepsDetach(id, b, d, board, handler, completion, boards, moves, rest, next, sum.completed, more.released,
                   sum.waiters, more.waiters);
      boards, moves := boards + rest[1..], moves + next;
      sum := Summary(sum.completed + more.completed, sum.released + more.released, sum.waiters + more.waiters);
    }

    // ----- waiters -----

    /** A waiter's view of its request. */
    method Observe(token: Token) returns (r: Result<Option<Completion>, WaiterError>)
      requires Valid()
      ensures r.Err? <==> !(token.broker == id && NamesWaiter(board, token.slot, token.generation))
      ensures r.Err? ==> r.error == StaleOrForeignWaiter
      ensures r.Ok? ==> r.value == ReadyResult(board, token.slot)
    {
      var slot := WaiterIndex(token);
      if slot.None? {
        return Err(StaleOrForeignWaiter);
      }
      WaiterRecordAt(id, requests, waiters, head, tail, board, slot.value);
      var state := waiters[slot.value].record.value.state;
      return Ok(if state.Active? then None else Some(state.completion));
    }

    /** Takes a waiter out; its last waiter takes the request with it. */
    method RemoveWaiter(slot: nat) returns (r: Result<bool, WaiterError>)
      requires Valid() && Funded() && slot in board.owners
      modifies this`requests, this`waiters, this`head, this`tail, this`board, pool
      ensures Valid() && Funded() && Allowed(old(board), Parting(slot)) && board == After(old(board), Parting(slot))
      ensures r == Ok(Credits(old(board), Parting(slot)) == -1)
      ensures pool != null ==> pool.live == old(pool.live) + Credits(old(board), Parting(slot))
    {
      ghost var b, q, ws := board, PendingQueue(), waiters;
      WaiterRecordAt(id, requests, waiters, head, tail, board, slot);
      var waiter := waiters[slot].record.value;
      var index := RequestIndex(waiter.request);
      if index.None? {
        return Err(InconsistentWaiter);
      }
      RecordAt(id, requests, waiters, head, tail, board, index.value);
      ghost var k := WaiterPlace(id, q, ws, b, slot);
      WaiterAt(id, requests, waiters, head, tail, board, index.value, k);
      PartingShows(id, q, ws, b, slot, index.value, k);
      LeavingCredits(b, slot, index.value, k);
      r := Leave(slot, index.value);
      board := After(board, Parting(slot));
      assert waiters == Parted(ws, slot);
      assert PendingQueue() ==
             Left(q, index.value, slot, Before(b.requests[index.value].waiters, k),
                  Behind(b.requests[index.value].waiters, k));
      assert Shows(id, PendingQueue(), waiters, board);
    }

    /** Unlinks a waiter from its request, and reclaims the request when none is left. */
    method Leave(slot: nat, index: nat) returns (r: Result<bool, WaiterError>)
      requires slot < |waiters| && waiters[slot].record.Some?
      requires index < |requests| && requests[index].record.Some? && requests[index].record.value.waiterCount > 0
      requires NeighboursLive(waiters, slot)
      requires pool != null && requests[index].record.value.waiterCount == 1 ==> pool.Valid() && pool.live >= 1
      modifies this`requests, this`waiters, this`head, this`tail, pool
      ensures waiters == Parted(old(waiters), slot)
      ensures PendingQueue() ==
                Left(old(PendingQueue()), index, slot, old(waiters)[slot].record.value.prev,
                     old(waiters)[slot].record.value.next)
      ensures r == Ok(old(requests)[index].record.value.waiterCount == 1)
      ensures pool != null ==> pool.live == old(pool.live) - if old(requests)[index].record.value.waiterCount == 1
              then 1 else 0
      ensures pool != null && old(pool.Valid()) ==> pool.Valid()
    {
      var waiter := waiters[slot].record.value;
      if waiter.prev.Some? {
        if waiters[waiter.prev.value].record.None? {
          return Err(InconsistentWaiter);
        }
        waiters := UpdateWaiter(waiters, waiter.prev.value,
                                waiters[waiter.prev.value].record.value.(next := waiter.next));
      }
      if waiter.next.Some? {
        if waiters[waiter.next.value].record.None? {
          return Err(InconsistentWaiter);
        }
        waiters := UpdateWaiter(waiters, waiter.next.value,
                                waiters[waiter.next.value].record.value.(prev := waiter.prev));
      }
      var record := requests[index].record.value;
      if record.waiterHead == Some(slot) {
        record := record.(waiterHead := waiter.next);
      }
      if record.waiterTail == Some(slot) {
        record := record.(waiterTail := waiter.prev);
      }
      record := record.(waiterCount := record.waiterCount - 1);
      requests := Update(requests, index, record);
      waiters := waiters[slot := waiters[slot].(record := None)];
      if record.waiterCount == 0 {
        ReclaimRequest(index);
      }
      return Ok(record.waiterCount == 0);
    }

    method ReclaimRequest(slot: nat)
      requires slot < |requests| && requests[slot].record.Some? && (pool != null ==> pool.Valid() && pool.live >= 1)
      modifies this`requests, this`head, this`tail, pool
      ensures PendingQueue() == Reclaimed(old(PendingQueue()), slot)
      ensures pool != null ==> pool.Valid() && pool.live == old(pool.live) - 1
    {
      if Waiting(requests[slot].record.value.state) {
        UnlinkPending(slot);
      }
      requests := requests[slot := requests[slot].(record := None)];
      if pool != null {
        pool.Release(1);
      }
    }

    /** Cancels one waiter; the others of its request stay. */
    method CancelWaiter(token: Token) returns (r: Result<(Option<Completion>, bool), WaiterError>)
      requires Valid() && Funded()
      modifies this`requests, this`waiters, this`head, this`tail, this`board, pool
      ensures Valid() && Funded()
      ensures r.Err? <==> !(token.broker == id && NamesWaiter(old(board), token.slot, token.generation))
      ensures r.Err? ==> r.error == StaleOrForeignWaiter && unchanged(this)
                         && (pool != null ==> pool.live == old(pool.live))
      ensures r.Ok? ==>
                && Allowed(old(board), Parting(token.slot)) && board == After(old(board), Parting(token.slot))
                && r.value == (ReadyResult(old(board), token.slot), Credits(old(board), Parting(token.slot)) == -1)
                && (pool != null ==> pool.live == old(pool.live) + Credits(old(board), Parting(token.slot)))
    {
      var slot := WaiterIndex(token);
      if slot.None? {
        return Err(StaleOrForeignWaiter);
      }
      WaiterRecordAt(id, requests, waiters, head, tail, board, slot.value);
      var state := waiters[slot.value].record.value.state;
      var removed := RemoveWaiter(slot.value);
      if removed.Err? {
        return Err(InconsistentWaiter);
      }
      return Ok((if state.Active? then None else Some(state.completion), removed.value));
    }

    /** Consumes a visible result together with its waiter. */
    method TakeCompletion(token: Token) returns (r: Result<(Completion, bool), WaiterError>)
      requires Valid() && Funded()
      modifies this`requests, this`waiters, this`head, this`tail, this`board, pool
      ensures Valid() && Funded()
      ensures r == Err(StaleOrForeignWaiter) <==>
                !(token.broker == id && NamesWaiter(old(board), token.slot, token.generation))
      ensures r == Err(NotReady) <==>
                token.broker == id && NamesWaiter(old(board), token.slot, token.generation)
                  && ReadyResult(old(board), token.slot).None?
      ensures r != Err(InconsistentWaiter)
              && (r.Err? ==> unchanged(this) && (pool != null ==> pool.live == old(pool.live)))
      ensures r.Ok? ==>
                && Allowed(old(board), Parting(token.slot)) && board == After(old(board), Parting(token.slot))
                && ReadyResult(old(board), token.slot) == Some(r.value.0)
                   && r.value.1 == (Credits(old(board), Parting(token.slot)) == -1)
                && (pool != null ==> pool.live == old(pool.live) + Credits(old(board), Parting(token.slot)))
    {
      var slot := WaiterIndex(token);
      if slot.None? {
        return Err(StaleOrForeignWaiter);
      }
      WaiterRecordAt(id, requests, waiters, head, tail, board, slot.value);
      var state := waiters[slot.value].record.value.state;
      if state.Active? {
        return Err(NotReady);
      }
      var removed := RemoveWaiter(slot.value);
      if removed.Err? {
        return Err(InconsistentWaiter);
      }
      return Ok((state.completion, removed.value));
    }
  }

  /** The result that a waiter can see. */
  function ReadyResult(b: Board, w: nat): Option<Completion> {
    if IsReady(b, w) then Some(b.requests[b.owners[w]].state.completion) else None
  }

  /** The neighbours of a waiter hold records. */
  predicate NeighboursLive(ws: seq<WaiterSlot>, w: nat)
    requires w < |ws| && ws[w].record.Some?
  {
    var r := ws[w].record.value;
    && (r.prev.Some? ==> r.prev.value < |ws| && r.prev.value != w && ws[r.prev.value].record.Some?)
    && (r.next.Some? ==> r.next.value < |ws| && r.next.value != w && ws[r.next.value].record.Some?)
  }

  /** A live waiter's record. */
  lemma WaiterRecordAt(id: nat, rs: seq<RequestSlot>, ws: seq<WaiterSlot>, head: Option<nat>, tail: Option<nat>,
                       b: Board, w: nat)
    requires Represents(id, rs, ws, head, tail, b) && w in b.owners
    ensures w < |ws| && ws[w].record.Some? && b.owners[w] in b.requests && b.owners[w] < |b.requestGen|
    ensures ws[w].record.value.request == Token(id, b.owners[w], b.requestGen[b.owners[w]])
    ensures ReadyResult(b, w) ==
            (if ws[w].record.value.state.Active? then None else Some(ws[w].record.value.state.completion))
    ensures NeighboursLive(ws, w)
  {
    var k := WaiterPlace(id, Queue(rs, head, tail), ws, b, w);
    var s := b.owners[w];
    ListAt(id, rs, ws, head, tail, b, s);
    WaiterAt(id, rs, ws, head, tail, b, s, k);
  }

  /** Whether the last waiter leaves, in the request's own count and in credits. */
  lemma LeavingCredits(b: Board, w: nat, s: nat, k: nat)
    requires Formed(b) && w in b.owners && b.owners[w] == s && s in b.requests
    requires k < |b.requests[s].waiters| && b.requests[s].waiters[k] == w
    ensures Credits(b, Parting(w)) == (if |b.requests[s].waiters| == 1 then -1 else 0)
    ensures |After(b, Parting(w)).requests| == |b.requests| + Credits(b, Parting(w)) && |b.requests| >= 1
  {
    assert LookBoard(b, 0);
    assert EntryOk(b, s);
    CreditsExact(b, Parting(w));
    MapWithout(b.requests, s);
  }

  /** Taking a request out of the queue and restating it leaves its waiters alone. */
  lemma RestatedRecord(q: Queue, s: nat, state: RequestState)
    requires s < |q.slots| && q.slots[s].record.Some?
    ensures var t := Restated(q, s, state);
            && |t.slots| == |q.slots| && t.slots[s].record.Some?
            && t.slots[s].record.value.waiterHead == q.slots[s].record.value.waiterHead
  {
    UnlinkedFacts(q.slots, s);
  }

  lemma FormedReleases(b: Board, m: Move)
    requires Formed(b) && Allowed(b, m) && !m.Parting?
    ensures |ReadySet(After(b, m))| == |ReadySet(b)| + Released(b, m)
  {
    assert LookBoard(b, 0);
    ReleasedExactly(b, m);
  }

  /** The first of its handler in the queue is the oldest pending one. */
  lemma OldestOf(b: Board, i: nat)
    requires Formed(b) && i < |b.fifo| && b.fifo[i] in b.requests
    requires forall j :: 0 <= j < i ==>
               b.fifo[j] in b.requests && b.requests[b.fifo[j]].handler != b.requests[b.fifo[i]].handler
    ensures forall x ::
              x in b.requests && Waiting(b.requests[x].state)
              && b.requests[x].handler == b.requests[b.fifo[i]].handler
              ==> b.requests[b.fifo[i]].stamp <= b.requests[x].stamp
  {
    assert LookBoard(b, 0);
    forall x | x in b.requests && Waiting(b.requests[x].state) && b.requests[x].handler == b.requests[b.fifo[i]].handler
      ensures b.requests[b.fifo[i]].stamp <= b.requests[x].stamp
    {
      OlderThan(b, i, x);
    }
  }

  lemma OlderThan(b: Board, i: nat, x: nat)
    requires QueueOk(b) && Ordered(b.fifo, Stamps(b)) && i < |b.fifo| && b.fifo[i] in b.requests
    requires forall j :: 0 <= j < i ==> b.fifo[j] in b.requests
                                        && b.requests[b.fifo[j]].handler != b.requests[b.fifo[i]].handler
    requires x in b.requests && Waiting(b.requests[x].state) && b.requests[x].handler == b.requests[b.fifo[i]].handler
    ensures b.requests[b.fifo[i]].stamp <= b.requests[x].stamp
  {
    var j := IndexOf(b.fifo, x);
    if i < j {
      assert Stamps(b)(b.fifo[i]) < Stamps(b)(b.fifo[j]);
    }
  }

  lemma NoneOf(b: Board, handler: Handler)
    requires Formed(b)
    requires forall j :: 0 <= j < |b.fifo| ==> b.fifo[j] in b.requests && b.requests[b.fifo[j]].handler != handler
    ensures forall s :: s in b.requests && Waiting(b.requests[s].state) ==> b.requests[s].handler != handler
  {
    assert LookBoard(b, 0);
    forall s | s in b.requests && Waiting(b.requests[s].state) ensures b.requests[s].handler != handler {
      var j := IndexOf(b.fifo, s);
    }
  }
}
