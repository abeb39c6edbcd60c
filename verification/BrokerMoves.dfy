/** The slot updates of the broker and the moves of the board that they carry out. */
module BrokerMoves {
  import opened Words
  import opened LinkedLists
  import opened FaultBoard
  import opened BrokerSlots

  datatype Queue = Queue(slots: seq<RequestSlot>, head: Option<nat>, tail: Option<nat>)

  /** A slot taken out of the pending queue. */
  function TakenOut(q: Queue, s: nat): Queue
    requires s < |q.slots| && q.slots[s].record.Some?
  {
    var r := q.slots[s].record.value;
    Queue(Unlinked(q.slots, s), if r.prev.None? then r.next else q.head, if r.next.None? then r.prev else q.tail)
  }

  // ----- state changes -----

  lemma FactsSide(rs: seq<RequestSlot>, ts: seq<RequestSlot>, b: Board, c: Board)
    requires RecordsOk(rs, b) && SameFacts(rs, ts) && c.requestGen == b.requestGen && c.requests == b.requests
    ensures RecordsOk(ts, c)
  {
    forall s | 0 <= s < |ts| && s in c.requests
      ensures ts[s].record.Some? && RecordMatches(ts[s].record.value, c.requests[s]) {
      assert ts[s].record.value.(prev := None, next := None) == rs[s].record.value.(prev := None, next := None);
    }
  }

  /** Taking a waiting request out of the queue. */
  lemma TakenOutSide(q: Queue, b: Board, s: nat)
    requires RequestSide(q.slots, q.head, q.tail, b) && s in b.fifo
    ensures s < |q.slots| && q.slots[s].record.Some?
    ensures var t := TakenOut(q, s); RequestSide(t.slots, t.head, t.tail, b.(fifo := Minus(b.fifo, s)))
  {
    var k := IndexOf(b.fifo, s);
    UnlinkRemoves(q.slots, q.head, q.tail, b.fifo, k);
    UnlinkedFacts(q.slots, s);
    FactsSide(q.slots, Unlinked(q.slots, s), b, b.(fifo := Minus(b.fifo, s)));
  }

  lemma RecordSetRecords(rs: seq<RequestSlot>, b: Board, s: nat, r: RequestRecord, e: Entry)
    requires RecordsOk(rs, b) && s in b.requests && s < |rs| && RecordMatches(r, e)
    ensures RecordsOk(Update(rs, s, r), b.(requests := b.requests[s := e]))
  {
  }

  lemma RecordSetLinks(rs: seq<RequestSlot>, s: nat, r: RequestRecord, x: nat)
    requires s < |rs| && rs[s].record.Some? && r.prev == rs[s].record.value.prev && r.next == rs[s].record.value.next
             && x < |rs| && rs[x].record.Some?
    ensures Update(rs, s, r)[x].record.Some? && PrevOf(Update(rs, s, r))(x) == PrevOf(rs)(x)
            && NextOf(Update(rs, s, r))(x) == NextOf(rs)(x)
  {
  }

  /** A record that keeps its links, replaced together with what it stands for. */
  lemma RecordSet(q: Queue, b: Board, s: nat, r: RequestRecord, e: Entry)
    requires RequestSide(q.slots, q.head, q.tail, b) && s in b.requests && s < |q.slots| && RecordMatches(r, e)
    requires q.slots[s].record.Some? && r.prev == q.slots[s].record.value.prev && r.next == q.slots[s].record.value.next
    ensures RequestSide(Update(q.slots, s, r), q.head, q.tail, b.(requests := b.requests[s := e]))
  {
    RecordSetRecords(q.slots, b, s, r, e);
    var ts := Update(q.slots, s, r);
    forall i | 0 <= i < |b.fifo| && b.fifo[i] < |q.slots| && q.slots[b.fifo[i]].record.Some?
      ensures ts[b.fifo[i]].record.Some? && PrevOf(ts)(b.fifo[i]) == PrevOf(q.slots)(b.fifo[i])
              && NextOf(ts)(b.fifo[i]) == NextOf(q.slots)(b.fifo[i])
    {
      RecordSetLinks(q.slots, s, r, b.fifo[i]);
    }
    FifoKept(q.slots, ts, q.head, q.tail, b.fifo);
  }

  /** A request record whose state alone changes. */
  lemma RestateSide(q: Queue, b: Board, s: nat, state: RequestState)
    requires RequestSide(q.slots, q.head, q.tail, b) && s in b.requests && s < |q.slots|
    ensures q.slots[s].record.Some?
    ensures RequestSide(Update(q.slots, s, q.slots[s].record.value.(state := state)), q.head, q.tail,
                        b.(requests := b.requests[s := b.requests[s].(state := state)]))
  {
    assert RecordMatches(q.slots[s].record.value, b.requests[s]);
    RecordSet(q, b, s, q.slots[s].record.value.(state := state), b.requests[s].(state := state));
  }

  lemma NotThere(list: seq<nat>, x: nat)
    requires x !in list
    ensures Minus(list, x) == list
  {
  }

  /** The request slots after a state change: out of the queue if it no longer waits, then the new state. */
  function Restated(q: Queue, s: nat, state: RequestState): Queue
    requires s < |q.slots| && q.slots[s].record.Some?
  {
    var t := if Waiting(q.slots[s].record.value.state) && !Waiting(state) then TakenOut(q, s) else q;
    if t.slots[s].record.Some? then t.(slots := Update(t.slots, s, t.slots[s].record.value.(state := state))) else t
  }

  lemma RestatedSide(q: Queue, b: Board, s: nat, state: RequestState)
    requires WellFormed(b) && RequestSide(q.slots, q.head, q.tail, b) && s in b.requests && s < |q.slots|
    requires Waiting(state) ==> Waiting(b.requests[s].state)
    ensures q.slots[s].record.Some?
    ensures var t := Restated(q, s, state); RequestSide(t.slots, t.head, t.tail, WithState(b, s, state))
  {
    assert q.slots[s].record.Some? && q.slots[s].record.value.state == b.requests[s].state;
    if Waiting(b.requests[s].state) && !Waiting(state) {
      TakenOutSide(q, b, s);
      RestateSide(TakenOut(q, s), b.(fifo := Minus(b.fifo, s)), s, state);
    } else {
      if !Waiting(state) {
        NotThere(b.fifo, s);
      }
      RestateSide(q, b, s, state);
    }
  }

  // ----- what waiters see -----

  /** A state change between invisible states is invisible to waiters. */
  lemma HiddenSide(id: nat, ws: seq<WaiterSlot>, b: Board, s: nat, state: RequestState)
    requires WaiterSide(id, ws, b) && s in b.requests && !b.requests[s].state.Visible? && !state.Visible?
    ensures WaiterSide(id, ws, WithState(b, s, state))
  {
    var c := WithState(b, s, state);
    forall w | 0 <= w < |ws| && w in c.owners
      ensures ws[w].record.Some? && WaiterMatches(id, ws[w].record.value, c, w) {
      assert WaiterMatches(id, ws[w].record.value, b, w);
    }
  }

  /** The waiters of a list made ready. */
  predicate PublishedTo(ws: seq<WaiterSlot>, ts: seq<WaiterSlot>, list: seq<nat>, c: Completion) {
    && |ts| == |ws|
    && forall w :: 0 <= w < |ws| ==>
         if w in list && ws[w].record.Some? then ts[w] == ws[w].(record := Some(ws[w].record.value.(state := Ready(c))))
             else ts[w] == ws[w]
  }

  lemma PublishedRecords(id: nat, ws: seq<WaiterSlot>, ts: seq<WaiterSlot>, b: Board, s: nat, c: Completion)
    requires EntriesOk(b) && OwnersOk(b) && WaiterRecordsOk(id, ws, b) && s in b.requests
    requires PublishedTo(ws, ts, b.requests[s].waiters, c)
    ensures WaiterRecordsOk(id, ts, WithState(b, s, Visible(c)))
  {
    var d := WithState(b, s, Visible(c));
    assert EntryOk(b, s);
    forall w | 0 <= w < |ts| && w in d.owners
      ensures ts[w].record.Some? && WaiterMatches(id, ts[w].record.value, d, w) {
      assert WaiterMatches(id, ws[w].record.value, b, w);
    }
  }

  lemma PublishedSide(id: nat, ws: seq<WaiterSlot>, ts: seq<WaiterSlot>, b: Board, s: nat, c: Completion)
    requires EntriesOk(b) && OwnersOk(b) && WaiterSide(id, ws, b) && s in b.requests
    requires PublishedTo(ws, ts, b.requests[s].waiters, c)
    ensures WaiterSide(id, ts, WithState(b, s, Visible(c)))
  {
    var d := WithState(b, s, Visible(c));
    PublishedRecords(id, ws, ts, b, s, c);
    forall x | x in d.requests ensures WaiterListOk(ts, d.requests[x].waiters) {
      assert d.requests[x].waiters == b.requests[x].waiters;
      ListKept(ws, ts, b.requests[x].waiters);
    }
  }

  // ----- a new request -----

  function FreshRecord(k: Key, h: Handler, tail: Option<nat>): RequestRecord {
    RequestRecord(k, h, Pending, None, None, 0, tail, None)
  }

  /** A new request at the end of the queue, without waiters yet. */
  function Enqueued(q: Queue, s: nat, generation: nat, k: Key, h: Handler): Queue
    requires s < |q.slots|
  {
    var a := q.slots[s := RequestSlot(generation, Some(FreshRecord(k, h, q.tail)))];
    if q.tail.Some? then
      if q.tail.value < |a| && a[q.tail.value].record.Some? then
        Queue(Update(a, q.tail.value, a[q.tail.value].record.value.(next := Some(s))), q.head, Some(s))
      else Queue(a, q.head, Some(s))
    else Queue(a, Some(s), Some(s))
  }

  lemma EnqueuedAt(q: Queue, s: nat, generation: nat, k: Key, h: Handler, x: nat)
    requires s < |q.slots| && x < |q.slots| && q.tail != Some(s)
    ensures |Enqueued(q, s, generation, k, h).slots| == |q.slots|
    ensures Enqueued(q, s, generation, k, h).slots[x] ==
              if x == s then RequestSlot(generation, Some(FreshRecord(k, h, q.tail)))
              else if q.tail == Some(x) && q.slots[x].record.Some?
                  then q.slots[x].(record := Some(q.slots[x].record.value.(next := Some(s))))
              else q.slots[x]
  {
  }

  lemma LastIsUnique(list: seq<nat>, i: nat)
    requires Distinct(list) && i < |list|
    ensures Last(list) == Some(list[i]) <==> i + 1 == |list|
  {
  }

  lemma EnqueuedFifo(q: Queue, fifo: seq<nat>, s: nat, generation: nat, k: Key, h: Handler)
    requires FifoOk(q.slots, q.head, q.tail, fifo) && s < |q.slots| && s !in fifo
    ensures var t := Enqueued(q, s, generation, k, h); FifoOk(t.slots, t.head, t.tail, fifo + [s])
  {
    var t := Enqueued(q, s, generation, k, h);
    assert q.tail != Some(s);
    EnqueuedAt(q, s, generation, k, h, s);
    forall i | 0 <= i < |fifo|
      ensures PrevOf(t.slots)(fifo[i]) == PrevOf(q.slots)(fifo[i])
      ensures NextOf(t.slots)(fifo[i]) == (if i + 1 == |fifo| then Some(s) else NextOf(q.slots)(fifo[i]))
      ensures t.slots[fifo[i]].record.Some?
    {
      assert fifo[i] in fifo;
      LastIsUnique(fifo, i);
      EnqueuedAt(q, s, generation, k, h, fifo[i]);
    }
    AppendFifo(q, t, fifo, s);
  }

  lemma AppendFifo(q: Queue, t: Queue, fifo: seq<nat>, s: nat)
    requires FifoOk(q.slots, q.head, q.tail, fifo) && s < |q.slots| == |t.slots| && s !in fifo
    requires t.slots[s].record.Some? && t.slots[s].record.value.prev == q.tail && t.slots[s].record.value.next.None?
    requires t.head == (if q.tail.None? then Some(s) else q.head) && t.tail == Some(s)
    requires forall i :: 0 <= i < |fifo| ==>
               && PrevOf(t.slots)(fifo[i]) == PrevOf(q.slots)(fifo[i])
               && NextOf(t.slots)(fifo[i]) == (if i + 1 == |fifo| then Some(s) else NextOf(q.slots)(fifo[i]))
               && fifo[i] < |t.slots| && t.slots[fifo[i]].record.Some?
    ensures FifoOk(t.slots, t.head, t.tail, fifo + [s])
  {
    Appended(fifo, s, PrevOf(q.slots), NextOf(q.slots), PrevOf(t.slots), NextOf(t.slots));
  }

  lemma EnqueuedRecords(q: Queue, b: Board, s: nat, k: Key, h: Handler, c: Board)
    requires RecordsOk(q.slots, b) && s < |q.slots| && s !in b.requests && q.tail != Some(s)
    requires c.requests == b.requests[s := Entry(k, h, Pending, [], b.clock)]
             && c.requestGen == b.requestGen[s := b.requestGen[s] + 1]
    ensures RecordsOk(Enqueued(q, s, b.requestGen[s] + 1, k, h).slots, c)
  {
    var ts := Enqueued(q, s, b.requestGen[s] + 1, k, h).slots;
    forall x | 0 <= x < |ts|
      ensures ts[x].generation == c.requestGen[x] && (ts[x].record.Some? <==> x in c.requests)
      ensures x in c.requests ==> ts[x].record.Some? && RecordMatches(ts[x].record.value, c.requests[x])
    {
      EnqueuedAt(q, s, b.requestGen[s] + 1, k, h, x);
    }
  }

  /** The request slots after an admission, with the first waiter recorded. */
  function AdmittedSlots(q: Queue, s: nat, generation: nat, w: nat, k: Key, h: Handler): Queue
    requires s < |q.slots|
  {
    var t := Enqueued(q, s, generation, k, h);
    if t.slots[s].record.Some? then
      t.(slots := Update(t.slots, s,
                         t.slots[s].record.value.(waiterHead := Some(w), waiterTail := Some(w), waiterCount := 1)))
    else t
  }

  lemma NotQueued(b: Board, head: Option<nat>, tail: Option<nat>, rs: seq<RequestSlot>, s: nat)
    requires QueueOk(b) && FifoOk(rs, head, tail, b.fifo) && s !in b.requests
    ensures s !in b.fifo && tail != Some(s)
  {
  }

  /** The board between the two steps: the request is queued and has no waiter yet. */
  function Halfway(b: Board, s: nat, k: Key, h: Handler): Board
    requires s < |b.requestGen|
  {
    b.(requests := b.requests[s := Entry(k, h, Pending, [], b.clock)],
       requestGen := b.requestGen[s := b.requestGen[s] + 1], fifo := b.fifo + [s])
  }

  lemma EnqueuedSide(q: Queue, b: Board, s: nat, k: Key, h: Handler)
    requires QueueOk(b) && RequestSide(q.slots, q.head, q.tail, b) && s < |b.requestGen| && s !in b.requests
    ensures s < |q.slots|
    ensures var t := Enqueued(q, s, b.requestGen[s] + 1, k, h);
            RequestSide(t.slots, t.head, t.tail, Halfway(b, s, k, h))
  {
    NotQueued(b, q.head, q.tail, q.slots, s);
    EnqueuedFifo(q, b.fifo, s, b.requestGen[s] + 1, k, h);
    EnqueuedRecords(q, b, s, k, h, Halfway(b, s, k, h));
  }

  lemma HalfwayAdmitted(b: Board, s: nat, w: nat, k: Key, h: Handler)
    requires Allowed(b, Admission(s, w, h, k))
    ensures var c, d := Halfway(b, s, k, h), After(b, Admission(s, w, h, k));
            && s in c.requests && c.requests[s].waiters == []
            && d.requests == c.requests[s := c.requests[s].(waiters := [w])] && d.fifo == c.fifo
               && d.requestGen == c.requestGen
  {
    MapTwice(b.requests, s, Entry(k, h, Pending, [], b.clock), Entry(k, h, Pending, [w], b.clock));
  }

  lemma AdmittedSide(q: Queue, b: Board, s: nat, w: nat, k: Key, h: Handler)
    requires QueueOk(b) && RequestSide(q.slots, q.head, q.tail, b) && Allowed(b, Admission(s, w, h, k))
    ensures s < |q.slots|
    ensures var t := AdmittedSlots(q, s, b.requestGen[s] + 1, w, k, h);
            RequestSide(t.slots, t.head, t.tail, After(b, Admission(s, w, h, k)))
  {
    EnqueuedSide(q, b, s, k, h);
    HalfwayAdmitted(b, s, w, k, h);
    FirstRecorded(Enqueued(q, s, b.requestGen[s] + 1, k, h), Halfway(b, s, k, h), s, w,
                  After(b, Admission(s, w, h, k)));
  }

  lemma MapTwice(m: map<nat, Entry>, s: nat, d: Entry, e: Entry)
    ensures m[s := d][s := e] == m[s := e]
  {
  }

  lemma FirstRecorded(t: Queue, c: Board, s: nat, w: nat, d: Board)
    requires RequestSide(t.slots, t.head, t.tail, c) && s < |t.slots| && s in c.requests && c.requests[s].waiters == []
    requires d.requests == c.requests[s := c.requests[s].(waiters := [w])] && d.fifo == c.fifo
             && d.requestGen == c.requestGen
    ensures t.slots[s].record.Some?
    ensures RequestSide(Update(t.slots, s,
                               t.slots[s].record.value.(waiterHead := Some(w), waiterTail := Some(w),
                                                        waiterCount := 1)), t.head, t.tail, d)
  {
    assert RecordMatches(t.slots[s].record.value, c.requests[s]);
    RecordSet(t, c, s, t.slots[s].record.value.(waiterHead := Some(w), waiterTail := Some(w), waiterCount := 1),
              c.requests[s].(waiters := [w]));
  }

  /** The waiter slots after the first waiter of a new request was recorded. */
  function FirstWaiter(ws: seq<WaiterSlot>, w: nat, generation: nat, request: Token): seq<WaiterSlot>
    requires w < |ws|
  {
    ws[w := WaiterSlot(generation, Some(WaiterRecord(request, Active, None, None)))]
  }

  lemma ListWithout(ws: seq<WaiterSlot>, ts: seq<WaiterSlot>, list: seq<nat>, w: nat)
    requires WaiterListOk(ws, list) && |ts| == |ws| && w !in list && forall x :: 0 <= x < |ws| && x != w ==>
               ts[x] == ws[x]
    ensures WaiterListOk(ts, list)
  {
    forall i | 0 <= i < |list| ensures list[i] != w {
      assert list[i] in list;
    }
    ListKept(ws, ts, list);
  }

  lemma FirstWaiterRecords(id: nat, ws: seq<WaiterSlot>, b: Board, m: Move)
    requires OwnersOk(b) && WaiterRecordsOk(id, ws, b) && m.Admission? && Allowed(b, m)
    ensures m.waiter < |ws|
    ensures WaiterRecordsOk(id,
                            FirstWaiter(ws, m.waiter, b.waiterGen[m.waiter] + 1,
                                        Token(id, m.slot, b.requestGen[m.slot] + 1)), After(b, m))
  {
    var ts, c := FirstWaiter(ws, m.waiter, b.waiterGen[m.waiter] + 1, Token(id, m.slot, b.requestGen[m.slot] + 1)),
      After(b, m);
    forall x | 0 <= x < |ts| && x in c.owners
      ensures ts[x].record.Some? && WaiterMatches(id, ts[x].record.value, c, x) {
      if x != m.waiter {
        assert WaiterMatches(id, ws[x].record.value, b, x);
      }
    }
  }

  lemma FirstWaiterLists(ws: seq<WaiterSlot>, b: Board, m: Move, generation: nat, request: Token)
    requires EntriesOk(b) && ListsOk(ws, b) && m.Admission? && Allowed(b, m) && m.waiter < |ws|
    ensures ListsOk(FirstWaiter(ws, m.waiter, generation, request), After(b, m))
  {
    var ts, c := FirstWaiter(ws, m.waiter, generation, request), After(b, m);
    forall x | x in c.requests ensures WaiterListOk(ts, c.requests[x].waiters) {
      if x != m.slot {
        assert EntryOk(b, x);
        ListWithout(ws, ts, b.requests[x].waiters, m.waiter);
      }
    }
  }

  lemma FirstWaiterSide(id: nat, ws: seq<WaiterSlot>, b: Board, m: Move)
    requires EntriesOk(b) && OwnersOk(b) && WaiterSide(id, ws, b) && m.Admission? && Allowed(b, m)
    ensures m.waiter < |ws|
    ensures WaiterSide(id,
                       FirstWaiter(ws, m.waiter, b.waiterGen[m.waiter] + 1,
                                   Token(id, m.slot, b.requestGen[m.slot] + 1)), After(b, m))
  {
    FirstWaiterRecords(id, ws, b, m);
    FirstWaiterLists(ws, b, m, b.waiterGen[m.waiter] + 1, Token(id, m.slot, b.requestGen[m.slot] + 1));
  }

  // ----- one more waiter -----

  /** The waiter slots after `w` was appended behind the last waiter `last`. */
  function JoinedWaiters(ws: seq<WaiterSlot>, w: nat, generation: nat, request: Token, last: nat): seq<WaiterSlot>
    requires w < |ws|
  {
    var a := ws[w := WaiterSlot(generation, Some(WaiterRecord(request, Active, Some(last), None)))];
    if last < |a| && a[last].record.Some? then UpdateWaiter(a, last, a[last].record.value.(next := Some(w))) else a
  }

  lemma JoinedAt(ws: seq<WaiterSlot>, w: nat, generation: nat, request: Token, last: nat, x: nat)
    requires w < |ws| && last < |ws| && last != w && ws[last].record.Some? && x < |ws|
    ensures |JoinedWaiters(ws, w, generation, request, last)| == |ws|
    ensures JoinedWaiters(ws, w, generation, request, last)[x] ==
              if x == w then WaiterSlot(generation, Some(WaiterRecord(request, Active, Some(last), None)))
              else if x == last then ws[x].(record := Some(ws[x].record.value.(next := Some(w))))
              else ws[x]
  {
  }

  lemma JoinedList(ws: seq<WaiterSlot>, list: seq<nat>, w: nat, generation: nat, request: Token)
    requires WaiterListOk(ws, list) && Distinct(list) && list != [] && w < |ws| && w !in list
    ensures WaiterListOk(JoinedWaiters(ws, w, generation, request, list[|list| - 1]), list + [w])
  {
    var last := list[|list| - 1];
    var ts := JoinedWaiters(ws, w, generation, request, last);
    assert last in list;
    JoinedAt(ws, w, generation, request, last, w);
    forall i | 0 <= i < |list|
      ensures WaiterPrev(ts)(list[i]) == WaiterPrev(ws)(list[i])
      ensures WaiterNext(ts)(list[i]) == (if i + 1 == |list| then Some(w) else WaiterNext(ws)(list[i]))
      ensures list[i] < |ts| && ts[list[i]].record.Some?
    {
      assert list[i] in list;
      LastIsUnique(list, i);
      JoinedAt(ws, w, generation, request, last, list[i]);
    }
    Appended(list, w, WaiterPrev(ws), WaiterNext(ws), WaiterPrev(ts), WaiterNext(ts));
  }

  lemma JoinedOther(ws: seq<WaiterSlot>, other: seq<nat>, w: nat, generation: nat, request: Token, last: nat)
    requires WaiterListOk(ws, other) && w < |ws| && last < |ws| && last != w && ws[last].record.Some? && w !in other
             && last !in other
    ensures WaiterListOk(JoinedWaiters(ws, w, generation, request, last), other)
  {
    var ts := JoinedWaiters(ws, w, generation, request, last);
    JoinedAt(ws, w, generation, request, last, w);
    forall i | 0 <= i < |other| && other[i] < |ws| && ws[other[i]].record.Some? ensures ts[other[i]] == ws[other[i]] {
      assert other[i] in other;
      JoinedAt(ws, w, generation, request, last, other[i]);
    }
    ListKept(ws, ts, other);
  }

  /** The last waiter of a live request. */
  lemma LastWaiter(id: nat, ws: seq<WaiterSlot>, b: Board, s: nat)
    requires EntriesOk(b) && WaiterRecordsOk(id, ws, b) && OwnersOk(b) && s in b.requests
    ensures b.requests[s].waiters != [] && Distinct(b.requests[s].waiters)
    ensures var last := b.requests[s].waiters[|b.requests[s].waiters| - 1];
            last in b.owners && b.owners[last] == s && last < |ws| && ws[last].record.Some?
  {
    assert EntryOk(b, s);
    assert b.requests[s].waiters[|b.requests[s].waiters| - 1] in b.requests[s].waiters;
  }

  lemma JoinedRecords(id: nat, ws: seq<WaiterSlot>, b: Board, m: Move, last: nat)
    requires WaiterRecordsOk(id, ws, b) && OwnersOk(b) && m.Joining? && Allowed(b, m) && m.slot < |b.requestGen|
    requires last < |ws| && last != m.waiter && ws[last].record.Some?
    ensures m.waiter < |ws|
    ensures WaiterRecordsOk(id,
                            JoinedWaiters(ws, m.waiter, b.waiterGen[m.waiter] + 1,
                                          Token(id, m.slot, b.requestGen[m.slot]), last), After(b, m))
  {
    var g, t, c := b.waiterGen[m.waiter] + 1, Token(id, m.slot, b.requestGen[m.slot]), After(b, m);
    var ts := JoinedWaiters(ws, m.waiter, g, t, last);
    JoinedAt(ws, m.waiter, g, t, last, m.waiter);
    forall x | 0 <= x < |ts|
      ensures ts[x].generation == c.waiterGen[x] && (ts[x].record.Some? <==> x in c.owners)
      ensures x in c.owners ==> ts[x].record.Some? && WaiterMatches(id, ts[x].record.value, c, x)
    {
      JoinedAt(ws, m.waiter, g, t, last, x);
      if x != m.waiter && x in b.owners {
        assert WaiterMatches(id, ws[x].record.value, b, x);
      }
    }
  }

  lemma JoinedLists(id: nat, ws: seq<WaiterSlot>, b: Board, m: Move, generation: nat, request: Token, last: nat)
    requires EntriesOk(b) && ListsOk(ws, b) && m.Joining? && Allowed(b, m) && m.waiter < |ws|
    requires b.requests[m.slot].waiters != [] && last == b.requests[m.slot].waiters[|b.requests[m.slot].waiters| - 1]
    requires last < |ws| && last != m.waiter && ws[last].record.Some?
    ensures ListsOk(JoinedWaiters(ws, m.waiter, generation, request, last), After(b, m))
  {
    var ts, c := JoinedWaiters(ws, m.waiter, generation, request, last), After(b, m);
    assert EntryOk(b, m.slot);
    assert last in b.requests[m.slot].waiters;
    forall x | x in c.requests ensures WaiterListOk(ts, c.requests[x].waiters) {
      assert EntryOk(b, x) && WaiterListOk(ws, b.requests[x].waiters);
      if x == m.slot {
        JoinedList(ws, b.requests[x].waiters, m.waiter, generation, request);
      } else {
        JoinedOther(ws, b.requests[x].waiters, m.waiter, generation, request, last);
      }
    }
  }

  function Heavier(r: RequestRecord, w: nat): RequestRecord {
    r.(waiterTail := Some(w), waiterCount := r.waiterCount + 1)
  }

  lemma HeavierMatches(r: RequestRecord, e: Entry, w: nat)
    requires RecordMatches(r, e) && e.waiters != []
    ensures RecordMatches(Heavier(r, w), e.(waiters := e.waiters + [w]))
  {
  }

  lemma JoinedSide(q: Queue, b: Board, m: Move)
    requires RequestSide(q.slots, q.head, q.tail, b) && m.Joining? && Allowed(b, m) && m.slot < |q.slots|
             && b.requests[m.slot].waiters != []
    ensures q.slots[m.slot].record.Some?
    ensures RequestSide(Update(q.slots, m.slot, Heavier(q.slots[m.slot].record.value, m.waiter)), q.head, q.tail,
                        After(b, m))
  {
    var r, e := q.slots[m.slot].record.value, b.requests[m.slot];
    assert RecordMatches(r, e);
    HeavierMatches(r, e, m.waiter);
    RecordSet(q, b, m.slot, Heavier(r, m.waiter), e.(waiters := e.waiters + [m.waiter]));
    SideKept(Update(q.slots, m.slot, Heavier(r, m.waiter)), q.head, q.tail,
             b.(requests := b.requests[m.slot := e.(waiters := e.waiters + [m.waiter])]), After(b, m));
  }

  /** The request slots only depend on the requests, their generations and the queue. */
  lemma SideKept(rs: seq<RequestSlot>, head: Option<nat>, tail: Option<nat>, b: Board, c: Board)
    requires RequestSide(rs, head, tail, b) && c.requests == b.requests && c.requestGen == b.requestGen
             && c.fifo == b.fifo
    ensures RequestSide(rs, head, tail, c)
  {
  }

  // ----- a waiter leaves -----

  lemma PartedRecords(id: nat, ws: seq<WaiterSlot>, b: Board, w: nat)
    requires WaiterRecordsOk(id, ws, b) && OwnersOk(b) && w in b.owners && w < |ws| && ws[w].record.Some?
    requires OwnersOk(After(b, Parting(w)))
    ensures WaiterRecordsOk(id, Parted(ws, w), After(b, Parting(w)))
  {
    var ts, c := Parted(ws, w), After(b, Parting(w));
    forall x | 0 <= x < |ts|
      ensures ts[x].generation == c.waiterGen[x] && (ts[x].record.Some? <==> x in c.owners)
      ensures x in c.owners ==> ts[x].record.Some? && WaiterMatches(id, ts[x].record.value, c, x)
    {
      PartedFacts(ws, w, x);
      if x in c.owners {
        assert WaiterMatches(id, ws[x].record.value, b, x);
      }
    }
  }

  lemma PartedLists(ws: seq<WaiterSlot>, b: Board, w: nat)
    requires EntriesOk(b) && OwnersOk(b) && ListsOk(ws, b) && w in b.owners
    ensures w < |ws| && ws[w].record.Some? && ListsOk(Parted(ws, w), After(b, Parting(w)))
  {
    var s := b.owners[w];
    var list := b.requests[s].waiters;
    assert EntryOk(b, s) && WaiterListOk(ws, list);
    var k := IndexOf(list, w);
    PartedList(ws, list, k);
    var ts, c := Parted(ws, w), After(b, Parting(w));
    forall x | x in c.requests ensures WaiterListOk(ts, c.requests[x].waiters) {
      if x != s {
        assert EntryOk(b, x) && WaiterListOk(ws, b.requests[x].waiters);
        PartedOther(ws, list, k, b.requests[x].waiters);
      }
    }
  }

  /** The request's record after waiter `w` with these neighbours left its list. */
  function Lighter(r: RequestRecord, w: nat, prev: Option<nat>, next: Option<nat>): RequestRecord
    requires r.waiterCount > 0
  {
    r.(waiterHead := if r.waiterHead == Some(w) then next else r.waiterHead,
       waiterTail := if r.waiterTail == Some(w) then prev else r.waiterTail,
       waiterCount := r.waiterCount - 1)
  }

  lemma LighterMatches(r: RequestRecord, e: Entry, k: nat)
    requires RecordMatches(r, e) && Distinct(e.waiters) && k < |e.waiters|
    ensures r.waiterCount > 0
    ensures RecordMatches(Lighter(r, e.waiters[k], Before(e.waiters, k), Behind(e.waiters, k)),
                          e.(waiters := Without(e.waiters, k)))
  {
    EndsWithout(e.waiters, k);
  }

  lemma ClearedRecords(rs: seq<RequestSlot>, b: Board, s: nat)
    requires RecordsOk(rs, b) && s < |rs|
    ensures RecordsOk(rs[s := rs[s].(record := None)], b.(requests := b.requests - {s}))
  {
  }

  /** Clearing the record of a request that is not queued. */
  lemma ClearedSide(q: Queue, b: Board, s: nat)
    requires RequestSide(q.slots, q.head, q.tail, b) && s < |q.slots| && s !in b.fifo
    ensures RequestSide(q.slots[s := q.slots[s].(record := None)], q.head, q.tail, b.(requests := b.requests - {s}))
  {
    var ts := q.slots[s := q.slots[s].(record := None)];
    ClearedRecords(q.slots, b, s);
    forall i | 0 <= i < |b.fifo| ensures ts[b.fifo[i]] == q.slots[b.fifo[i]] {
      assert b.fifo[i] in b.fifo;
    }
    FifoKept(q.slots, ts, q.head, q.tail, b.fifo);
  }

  /** Reclaiming a request: out of the queue if it waits there, then the record is cleared. */
  function Reclaimed(q: Queue, s: nat): Queue
    requires s < |q.slots|
  {
    var t := if q.slots[s].record.Some? && Waiting(q.slots[s].record.value.state) then TakenOut(q, s) else q;
    if s < |t.slots| then t.(slots := t.slots[s := t.slots[s].(record := None)]) else t
  }

  lemma ReclaimedSide(q: Queue, b: Board, s: nat)
    requires QueueOk(b) && Ordered(b.fifo, Stamps(b)) && RequestSide(q.slots, q.head, q.tail, b) && s in b.requests
             && s < |q.slots|
    ensures var t := Reclaimed(q, s);
            RequestSide(t.slots, t.head, t.tail, b.(requests := b.requests - {s}, fifo := Minus(b.fifo, s)))
  {
    assert q.slots[s].record.Some? && q.slots[s].record.value.state == b.requests[s].state;
    OrderedDistinct(b.fifo, Stamps(b));
    MinusKeeps(b.fifo, s, s);
    if Waiting(b.requests[s].state) {
      TakenOutSide(q, b, s);
      ClearedSide(TakenOut(q, s), b.(fifo := Minus(b.fifo, s)), s);
    } else {
      NotThere(b.fifo, s);
      ClearedSide(q, b, s);
    }
  }

  // ----- whole moves -----

  ghost predicate Shows(id: nat, q: Queue, ws: seq<WaiterSlot>, b: Board) {
    Represents(id, q.slots, ws, q.head, q.tail, b)
  }

  lemma RestatedShown(id: nat, q: Queue, ws: seq<WaiterSlot>, b: Board, s: nat, state: RequestState)
    requires Shows(id, q, ws, b) && s in b.requests && (Waiting(state) ==> Waiting(b.requests[s].state))
    ensures s < |q.slots| && q.slots[s].record.Some?
    ensures var t := Restated(q, s, state);
            RequestsShown(t.slots, t.head, t.tail, WithState(b, s, state)) && Formed(WithState(b, s, state))
  {
    assert LookBoard(b, 0) && LookRequests(q.slots, b, 0);
    RestatedSide(q, b, s, state);
    StateMove(b, s, state);
  }

  /** A state change that waiters cannot see. */
  lemma HiddenMove(id: nat, q: Queue, ws: seq<WaiterSlot>, b: Board, s: nat, state: RequestState)
    requires Shows(id, q, ws, b) && s in b.requests && (Waiting(state) ==> Waiting(b.requests[s].state))
    requires !b.requests[s].state.Visible? && !state.Visible?
    ensures s < |q.slots| && q.slots[s].record.Some? && Shows(id, Restated(q, s, state), ws, WithState(b, s, state))
  {
    RestatedShown(id, q, ws, b, s, state);
    HiddenShown(id, q, ws, b, s, state);
  }

  lemma HiddenShown(id: nat, q: Queue, ws: seq<WaiterSlot>, b: Board, s: nat, state: RequestState)
    requires Shows(id, q, ws, b) && s in b.requests && !b.requests[s].state.Visible? && !state.Visible?
    ensures WaitersShown(id, ws, WithState(b, s, state))
  {
    assert LookWaiters(ws, b, 0);
    HiddenSide(id, ws, b, s, state);
  }

  lemma PublishedShown(id: nat, q: Queue, ws: seq<WaiterSlot>, ts: seq<WaiterSlot>, b: Board, s: nat, c: Completion)
    requires Shows(id, q, ws, b) && s in b.requests && PublishedTo(ws, ts, b.requests[s].waiters, c)
    ensures WaitersShown(id, ts, WithState(b, s, Visible(c)))
  {
    assert LookBoard(b, 0) && LookWaiters(ws, b, 0);
    PublishedSide(id, ws, ts, b, s, c);
  }

  /** A request becomes visible to all of its waiters. */
  lemma VisibleMove(id: nat, q: Queue, ws: seq<WaiterSlot>, ts: seq<WaiterSlot>, b: Board, s: nat, c: Completion)
    requires Shows(id, q, ws, b) && s in b.requests && PublishedTo(ws, ts, b.requests[s].waiters, c)
    ensures s < |q.slots| && q.slots[s].record.Some?
            && Shows(id, Restated(q, s, Visible(c)), ts, WithState(b, s, Visible(c)))
  {
    RestatedShown(id, q, ws, b, s, Visible(c));
    PublishedShown(id, q, ws, ts, b, s, c);
  }

  lemma AdmissionRequests(id: nat, q: Queue, ws: seq<WaiterSlot>, b: Board, m: Move)
    requires Shows(id, q, ws, b) && m.Admission? && Allowed(b, m)
    ensures m.slot < |q.slots|
    ensures var t := AdmittedSlots(q, m.slot, b.requestGen[m.slot] + 1, m.waiter, m.key, m.handler);
            RequestsShown(t.slots, t.head, t.tail, After(b, m))
  {
    assert LookBoard(b, 0) && LookRequests(q.slots, b, 0);
    AdmittedSide(q, b, m.slot, m.waiter, m.key, m.handler);
  }

  lemma AdmissionWaiters(id: nat, q: Queue, ws: seq<WaiterSlot>, b: Board, m: Move)
    requires Shows(id, q, ws, b) && m.Admission? && Allowed(b, m)
    ensures m.waiter < |ws|
    ensures WaitersShown(id,
                         FirstWaiter(ws, m.waiter, b.waiterGen[m.waiter] + 1,
                                     Token(id, m.slot, b.requestGen[m.slot] + 1)), After(b, m))
  {
    assert LookBoard(b, 0) && LookWaiters(ws, b, 0);
    FirstWaiterSide(id, ws, b, m);
  }

  lemma MoveFormed(id: nat, q: Queue, ws: seq<WaiterSlot>, b: Board, m: Move)
    requires Shows(id, q, ws, b) && Allowed(b, m)
    ensures Formed(After(b, m))
  {
    assert LookBoard(b, 0);
    MoveKeeps(b, m);
  }

  lemma AdmissionShows(id: nat, q: Queue, ws: seq<WaiterSlot>, b: Board, m: Move)
    requires Shows(id, q, ws, b) && m.Admission? && Allowed(b, m)
    ensures m.slot < |q.slots| && m.waiter < |ws|
    ensures Shows(id, AdmittedSlots(q, m.slot, b.requestGen[m.slot] + 1, m.waiter, m.key, m.handler),
                  FirstWaiter(ws, m.waiter, b.waiterGen[m.waiter] + 1, Token(id, m.slot, b.requestGen[m.slot] + 1)),
                    After(b, m))
  {
    AdmissionRequests(id, q, ws, b, m);
    AdmissionWaiters(id, q, ws, b, m);
    MoveFormed(id, q, ws, b, m);
  }

  lemma JoiningRequests(id: nat, q: Queue, ws: seq<WaiterSlot>, b: Board, m: Move)
    requires Shows(id, q, ws, b) && m.Joining? && Allowed(b, m) && b.requests[m.slot].waiters != []
    ensures m.slot < |q.slots| && q.slots[m.slot].record.Some?
    ensures RequestsShown(Update(q.slots, m.slot, Heavier(q.slots[m.slot].record.value, m.waiter)), q.head, q.tail,
                          After(b, m))
  {
    assert LookBoard(b, 0) && LookRequests(q.slots, b, 0);
    JoinedSide(q, b, m);
  }

  lemma JoinedWaiterSide(id: nat, ws: seq<WaiterSlot>, b: Board, m: Move, last: nat)
    requires EntriesOk(b) && OwnersOk(b) && WaiterSide(id, ws, b) && m.Joining? && Allowed(b, m)
    requires b.requests[m.slot].waiters != [] && last == b.requests[m.slot].waiters[|b.requests[m.slot].waiters| - 1]
    ensures m.waiter < |ws| && m.slot < |b.requestGen|
    ensures WaiterSide(id,
                       JoinedWaiters(ws, m.waiter, b.waiterGen[m.waiter] + 1, Token(id, m.slot, b.requestGen[m.slot]),
                                     last), After(b, m))
  {
    LastWaiter(id, ws, b, m.slot);
    JoinedRecords(id, ws, b, m, last);
    JoinedLists(id, ws, b, m, b.waiterGen[m.waiter] + 1, Token(id, m.slot, b.requestGen[m.slot]), last);
  }

  lemma JoiningWaiters(id: nat, q: Queue, ws: seq<WaiterSlot>, b: Board, m: Move, last: nat)
    requires Shows(id, q, ws, b) && m.Joining? && Allowed(b, m)
    requires b.requests[m.slot].waiters != [] && last == b.requests[m.slot].waiters[|b.requests[m.slot].waiters| - 1]
    ensures m.waiter < |ws| && m.slot < |b.requestGen|
    ensures WaitersShown(id,
                         JoinedWaiters(ws, m.waiter, b.waiterGen[m.waiter] + 1, Token(id, m.slot, b.requestGen[m.slot]),
                                       last), After(b, m))
  {
    assert LookBoard(b, 0) && LookWaiters(ws, b, 0);
    JoinedWaiterSide(id, ws, b, m, last);
  }

  lemma JoiningShows(id: nat, q: Queue, ws: seq<WaiterSlot>, b: Board, m: Move, last: nat)
    requires Shows(id, q, ws, b) && m.Joining? && Allowed(b, m)
    requires b.requests[m.slot].waiters != [] && last == b.requests[m.slot].waiters[|b.requests[m.slot].waiters| - 1]
    ensures m.slot < |q.slots| && q.slots[m.slot].record.Some? && m.waiter < |ws| && m.slot < |b.requestGen|
    ensures Shows(id, q.(slots := Update(q.slots, m.slot, Heavier(q.slots[m.slot].record.value, m.waiter))),
                  JoinedWaiters(ws, m.waiter, b.waiterGen[m.waiter] + 1, Token(id, m.slot, b.requestGen[m.slot]), last),
                    After(b, m))
  {
    JoiningRequests(id, q, ws, b, m);
    JoiningWaiters(id, q, ws, b, m, last);
    MoveFormed(id, q, ws, b, m);
  }

  // A waiter leaves: the waiter slots, then the request's record or the whole request.

  lemma PartingWaiters(id: nat, q: Queue, ws: seq<WaiterSlot>, b: Board, w: nat)
    requires Shows(id, q, ws, b) && w in b.owners
    ensures Allowed(b, Parting(w)) && w < |ws| && ws[w].record.Some?
            && WaitersShown(id, Parted(ws, w), After(b, Parting(w)))
  {
    assert LookBoard(b, 0) && LookWaiters(ws, b, 0);
    PartedLists(ws, b, w);
    MoveKeeps(b, Parting(w));
    PartedRecords(id, ws, b, w);
  }

  lemma LighterSide(q: Queue, b: Board, w: nat, s: nat, k: nat)
    requires EntriesOk(b) && RequestSide(q.slots, q.head, q.tail, b) && s in b.requests && s < |q.slots|
             && q.slots[s].record.Some?
    requires k < |b.requests[s].waiters| && b.requests[s].waiters[k] == w && q.slots[s].record.value.waiterCount > 0
    ensures var list := b.requests[s].waiters;
            RequestSide(Update(q.slots, s, Lighter(q.slots[s].record.value, w, Before(list, k), Behind(list, k))),
                        q.head, q.tail, b.(requests := b.requests[s := b.requests[s].(waiters := Without(list, k))]))
  {
    var e := b.requests[s];
    assert EntryOk(b, s) && RecordMatches(q.slots[s].record.value, e);
    LighterMatches(q.slots[s].record.value, e, k);
    RecordSet(q, b, s, Lighter(q.slots[s].record.value, w, Before(e.waiters, k), Behind(e.waiters, k)),
              e.(waiters := Without(e.waiters, k)));
  }

  /** The request slots after waiter `w` left request `s`: a lighter record, or none when it was the last waiter. */
  function Left(q: Queue, s: nat, w: nat, prev: Option<nat>, next: Option<nat>): Queue
    requires s < |q.slots| && q.slots[s].record.Some? && q.slots[s].record.value.waiterCount > 0
  {
    var r := Lighter(q.slots[s].record.value, w, prev, next);
    var t := q.(slots := Update(q.slots, s, r));
    if r.waiterCount == 0 then Reclaimed(t, s) else t
  }

  lemma EmptiedSide(t: Queue, c: Board, s: nat, d: Board)
    requires QueueOk(c) && Ordered(c.fifo, Stamps(c)) && s in c.requests && s < |t.slots|
             && RequestSide(t.slots, t.head, t.tail, c)
    requires d.requests == c.requests - {s} && d.fifo == Minus(c.fifo, s) && d.requestGen == c.requestGen
    ensures var u := Reclaimed(t, s); RequestSide(u.slots, u.head, u.tail, d)
  {
    ReclaimedSide(t, c, s);
    var u := Reclaimed(t, s);
    SideKept(u.slots, u.head, u.tail, c.(requests := c.requests - {s}, fifo := Minus(c.fifo, s)), d);
  }

  lemma RemovedAnyway(m: map<nat, Entry>, s: nat, e: Entry)
    ensures m[s := e] - {s} == m - {s}
  {
  }

  lemma LeftSide(q: Queue, b: Board, w: nat, s: nat, k: nat, d: Board)
    requires EntriesOk(b) && QueueOk(b) && Ordered(b.fifo, Stamps(b)) && RequestSide(q.slots, q.head, q.tail, b)
    requires s in b.requests && s < |q.slots| && q.slots[s].record.Some?
    requires k < |b.requests[s].waiters| && b.requests[s].waiters[k] == w
             && q.slots[s].record.value.waiterCount == |b.requests[s].waiters|
    requires d.requestGen == b.requestGen
    requires |b.requests[s].waiters| == 1 ==> d.requests == b.requests - {s} && d.fifo == Minus(b.fifo, s)
    requires |b.requests[s].waiters| > 1 ==>
               d.requests == b.requests[s := b.requests[s].(waiters := Without(b.requests[s].waiters, k))]
                 && d.fifo == b.fifo
    ensures var t := Left(q, s, w, Before(b.requests[s].waiters, k), Behind(b.requests[s].waiters, k));
            RequestSide(t.slots, t.head, t.tail, d)
  {
    var list := b.requests[s].waiters;
    var e := b.requests[s].(waiters := Without(list, k));
    var t := q.(slots := Update(q.slots, s, Lighter(q.slots[s].record.value, w, Before(list, k), Behind(list, k))));
    LighterSide(q, b, w, s, k);
    if |list| == 1 {
      RemovedAnyway(b.requests, s, e);
      QueueKept(b, b.(requests := b.requests[s := e]), s, e);
      EmptiedSide(t, b.(requests := b.requests[s := e]), s, d);
    } else {
      SideKept(t.slots, t.head, t.tail, b.(requests := b.requests[s := e]), d);
    }
  }

  lemma PartingBoard(b: Board, w: nat, s: nat, k: nat)
    requires EntriesOk(b) && w in b.owners && b.owners[w] == s && s in b.requests
    requires k < |b.requests[s].waiters| && b.requests[s].waiters[k] == w
    ensures var d := After(b, Parting(w));
            && d.requestGen == b.requestGen
            && (|b.requests[s].waiters| == 1 ==> d.requests == b.requests - {s} && d.fifo == Minus(b.fifo, s))
            && (|b.requests[s].waiters| > 1 ==>
                  d.requests == b.requests[s := b.requests[s].(waiters := Without(b.requests[s].waiters, k))]
                    && d.fifo == b.fifo)
  {
    assert EntryOk(b, s);
  }

  lemma PartingRequests(id: nat, q: Queue, ws: seq<WaiterSlot>, b: Board, w: nat, s: nat, k: nat)
    requires Shows(id, q, ws, b) && w in b.owners && b.owners[w] == s && s in b.requests
    requires k < |b.requests[s].waiters| && b.requests[s].waiters[k] == w
    ensures s < |q.slots| && q.slots[s].record.Some? && q.slots[s].record.value.waiterCount > 0
    ensures var t := Left(q, s, w, Before(b.requests[s].waiters, k), Behind(b.requests[s].waiters, k));
            RequestsShown(t.slots, t.head, t.tail, After(b, Parting(w)))
  {
    assert LookBoard(b, 0) && LookRequests(q.slots, b, 0);
    assert RecordMatches(q.slots[s].record.value, b.requests[s]);
    assert EntryOk(b, s);
    PartingBoard(b, w, s, k);
    LeftSide(q, b, w, s, k, After(b, Parting(w)));
  }

  /** The place of a live waiter in the list of its request. */
  lemma WaiterPlace(id: nat, q: Queue, ws: seq<WaiterSlot>, b: Board, w: nat) returns (k: nat)
    requires Shows(id, q, ws, b) && w in b.owners
    ensures b.owners[w] in b.requests && k < |b.requests[b.owners[w]].waiters|
            && b.requests[b.owners[w]].waiters[k] == w
  {
    assert LookBoard(b, 0);
    k := IndexOf(b.requests[b.owners[w]].waiters, w);
  }

  lemma PartingShows(id: nat, q: Queue, ws: seq<WaiterSlot>, b: Board, w: nat, s: nat, k: nat)
    requires Shows(id, q, ws, b) && w in b.owners && b.owners[w] == s && s in b.requests
    requires k < |b.requests[s].waiters| && b.requests[s].waiters[k] == w
    ensures s < |q.slots| && q.slots[s].record.Some? && q.slots[s].record.value.waiterCount > 0 && w < |ws|
            && ws[w].record.Some?
    ensures Shows(id, Left(q, s, w, Before(b.requests[s].waiters, k), Behind(b.requests[s].waiters, k)), Parted(ws, w),
                  After(b, Parting(w)))
  {
    PartingRequests(id, q, ws, b, w, s, k);
    PartingWaiters(id, q, ws, b, w);
    MoveFormed(id, q, ws, b, Parting(w));
  }
}
