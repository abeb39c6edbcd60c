/**
 The slots of a fault broker: records with link fields, threaded into one pending
 queue and one waiter list per request, and what they represent.
 */
module BrokerSlots {
  import opened Words
  import opened LinkedLists
  import opened FaultBoard

  datatype Token = Token(broker: nat, slot: nat, generation: nat)

  datatype RequestRecord = RequestRecord(
    key: Key, handler: Handler, state: RequestState,
    waiterHead: Option<nat>, waiterTail: Option<nat>, waiterCount: nat,
    prev: Option<nat>, next: Option<nat>)

  datatype RequestSlot = RequestSlot(generation: nat, record: Option<RequestRecord>)

  datatype WaiterState = Active | Ready(completion: Completion)

  datatype WaiterRecord = WaiterRecord(request: Token, state: WaiterState, prev: Option<nat>, next: Option<nat>)

  datatype WaiterSlot = WaiterSlot(generation: nat, record: Option<WaiterRecord>)

  // ----- link fields -----

  function PrevOf(rs: seq<RequestSlot>): Links {
    (s: nat) => if s < |rs| && rs[s].record.Some? then rs[s].record.value.prev else None
  }

  function NextOf(rs: seq<RequestSlot>): Links {
    (s: nat) => if s < |rs| && rs[s].record.Some? then rs[s].record.value.next else None
  }

  function WaiterPrev(ws: seq<WaiterSlot>): Links {
    (w: nat) => if w < |ws| && ws[w].record.Some? then ws[w].record.value.prev else None
  }

  function WaiterNext(ws: seq<WaiterSlot>): Links {
    (w: nat) => if w < |ws| && ws[w].record.Some? then ws[w].record.value.next else None
  }

  function Update(rs: seq<RequestSlot>, s: nat, r: RequestRecord): (t: seq<RequestSlot>)
    requires s < |rs|
    ensures |t| == |rs|
  {
    rs[s := rs[s].(record := Some(r))]
  }

  function UpdateWaiter(ws: seq<WaiterSlot>, w: nat, r: WaiterRecord): (t: seq<WaiterSlot>)
    requires w < |ws|
    ensures |t| == |ws|
  {
    ws[w := ws[w].(record := Some(r))]
  }

  /** Everything but the queue links is the same. */
  predicate SameFacts(rs: seq<RequestSlot>, ts: seq<RequestSlot>) {
    && |ts| == |rs|
    && forall s :: 0 <= s < |rs| ==>
         && ts[s].generation == rs[s].generation && ts[s].record.Some? == rs[s].record.Some?
         && (rs[s].record.Some? ==>
               ts[s].record.value.(prev := None, next := None) == rs[s].record.value.(prev := None, next := None))
  }

  // ----- the pending queue -----

  ghost predicate FifoOk(rs: seq<RequestSlot>, head: Option<nat>, tail: Option<nat>, fifo: seq<nat>) {
    && Distinct(fifo) && Linked(fifo, PrevOf(rs), NextOf(rs)) && head == First(fifo) && tail == Last(fifo)
    && forall i :: 0 <= i < |fifo| ==> fifo[i] < |rs| && rs[fifo[i]].record.Some?
  }

  /** The slots after `slot` was taken out of the queue. */
  function Unlinked(rs: seq<RequestSlot>, slot: nat): (ts: seq<RequestSlot>)
    requires slot < |rs| && rs[slot].record.Some?
    ensures |ts| == |rs|
  {
    var r := rs[slot].record.value;
    var a := if r.prev.Some? && r.prev.value < |rs| && rs[r.prev.value].record.Some?
             then Update(rs, r.prev.value, rs[r.prev.value].record.value.(next := r.next)) else rs;
    var b := if r.next.Some? && r.next.value < |a| && a[r.next.value].record.Some?
             then Update(a, r.next.value, a[r.next.value].record.value.(prev := r.prev)) else a;
    if b[slot].record.Some? then Update(b, slot, b[slot].record.value.(prev := None, next := None)) else b
  }

  lemma UnlinkedFacts(rs: seq<RequestSlot>, slot: nat)
    requires slot < |rs| && rs[slot].record.Some?
    ensures SameFacts(rs, Unlinked(rs, slot))
  {
  }

  /** The links after taking `slot` out, seen from the other slots. */
  lemma UnlinkedLinks(rs: seq<RequestSlot>, slot: nat, s: nat)
    requires slot < |rs| && rs[slot].record.Some? && s < |rs| && rs[s].record.Some? && s != slot
    requires rs[slot].record.value.prev != Some(slot) && rs[slot].record.value.next != Some(slot)
    ensures PrevOf(Unlinked(rs, slot))(s) == if rs[slot].record.value.next == Some(s) then rs[slot].record.value.prev
            else PrevOf(rs)(s)
    ensures NextOf(Unlinked(rs, slot))(s) == if rs[slot].record.value.prev == Some(s) then rs[slot].record.value.next
            else NextOf(rs)(s)
  {
  }

  lemma UnlinkNeighbours(rs: seq<RequestSlot>, head: Option<nat>, tail: Option<nat>, fifo: seq<nat>, k: nat)
    requires FifoOk(rs, head, tail, fifo) && k < |fifo|
    ensures fifo[k] < |rs| && rs[fifo[k]].record.Some?
    ensures rs[fifo[k]].record.value.prev == Before(fifo, k) && rs[fifo[k]].record.value.next == Behind(fifo, k)
    ensures rs[fifo[k]].record.value.prev != Some(fifo[k]) && rs[fifo[k]].record.value.next != Some(fifo[k])
  {
    assert PrevOf(rs)(fifo[k]) == Before(fifo, k) && NextOf(rs)(fifo[k]) == Behind(fifo, k);
  }

  /** Slots whose links were changed like this hold the queue without its `k`-th element. */
  lemma FifoWithout(rs: seq<RequestSlot>, ts: seq<RequestSlot>, head: Option<nat>, tail: Option<nat>, fifo: seq<nat>,
                    k: nat)
    requires FifoOk(rs, head, tail, fifo) && k < |fifo| && SameFacts(rs, ts)
    requires forall i :: 0 <= i < |fifo| && i != k ==>
               && PrevOf(ts)(fifo[i]) == (if i == k + 1 then PrevOf(rs)(fifo[k]) else PrevOf(rs)(fifo[i]))
               && NextOf(ts)(fifo[i]) == (if i + 1 == k then NextOf(rs)(fifo[k]) else NextOf(rs)(fifo[i]))
    ensures FifoOk(ts, if Before(fifo, k).None? then Behind(fifo, k) else head, if Behind(fifo, k).None?
                   then Before(fifo, k) else tail, Without(fifo, k))
  {
    EndsWithout(fifo, k);
    Removed(fifo, k, PrevOf(rs), NextOf(rs), PrevOf(ts), NextOf(ts));
    StillFilled(rs, ts, fifo, k);
  }

  lemma StillFilled(rs: seq<RequestSlot>, ts: seq<RequestSlot>, fifo: seq<nat>, k: nat)
    requires SameFacts(rs, ts) && k < |fifo| && forall i :: 0 <= i < |fifo| ==>
               fifo[i] < |rs| && rs[fifo[i]].record.Some?
    ensures forall i :: 0 <= i < |Without(fifo, k)| ==>
              Without(fifo, k)[i] < |ts| && ts[Without(fifo, k)[i]].record.Some?
  {
    var r := Without(fifo, k);
    forall i | 0 <= i < |r| ensures r[i] < |ts| && ts[r[i]].record.Some? {
      assert r[i] == fifo[if i < k then i else i + 1];
    }
  }

  /** Taking a queued slot out leaves exactly the rest of the queue. */
  lemma UnlinkRemoves(rs: seq<RequestSlot>, head: Option<nat>, tail: Option<nat>, fifo: seq<nat>, k: nat)
    requires FifoOk(rs, head, tail, fifo) && k < |fifo|
    ensures fifo[k] < |rs| && rs[fifo[k]].record.Some?
    ensures var r := rs[fifo[k]].record.value;
            FifoOk(Unlinked(rs, fifo[k]), if r.prev.None? then r.next else head, if r.next.None? then r.prev
                   else tail, Without(fifo, k))
  {
    var x := fifo[k];
    UnlinkNeighbours(rs, head, tail, fifo, k);
    UnlinkedFacts(rs, x);
    forall i | 0 <= i < |fifo| && i != k
      ensures PrevOf(Unlinked(rs, x))(fifo[i]) == (if i == k + 1 then PrevOf(rs)(x) else PrevOf(rs)(fifo[i]))
      ensures NextOf(Unlinked(rs, x))(fifo[i]) == (if i + 1 == k then NextOf(rs)(x) else NextOf(rs)(fifo[i]))
    {
      UnlinkedAt(rs, head, tail, fifo, k, i);
    }
    FifoWithout(rs, Unlinked(rs, x), head, tail, fifo, k);
  }

  lemma UnlinkedAt(rs: seq<RequestSlot>, head: Option<nat>, tail: Option<nat>, fifo: seq<nat>, k: nat, i: nat)
    requires FifoOk(rs, head, tail, fifo) && k < |fifo| && i < |fifo| && i != k
    requires fifo[k] < |rs| && rs[fifo[k]].record.Some?
    ensures PrevOf(Unlinked(rs, fifo[k]))(fifo[i]) == (if i == k + 1 then PrevOf(rs)(fifo[k]) else PrevOf(rs)(fifo[i]))
    ensures NextOf(Unlinked(rs, fifo[k]))(fifo[i]) == (if i + 1 == k then NextOf(rs)(fifo[k]) else NextOf(rs)(fifo[i]))
  {
    UnlinkNeighbours(rs, head, tail, fifo, k);
    UnlinkedLinks(rs, fifo[k], fifo[i]);
  }

  // ----- waiter lists -----

  ghost predicate WaiterListOk(ws: seq<WaiterSlot>, list: seq<nat>) {
    && Linked(list, WaiterPrev(ws), WaiterNext(ws))
    && forall i :: 0 <= i < |list| ==> list[i] < |ws| && ws[list[i]].record.Some?
  }

  /** The slots after waiter `w` left its list. */
  function Parted(ws: seq<WaiterSlot>, w: nat): (ts: seq<WaiterSlot>)
    requires w < |ws| && ws[w].record.Some?
    ensures |ts| == |ws|
  {
    var r := ws[w].record.value;
    var a := if r.prev.Some? && r.prev.value < |ws| && ws[r.prev.value].record.Some?
             then UpdateWaiter(ws, r.prev.value, ws[r.prev.value].record.value.(next := r.next)) else ws;
    var b := if r.next.Some? && r.next.value < |a| && a[r.next.value].record.Some?
             then UpdateWaiter(a, r.next.value, a[r.next.value].record.value.(prev := r.prev)) else a;
    b[w := b[w].(record := None)]
  }

  lemma PartedFacts(ws: seq<WaiterSlot>, w: nat, x: nat)
    requires w < |ws| && ws[w].record.Some? && x < |ws|
    ensures Parted(ws, w)[x].generation == ws[x].generation
    ensures Parted(ws, w)[w].record.None?
    ensures x != w ==> Parted(ws, w)[x].record.Some? == ws[x].record.Some?
    ensures x != w && ws[x].record.Some? ==>
              Parted(ws, w)[x].record.value.request == ws[x].record.value.request
                && Parted(ws, w)[x].record.value.state == ws[x].record.value.state
  {
  }

  lemma PartedLinks(ws: seq<WaiterSlot>, w: nat, x: nat)
    requires w < |ws| && ws[w].record.Some? && x < |ws| && ws[x].record.Some? && x != w
    requires ws[w].record.value.prev != Some(w) && ws[w].record.value.next != Some(w)
    ensures WaiterPrev(Parted(ws, w))(x) == if ws[w].record.value.next == Some(x) then ws[w].record.value.prev
            else WaiterPrev(ws)(x)
    ensures WaiterNext(Parted(ws, w))(x) == if ws[w].record.value.prev == Some(x) then ws[w].record.value.next
            else WaiterNext(ws)(x)
  {
  }

  lemma PartedNeighbours(ws: seq<WaiterSlot>, list: seq<nat>, k: nat)
    requires WaiterListOk(ws, list) && Distinct(list) && k < |list|
    ensures list[k] < |ws| && ws[list[k]].record.Some?
    ensures ws[list[k]].record.value.prev == Before(list, k) && ws[list[k]].record.value.next == Behind(list, k)
    ensures ws[list[k]].record.value.prev != Some(list[k]) && ws[list[k]].record.value.next != Some(list[k])
  {
    assert WaiterPrev(ws)(list[k]) == Before(list, k) && WaiterNext(ws)(list[k]) == Behind(list, k);
  }

  lemma PartedAt(ws: seq<WaiterSlot>, list: seq<nat>, k: nat, i: nat)
    requires WaiterListOk(ws, list) && Distinct(list) && k < |list| && i < |list| && i != k
    requires list[k] < |ws| && ws[list[k]].record.Some?
    ensures WaiterPrev(Parted(ws, list[k]))(list[i]) ==
            (if i == k + 1 then WaiterPrev(ws)(list[k]) else WaiterPrev(ws)(list[i]))
    ensures WaiterNext(Parted(ws, list[k]))(list[i]) ==
            (if i + 1 == k then WaiterNext(ws)(list[k]) else WaiterNext(ws)(list[i]))
    ensures Parted(ws, list[k])[list[i]].record.Some?
  {
    PartedNeighbours(ws, list, k);
    Neighbour(list, k, i);
    PartedLinks(ws, list[k], list[i]);
    PartedFacts(ws, list[k], list[i]);
  }

  /** The list of the waiter that left. */
  lemma PartedList(ws: seq<WaiterSlot>, list: seq<nat>, k: nat)
    requires WaiterListOk(ws, list) && Distinct(list) && k < |list|
    ensures list[k] < |ws| && ws[list[k]].record.Some? && WaiterListOk(Parted(ws, list[k]), Without(list, k))
  {
    var ts := Parted(ws, list[k]);
    forall i | 0 <= i < |list| && i != k
      ensures WaiterPrev(ts)(list[i]) == (if i == k + 1 then WaiterPrev(ws)(list[k]) else WaiterPrev(ws)(list[i]))
      ensures WaiterNext(ts)(list[i]) == (if i + 1 == k then WaiterNext(ws)(list[k]) else WaiterNext(ws)(list[i]))
      ensures ts[list[i]].record.Some?
    {
      PartedAt(ws, list, k, i);
    }
    Removed(list, k, WaiterPrev(ws), WaiterNext(ws), WaiterPrev(ts), WaiterNext(ts));
    var r := Without(list, k);
    forall i | 0 <= i < |r| ensures r[i] < |ts| && ts[r[i]].record.Some? {
      assert r[i] == list[if i < k then i else i + 1];
    }
  }

  /** Other lists do not notice. */
  lemma PartedOther(ws: seq<WaiterSlot>, list: seq<nat>, k: nat, other: seq<nat>)
    requires WaiterListOk(ws, list) && Distinct(list) && k < |list| && WaiterListOk(ws, other)
    requires forall x :: x in other ==> x !in list
    ensures list[k] < |ws| && ws[list[k]].record.Some? && WaiterListOk(Parted(ws, list[k]), other)
  {
    var ts := Parted(ws, list[k]);
    PartedNeighbours(ws, list, k);
    forall i | 0 <= i < |other|
      ensures WaiterPrev(ts)(other[i]) == WaiterPrev(ws)(other[i])
              && WaiterNext(ts)(other[i]) == WaiterNext(ws)(other[i])
      ensures ts[other[i]].record.Some?
    {
      assert other[i] in other;
      assert k > 0 ==> list[k - 1] in list;
      assert k + 1 < |list| ==> list[k + 1] in list;
      assert list[k] in list;
      PartedLinks(ws, list[k], other[i]);
      PartedFacts(ws, list[k], other[i]);
    }
    SameLinks(other, WaiterPrev(ws), WaiterNext(ws), WaiterPrev(ts), WaiterNext(ts));
  }

  // ----- what the slots represent -----

  predicate RecordMatches(r: RequestRecord, e: Entry) {
    && r.key == e.key && r.handler == e.handler && r.state == e.state
    && r.waiterHead == First(e.waiters) && r.waiterTail == Last(e.waiters) && r.waiterCount == |e.waiters|
  }

  ghost predicate RecordsOk(rs: seq<RequestSlot>, b: Board) {
    && |rs| == |b.requestGen|
    && (forall s :: 0 <= s < |rs| ==> rs[s].generation == b.requestGen[s] && (rs[s].record.Some? <==> s in b.requests))
    && (forall s :: 0 <= s < |rs| && s in b.requests ==>
          rs[s].record.Some? && RecordMatches(rs[s].record.value, b.requests[s]))
  }

  ghost predicate RequestSide(rs: seq<RequestSlot>, head: Option<nat>, tail: Option<nat>, b: Board) {
    RecordsOk(rs, b) && FifoOk(rs, head, tail, b.fifo)
  }

  /** Slots with the same links hold the same queue. */
  lemma FifoKept(rs: seq<RequestSlot>, ts: seq<RequestSlot>, head: Option<nat>, tail: Option<nat>, fifo: seq<nat>)
    requires FifoOk(rs, head, tail, fifo) && |ts| == |rs|
    requires forall i :: 0 <= i < |fifo| && fifo[i] < |rs| && rs[fifo[i]].record.Some? ==>
               ts[fifo[i]].record.Some? && PrevOf(ts)(fifo[i]) == PrevOf(rs)(fifo[i])
                 && NextOf(ts)(fifo[i]) == NextOf(rs)(fifo[i])
    ensures FifoOk(ts, head, tail, fifo)
  {
    SameLinks(fifo, PrevOf(rs), NextOf(rs), PrevOf(ts), NextOf(ts));
  }

  /** Slots with the same links hold the same waiter list. */
  lemma ListKept(ws: seq<WaiterSlot>, ts: seq<WaiterSlot>, list: seq<nat>)
    requires WaiterListOk(ws, list) && |ts| >= |ws|
    requires forall i :: 0 <= i < |list| && list[i] < |ws| && ws[list[i]].record.Some? ==>
               ts[list[i]].record.Some? && WaiterPrev(ts)(list[i]) == WaiterPrev(ws)(list[i])
                 && WaiterNext(ts)(list[i]) == WaiterNext(ws)(list[i])
    ensures WaiterListOk(ts, list)
  {
    SameLinks(list, WaiterPrev(ws), WaiterNext(ws), WaiterPrev(ts), WaiterNext(ts));
  }

  /** A waiter is ready exactly when its request is visible, and then with its result. */
  function WaiterStateFor(s: RequestState): WaiterState { if s.Visible? then Ready(s.completion) else Active }

  predicate WaiterMatches(id: nat, r: WaiterRecord, b: Board, w: nat) {
    && w in b.owners && b.owners[w] in b.requests && b.owners[w] < |b.requestGen|
    && r.request == Token(id, b.owners[w], b.requestGen[b.owners[w]])
    && r.state == WaiterStateFor(b.requests[b.owners[w]].state)
  }

  ghost predicate WaiterRecordsOk(id: nat, ws: seq<WaiterSlot>, b: Board) {
    && |ws| == |b.waiterGen|
    && (forall w :: 0 <= w < |ws| ==> ws[w].generation == b.waiterGen[w] && (ws[w].record.Some? <==> w in b.owners))
    && (forall w :: 0 <= w < |ws| && w in b.owners ==>
          ws[w].record.Some? && WaiterMatches(id, ws[w].record.value, b, w))
  }

  ghost predicate ListsOk(ws: seq<WaiterSlot>, b: Board) {
    forall s {:trigger WaiterListOk(ws, b.requests[s].waiters)} :: s in b.requests ==>
        WaiterListOk(ws, b.requests[s].waiters)
  }

  ghost predicate WaiterSide(id: nat, ws: seq<WaiterSlot>, b: Board) { WaiterRecordsOk(id, ws, b) && ListsOk(ws, b) }

  predicate LookBoard(b: Board, k: nat) { true }

  predicate LookRequests(rs: seq<RequestSlot>, b: Board, k: nat) { true }

  predicate LookWaiters(ws: seq<WaiterSlot>, b: Board, k: nat) { true }

  ghost predicate Formed(b: Board) { forall k: nat {:trigger LookBoard(b, k)} :: LookBoard(b, k) ==> WellFormed(b) }

  ghost predicate RequestsShown(rs: seq<RequestSlot>, head: Option<nat>, tail: Option<nat>, b: Board) {
    forall k: nat {:trigger LookRequests(rs, b, k)} :: LookRequests(rs, b, k) ==> RequestSide(rs, head, tail, b)
  }

  ghost predicate WaitersShown(id: nat, ws: seq<WaiterSlot>, b: Board) {
    forall k: nat {:trigger LookWaiters(ws, b, k)} :: LookWaiters(ws, b, k) ==> WaiterSide(id, ws, b)
  }

  /** The slots stand for the board; unfolded on demand. */
  ghost predicate Represents(id: nat, rs: seq<RequestSlot>, ws: seq<WaiterSlot>, head: Option<nat>, tail: Option<nat>,
                             b: Board) {
    Formed(b) && RequestsShown(rs, head, tail, b) && WaitersShown(id, ws, b)
  }

  lemma Represented(id: nat, rs: seq<RequestSlot>, ws: seq<WaiterSlot>, head: Option<nat>, tail: Option<nat>, b: Board)
    requires Represents(id, rs, ws, head, tail, b)
    ensures WellFormed(b) && RequestSide(rs, head, tail, b) && WaiterSide(id, ws, b)
  {
    assert LookBoard(b, 0) && LookRequests(rs, b, 0) && LookWaiters(ws, b, 0);
  }

  /** A live request's record. */
  lemma RecordAt(id: nat, rs: seq<RequestSlot>, ws: seq<WaiterSlot>, head: Option<nat>, tail: Option<nat>, b: Board,
                 s: nat)
    requires Represents(id, rs, ws, head, tail, b) && s in b.requests
    ensures s < |rs| == |b.requestGen| && rs[s].generation == b.requestGen[s] && rs[s].record.Some?
    ensures RecordMatches(rs[s].record.value, b.requests[s])
  {
    Represented(id, rs, ws, head, tail, b);
  }

  /** Liveness and generation of a request slot. */
  lemma SlotAt(id: nat, rs: seq<RequestSlot>, ws: seq<WaiterSlot>, head: Option<nat>, tail: Option<nat>, b: Board,
               s: nat)
    requires Represents(id, rs, ws, head, tail, b)
    ensures |rs| == |b.requestGen| && |ws| == |b.waiterGen|
    ensures s in b.requests ==> s < |rs|
    ensures s < |rs| ==> rs[s].generation == b.requestGen[s] && (rs[s].record.Some? <==> s in b.requests)
    ensures s < |ws| ==> ws[s].generation == b.waiterGen[s] && (ws[s].record.Some? <==> s in b.owners)
  {
    Represented(id, rs, ws, head, tail, b);
  }

  /** A queued request, met by a cursor. */
  lemma CursorAt(id: nat, rs: seq<RequestSlot>, ws: seq<WaiterSlot>, head: Option<nat>, tail: Option<nat>, b: Board,
                 i: nat)
    requires Represents(id, rs, ws, head, tail, b)
    ensures head == First(b.fifo)
    ensures i < |b.fifo| ==>
              var s := b.fifo[i];
              && s in b.requests && Waiting(b.requests[s].state) && s < |rs| && rs[s].record.Some?
              && rs[s].record.value.next == Behind(b.fifo, i) && RecordMatches(rs[s].record.value, b.requests[s])
  {
    Represented(id, rs, ws, head, tail, b);
    if i < |b.fifo| {
      UnlinkNeighbours(rs, head, tail, b.fifo, i);
      assert b.fifo[i] in b.fifo;
    }
  }

  /** A waiter of a request, met by a cursor. */
  lemma WaiterAt(id: nat, rs: seq<RequestSlot>, ws: seq<WaiterSlot>, head: Option<nat>, tail: Option<nat>, b: Board,
                 s: nat, i: nat)
    requires Represents(id, rs, ws, head, tail, b) && s in b.requests && i < |b.requests[s].waiters|
    ensures var w := b.requests[s].waiters[i];
            && w in b.owners && b.owners[w] == s && w < |ws| && ws[w].record.Some?
               && WaiterMatches(id, ws[w].record.value, b, w)
            && ws[w].record.value.prev == Before(b.requests[s].waiters, i)
               && ws[w].record.value.next == Behind(b.requests[s].waiters, i)
    ensures Distinct(b.requests[s].waiters)
  {
    Represented(id, rs, ws, head, tail, b);
    assert EntryOk(b, s) && WaiterListOk(ws, b.requests[s].waiters);
    assert b.requests[s].waiters[i] in b.requests[s].waiters;
    PartedNeighbours(ws, b.requests[s].waiters, i);
  }

  /** The end of the pending queue. */
  lemma TailAt(id: nat, rs: seq<RequestSlot>, ws: seq<WaiterSlot>, head: Option<nat>, tail: Option<nat>, b: Board)
    requires Represents(id, rs, ws, head, tail, b)
    ensures head.Some? == tail.Some?
    ensures tail.Some? ==>
              var s := tail.value;
              && s in b.requests && s < |rs| && rs[s].record.Some? && Waiting(rs[s].record.value.state)
                 && rs[s].record.value.next.None?
  {
    Represented(id, rs, ws, head, tail, b);
    if b.fifo != [] {
      UnlinkNeighbours(rs, head, tail, b.fifo, |b.fifo| - 1);
      assert b.fifo[|b.fifo| - 1] in b.fifo;
    }
  }

  lemma ListRoom(b: Board, s: nat, w: nat)
    requires EntriesOk(b) && OwnersOk(b) && s in b.requests && w < |b.waiterGen| && w !in b.owners
    ensures b.requests[s].waiters != [] && |b.requests[s].waiters| < |b.waiterGen| && s < |b.requestGen|
  {
    assert EntryOk(b, s);
    var list := b.requests[s].waiters;
    DistinctCount(list);
    BoundedSet(Elements(list) + {w}, |b.waiterGen|);
  }

  lemma FormedRoom(b: Board, s: nat, w: nat)
    requires Formed(b) && s in b.requests && w < |b.waiterGen| && w !in b.owners
    ensures b.requests[s].waiters != [] && |b.requests[s].waiters| < |b.waiterGen| && s < |b.requestGen|
  {
    assert LookBoard(b, 0);
    ListRoom(b, s, w);
  }

  /** The end of a waiter list, and room for one more waiter. */
  lemma LastAt(id: nat, rs: seq<RequestSlot>, ws: seq<WaiterSlot>, head: Option<nat>, tail: Option<nat>, b: Board,
               s: nat, w: nat)
    requires Represents(id, rs, ws, head, tail, b) && s in b.requests && w < |b.waiterGen| && w !in b.owners
    ensures var list := b.requests[s].waiters;
            && list != [] && |list| < |ws| && s < |b.requestGen|
            && var last := list[|list| - 1];
               && last < |ws| && last != w && ws[last].record.Some? && ws[last].record.value.next.None?
               && ws[last].record.value.request == Token(id, s, b.requestGen[s])
  {
    FormedRoom(b, s, w);
    SlotAt(id, rs, ws, head, tail, b, 0);
    WaiterAt(id, rs, ws, head, tail, b, s, |b.requests[s].waiters| - 1);
  }

  /** The waiters of a live request. */
  lemma ListAt(id: nat, rs: seq<RequestSlot>, ws: seq<WaiterSlot>, head: Option<nat>, tail: Option<nat>, b: Board,
               s: nat)
    requires Represents(id, rs, ws, head, tail, b) && s in b.requests
    ensures Distinct(b.requests[s].waiters) && WaiterListOk(ws, b.requests[s].waiters)
    ensures forall i {:trigger b.requests[s].waiters[i]} :: 0 <= i < |b.requests[s].waiters| ==>
              var w := b.requests[s].waiters[i];
              w < |ws| && ws[w].record.Some? && ws[w].record.value.state == WaiterStateFor(b.requests[s].state)
  {
    Represented(id, rs, ws, head, tail, b);
    assert EntryOk(b, s) && WaiterListOk(ws, b.requests[s].waiters);
    forall i | 0 <= i < |b.requests[s].waiters|
      ensures var w := b.requests[s].waiters[i];
              w < |ws| && ws[w].record.Some? && ws[w].record.value.state == WaiterStateFor(b.requests[s].state)
    {
      WaiterAt(id, rs, ws, head, tail, b, s, i);
    }
  }
}
