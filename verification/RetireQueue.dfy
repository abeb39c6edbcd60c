/** The bounded retire FIFO: a ring buffer with pre-reserved room, proved against the sequence it stands for. */
module RetireRing {
  import opened Words
  import opened EpochDomain

  class RetireQueue {
    const entries: array<Retired>
    var head: nat
    var len: nat
    var reserved: nat

    ghost predicate Valid()
      reads this
    {
      && len + reserved <= entries.Length
      && (if entries.Length == 0 then head == 0 else head < entries.Length)
    }

    /** The index of the `k`-th entry. */
    function Index(k: nat): nat
      requires entries.Length > 0
      reads this
    {
      (head + k) % entries.Length
    }

    /** The queued entries, oldest first. */
    ghost function Contents(): (s: seq<Retired>)
      requires Valid()
      reads this, entries
      ensures |s| == len
    {
      seq(len, k requires 0 <= k < len reads this, entries requires Valid() => entries[Index(k)])
    }

    constructor (capacity: nat)
      ensures Valid() && fresh(entries) && entries.Length == capacity && Contents() == [] && reserved == 0
    {
      entries := new Retired[capacity](_ => Retired(0, 0));
      head, len, reserved := 0, 0, 0;
    }

    /** Sets room aside; fails exactly when queued entries and reservations fill the ring. */
    method Reserve() returns (ok: bool)
      requires Valid()
      modifies this`reserved
      ensures Valid() && Contents() == old(Contents())
      ensures ok <==> old(len + reserved) < entries.Length
      ensures reserved == old(reserved) + if ok then 1 else 0
    {
      ok := len + reserved < entries.Length;
      if ok {
        reserved := reserved + 1;
      }
    }

    method CancelReservation()
      requires Valid() && reserved > 0
      modifies this`reserved
      ensures Valid() && Contents() == old(Contents()) && reserved == old(reserved) - 1
    {
      reserved := reserved - 1;
    }

    /** Uses one reservation to append an entry. */
    method Commit(retired: Retired)
      requires Valid() && reserved > 0
      modifies this`len, this`reserved, entries
      ensures Valid() && Contents() == old(Contents()) + [retired] && reserved == old(reserved) - 1
    {
      var tail := (head + len) % entries.Length;
      forall k: nat | k < len ensures Index(k) != tail {
        Apart(head, k, len, entries.Length);
      }
      entries[tail] := retired;
      len := len + 1;
      reserved := reserved - 1;
      assert Contents() == old(Contents()) + [retired];
    }

    method FrontEntry() returns (r: Option<Retired>)
      requires Valid()
      ensures r == if Contents() == [] then None else Some(Contents()[0])
    {
      if len == 0 {
        return None;
      }
      assert Index(0) == head;
      return Some(entries[head]);
    }

    /** Takes the oldest entry out. */
    method Pop() returns (r: Option<Retired>)
      requires Valid()
      modifies this`head, this`len
      ensures Valid() && reserved == old(reserved)
      ensures old(Contents()) == [] ==> r.None? && Contents() == []
      ensures old(Contents()) != [] ==> r == Some(old(Contents())[0]) && Contents() == old(Contents())[1..]
    {
      if len == 0 {
        return None;
      }
      ghost var start, before := head, Contents();
      assert Index(0) == head;
      r := Some(entries[head]);
      head := (head + 1) % entries.Length;
      len := len - 1;
      forall k: nat | k < len ensures entries[Index(k)] == before[k + 1] {
        Shifted(start, k, entries.Length);
      }
      assert Contents() == before[1..];
    }
  }

  /** Different places of a ring that is not full have different indices. */
  lemma Apart(head: nat, k: nat, len: nat, capacity: nat)
    requires head < capacity && k < len < capacity
    ensures (head + k) % capacity != (head + len) % capacity
  {
    Wrap(head + k, capacity);
    Wrap(head + len, capacity);
  }

  lemma Wrap(n: nat, capacity: nat)
    requires 0 < capacity && n < 2 * capacity
    ensures n % capacity == if n < capacity then n else n - capacity
  {
    if n >= capacity {
      assert n == capacity * 1 + (n - capacity);
    }
  }

  lemma Shifted(head: nat, k: nat, capacity: nat)
    requires head < capacity && k + 1 < capacity
    ensures ((head + 1) % capacity + k) % capacity == (head + (k + 1)) % capacity
  {
    Wrap(head + 1, capacity);
    Wrap(head + (k + 1), capacity);
    Wrap((head + 1) % capacity + k, capacity);
  }
}
