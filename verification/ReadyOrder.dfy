/**
 The ready tree of the CFS scheduler as a list in key order, and what inserting and
 removing do to the queue of one real-time priority.
 */
module ReadyOrder {
  import opened LinkedLists

  /** Real-time tasks have class 0 and order by falling priority, fair tasks class 1 and order by vruntime. */
  datatype Key = Key(class_: nat, order: int, sequence: int)

  type Keys = nat -> Key

  predicate Less(a: Key, b: Key) {
    || a.class_ < b.class_
    || (a.class_ == b.class_ && (a.order < b.order || (a.order == b.order && a.sequence < b.sequence)))
  }

  predicate Sorted(list: seq<nat>, key: Keys) {
    forall i, j :: 0 <= i < j < |list| ==> Less(key(list[i]), key(list[j]))
  }

  function Insert(list: seq<nat>, key: Keys, t: nat): seq<nat> {
    if list == [] || Less(key(t), key(list[0])) then [t] + list else [list[0]] + Insert(list[1..], key, t)
  }

  lemma {:induction false} InsertElements(list: seq<nat>, key: Keys, t: nat, x: nat)
    ensures x in Insert(list, key, t) <==> x == t || x in list
    decreases list
  {
    if !(list == [] || Less(key(t), key(list[0]))) {
      InsertElements(list[1..], key, t, x);
      assert list == [list[0]] + list[1..];
    }
  }

  lemma SortedTail(list: seq<nat>, key: Keys)
    requires Sorted(list, key) && list != []
    ensures Sorted(list[1..], key)
  {
  }

  lemma SortedCons(a: nat, list: seq<nat>, key: Keys)
    requires Sorted(list, key) && forall x :: x in list ==> Less(key(a), key(x))
    ensures Sorted([a] + list, key)
  {
    var r := [a] + list;
    forall i, j | 0 <= i < j < |r| ensures Less(key(r[i]), key(r[j])) {
      assert r[j] == list[j - 1] && list[j - 1] in list;
    }
  }

  lemma HeadIsLeast(list: seq<nat>, key: Keys, x: nat)
    requires Sorted(list, key) && list != [] && x in list[1..]
    ensures Less(key(list[0]), key(x))
  {
    var k := IndexOf(list[1..], x);
    assert list[k + 1] == x;
  }

  /** Inserting a fresh key keeps the order. */
  lemma {:induction false} InsertSorted(list: seq<nat>, key: Keys, t: nat)
    requires Sorted(list, key) && forall x :: x in list ==> key(x) != key(t)
    ensures Sorted(Insert(list, key, t), key)
    decreases list
  {
    if list == [] {
    } else if Less(key(t), key(list[0])) {
      forall x | x in list ensures Less(key(t), key(x)) {
        if x in list[1..] {
          HeadIsLeast(list, key, x);
        }
      }
      SortedCons(t, list, key);
    } else {
      SortedTail(list, key);
      InsertSorted(list[1..], key, t);
      forall x | x in Insert(list[1..], key, t) ensures Less(key(list[0]), key(x)) {
        InsertElements(list[1..], key, t, x);
        if x in list[1..] {
          HeadIsLeast(list, key, x);
        }
      }
      SortedCons(list[0], Insert(list[1..], key, t), key);
    }
  }

  lemma SortedDistinct(list: seq<nat>, key: Keys)
    requires Sorted(list, key)
    ensures Distinct(list)
  {
  }

  /** The list without the first occurrence of a task. */
  function Taken(list: seq<nat>, x: nat): seq<nat> {
    if list == [] then [] else if list[0] == x then list[1..] else [list[0]] + Taken(list[1..], x)
  }

  lemma {:induction false} TakenElements(list: seq<nat>, x: nat, y: nat)
    requires Distinct(list)
    ensures y in Taken(list, x) <==> y in list && y != x
    decreases list
  {
    if list != [] {
      assert list == [list[0]] + list[1..];
      assert list[0] !in list[1..];
      if list[0] != x {
        TakenElements(list[1..], x, y);
      }
    }
  }

  lemma {:induction false} TakenAt(list: seq<nat>, k: nat)
    requires Distinct(list) && k < |list|
    ensures Taken(list, list[k]) == list[..k] + list[k + 1..]
    decreases list
  {
    if k > 0 {
      var x, rest := list[k], list[1..];
      assert rest[k - 1] == x && list[0] != x;
      TakenAt(rest, k - 1);
      var front, back := rest[..k - 1], rest[k..];
      assert Taken(list, x) == [list[0]] + (front + back);
      assert [list[0]] + (front + back) == ([list[0]] + front) + back;
      assert list[..k] == [list[0]] + front && list[k + 1..] == back;
    } else {
      assert list[..0] + list[1..] == list[1..];
    }
  }

  lemma {:induction false} SortedTaken(list: seq<nat>, key: Keys, x: nat)
    requires Sorted(list, key)
    ensures Sorted(Taken(list, x), key)
    decreases list
  {
    if list != [] {
      SortedTail(list, key);
      if list[0] != x {
        SortedTaken(list[1..], key, x);
        SortedDistinct(list[1..], key);
        forall y | y in Taken(list[1..], x) ensures Less(key(list[0]), key(y)) {
          TakenElements(list[1..], x, y);
          HeadIsLeast(list, key, y);
        }
        SortedCons(list[0], Taken(list[1..], x), key);
      }
    }
  }

  lemma SortedSame(list: seq<nat>, key: Keys, key': Keys)
    requires Sorted(list, key) && forall x :: x in list ==> key'(x) == key(x)
    ensures Sorted(list, key')
  {
    forall i, j | 0 <= i < j < |list| ensures Less(key'(list[i]), key'(list[j])) {
      assert list[i] in list && list[j] in list;
    }
  }

  // ----- the queue of one priority -----

  predicate At(k: Key, class_: nat, order: int) { k.class_ == class_ && k.order == order }

  /** The tasks of one class and order, first to last. */
  function Deque(list: seq<nat>, key: Keys, class_: nat, order: int): seq<nat> {
    if list == [] then []
    else (if At(key(list[0]), class_, order) then [list[0]] else []) + Deque(list[1..], key, class_, order)
  }

  lemma {:induction false} DequeElements(list: seq<nat>, key: Keys, class_: nat, order: int, x: nat)
    ensures x in Deque(list, key, class_, order) <==> x in list && At(key(x), class_, order)
    decreases list
  {
    if list != [] {
      DequeElements(list[1..], key, class_, order, x);
      assert list == [list[0]] + list[1..];
    }
  }

  lemma {:induction false} DequeSame(list: seq<nat>, key: Keys, key': Keys, class_: nat, order: int)
    requires forall x :: x in list ==> key'(x) == key(x)
    ensures Deque(list, key', class_, order) == Deque(list, key, class_, order)
    decreases list
  {
    if list != [] {
      assert list[0] in list;
      DequeSame(list[1..], key, key', class_, order);
    }
  }

  lemma {:induction false} DequeOther(list: seq<nat>, key: Keys, t: nat, class_: nat, order: int)
    requires !At(key(t), class_, order)
    ensures Deque(Insert(list, key, t), key, class_, order) == Deque(list, key, class_, order)
    decreases list
  {
    var r := Insert(list, key, t);
    if list == [] || Less(key(t), key(list[0])) {
      assert r[0] == t && r[1..] == list;
    } else {
      DequeOther(list[1..], key, t, class_, order);
      assert r[0] == list[0] && r[1..] == Insert(list[1..], key, t);
    }
  }

  lemma {:induction false} DequeEmptyAfter(list: seq<nat>, key: Keys, class_: nat, order: int)
    requires forall x :: x in list ==> !At(key(x), class_, order)
    ensures Deque(list, key, class_, order) == []
    decreases list
  {
    if list != [] {
      assert list[0] in list;
      DequeEmptyAfter(list[1..], key, class_, order);
    }
  }

  /** A task with the largest sequence of its priority goes to the back. */
  lemma {:induction false} DequeBack(list: seq<nat>, key: Keys, t: nat)
    requires Sorted(list, key) && forall x :: x in list && At(key(x), key(t).class_, key(t).order) ==>
               key(x).sequence < key(t).sequence
    ensures Deque(Insert(list, key, t), key, key(t).class_, key(t).order) ==
            Deque(list, key, key(t).class_, key(t).order) + [t]
    decreases list
  {
    var r, c, o := Insert(list, key, t), key(t).class_, key(t).order;
    if list == [] {
    } else if Less(key(t), key(list[0])) {
      assert r[0] == t && r[1..] == list;
      forall x | x in list ensures !At(key(x), c, o) {
        if x in list[1..] {
          HeadIsLeast(list, key, x);
        }
      }
      DequeEmptyAfter(list, key, c, o);
    } else {
      SortedTail(list, key);
      DequeBack(list[1..], key, t);
      assert r[0] == list[0] && r[1..] == Insert(list[1..], key, t);
    }
  }

  /** A task with the smallest sequence of its priority goes to the front. */
  lemma {:induction false} DequeFront(list: seq<nat>, key: Keys, t: nat)
    requires Sorted(list, key) && forall x :: x in list && At(key(x), key(t).class_, key(t).order) ==>
               key(t).sequence < key(x).sequence
    ensures Deque(Insert(list, key, t), key, key(t).class_, key(t).order) == [t] +
            Deque(list, key, key(t).class_, key(t).order)
    decreases list
  {
    var r, c, o := Insert(list, key, t), key(t).class_, key(t).order;
    if list == [] {
    } else if Less(key(t), key(list[0])) {
      assert r[0] == t && r[1..] == list;
    } else {
      SortedTail(list, key);
      DequeFront(list[1..], key, t);
      assert r[0] == list[0] && r[1..] == Insert(list[1..], key, t);
      assert list[0] in list;
    }
  }

  /** Taking a task out takes it out of its own queue and of no other. */
  lemma {:induction false} DequeTaken(list: seq<nat>, key: Keys, x: nat, class_: nat, order: int)
    ensures Deque(Taken(list, x), key, class_, order) ==
            (if At(key(x), class_, order) then Taken(Deque(list, key, class_, order), x)
             else Deque(list, key, class_, order))
    decreases list
  {
    if list != [] && list[0] != x {
      DequeTaken(list[1..], key, x, class_, order);
      var r := Taken(list, x);
      assert r[0] == list[0] && r[1..] == Taken(list[1..], x);
      var rest := Deque(list[1..], key, class_, order);
      assert ([list[0]] + rest)[1..] == rest && [] + rest == rest;
      assert Deque(r, key, class_, order) == (if At(key(list[0]), class_, order) then [list[0]] else []) +
             Deque(Taken(list[1..], x), key, class_, order);
    }
  }

  /** The first task of the order is the first of its own queue, and no earlier queue has any. */
  lemma FirstOfAll(list: seq<nat>, key: Keys)
    requires Sorted(list, key) && list != []
    ensures var k := key(list[0]);
            && Deque(list, key, k.class_, k.order) == [list[0]] + Deque(list[1..], key, k.class_, k.order)
            && forall c: nat, o: int :: c < k.class_ || (c == k.class_ && o < k.order) ==> Deque(list, key, c, o) == []
  {
    var k := key(list[0]);
    forall c: nat, o: int | c < k.class_ || (c == k.class_ && o < k.order) ensures Deque(list, key, c, o) == [] {
      forall x | x in list ensures !At(key(x), c, o) {
        if x in list[1..] {
          HeadIsLeast(list, key, x);
        }
      }
      DequeEmptyAfter(list, key, c, o);
    }
  }

  // ----- finding a key -----

  /** The first place whose key is not below `k`. */
  function LowerBound(list: seq<nat>, key: Keys, k: Key): (n: nat)
    ensures n <= |list|
  {
    if list == [] || !Less(key(list[0]), k) then 0 else 1 + LowerBound(list[1..], key, k)
  }

  /** A linked task is found at the lower bound of its own key. */
  lemma {:induction false} FoundAtBound(list: seq<nat>, key: Keys, i: nat)
    requires Sorted(list, key) && i < |list|
    ensures LowerBound(list, key, key(list[i])) == i
    decreases list
  {
    if i > 0 {
      SortedTail(list, key);
      assert Less(key(list[0]), key(list[i]));
      FoundAtBound(list[1..], key, i - 1);
    }
  }
}
