/** Doubly linked lists threaded through slots, as the link fields of the slots describe them. */
module LinkedLists {
  import opened Words

  type Links = nat -> Option<nat>

  predicate Distinct(list: seq<nat>) { forall i, j :: 0 <= i < j < |list| ==> list[i] != list[j] }

  function First(list: seq<nat>): Option<nat> { if list == [] then None else Some(list[0]) }

  function Last(list: seq<nat>): Option<nat> { if list == [] then None else Some(list[|list| - 1]) }

  function Before(list: seq<nat>, i: nat): Option<nat>
    requires i < |list|
  {
    if i == 0 then None else Some(list[i - 1])
  }

  function Behind(list: seq<nat>, i: nat): Option<nat>
    requires i < |list|
  {
    if i + 1 < |list| then Some(list[i + 1]) else None
  }

  /** The link fields thread exactly this list. */
  predicate Linked(list: seq<nat>, prev: Links, next: Links) {
    forall i {:trigger prev(list[i])} {:trigger next(list[i])} :: 0 <= i < |list| ==>
      prev(list[i]) == Before(list, i) && next(list[i]) == Behind(list, i)
  }

  function Without(list: seq<nat>, k: nat): (r: seq<nat>)
    requires k < |list|
    ensures |r| == |list| - 1
    ensures forall i :: 0 <= i < |r| ==> r[i] == if i < k then list[i] else list[i + 1]
  {
    list[..k] + list[k + 1..]
  }

  function IndexOf(list: seq<nat>, x: nat): (k: nat)
    requires x in list
    ensures k < |list| && list[k] == x
  {
    if list[0] == x then 0 else 1 + IndexOf(list[1..], x)
  }

  /** The list without one of its elements. */
  function Minus(list: seq<nat>, x: nat): seq<nat> { if x in list then Without(list, IndexOf(list, x)) else list }

  lemma MinusKeeps(list: seq<nat>, x: nat, y: nat)
    requires Distinct(list)
    ensures y in Minus(list, x) <==> y in list && y != x
    ensures Distinct(Minus(list, x))
  {
    if x in list {
      var k := IndexOf(list, x);
      var r := Without(list, k);
      if y in list && y != x {
        var i := IndexOf(list, y);
        assert r[if i < k then i else i - 1] == y;
      }
    }
  }

  /** Taking an element out: its neighbours point past it, everything else stays. */
  lemma Removed(list: seq<nat>, k: nat, prev: Links, next: Links, prev': Links, next': Links)
    requires k < |list| && Linked(list, prev, next)
    requires forall i :: 0 <= i < |list| && i != k ==>
               && prev'(list[i]) == (if i == k + 1 then prev(list[k]) else prev(list[i]))
               && next'(list[i]) == (if i + 1 == k then next(list[k]) else next(list[i]))
    ensures Linked(Without(list, k), prev', next')
  {
    var r := Without(list, k);
    forall i | 0 <= i < |r| ensures prev'(r[i]) == Before(r, i) && next'(r[i]) == Behind(r, i) {
      var j := if i < k then i else i + 1;
      assert r[i] == list[j] && j != k;
    }
  }

  lemma Neighbour(list: seq<nat>, k: nat, i: nat)
    requires k < |list| && i < |list| && Distinct(list)
    ensures Behind(list, k) == Some(list[i]) <==> i == k + 1
    ensures Before(list, k) == Some(list[i]) <==> i + 1 == k
  {
  }

  lemma EndsWithout(list: seq<nat>, k: nat)
    requires k < |list| && Distinct(list)
    ensures Distinct(Without(list, k))
    ensures First(Without(list, k)) == if Before(list, k).None? then Behind(list, k) else First(list)
    ensures Last(Without(list, k)) == if Behind(list, k).None? then Before(list, k) else Last(list)
  {
  }

  /** Appending an element: the old last one points to it. */
  lemma Appended(list: seq<nat>, x: nat, prev: Links, next: Links, prev': Links, next': Links)
    requires Linked(list, prev, next) && prev'(x) == Last(list) && next'(x) == None
    requires forall i :: 0 <= i < |list| ==>
               prev'(list[i]) == prev(list[i]) && next'(list[i]) == (if i + 1 == |list| then Some(x) else next(list[i]))
    ensures Linked(list + [x], prev', next')
  {
    var r := list + [x];
    forall i | 0 <= i < |r| ensures prev'(r[i]) == Before(r, i) && next'(r[i]) == Behind(r, i) {
      if i < |list| {
        assert r[i] == list[i];
      }
    }
  }

  /** Links that agree on the list's elements thread the same list. */
  lemma SameLinks(list: seq<nat>, prev: Links, next: Links, prev': Links, next': Links)
    requires Linked(list, prev, next)
    requires forall i :: 0 <= i < |list| ==> prev'(list[i]) == prev(list[i]) && next'(list[i]) == next(list[i])
    ensures Linked(list, prev', next')
  {
  }

  // ----- counting -----

  function Elements(list: seq<nat>): set<nat> { set x | x in list }

  lemma {:induction false} DistinctCount(list: seq<nat>)
    requires Distinct(list)
    ensures |Elements(list)| == |list|
    decreases |list|
  {
    if list != [] {
      var rest := list[1..];
      DistinctCount(rest);
      assert Elements(list) == Elements(rest) + {list[0]};
      assert list[0] !in rest;
    }
  }

  lemma {:induction false} BoundedSet(s: set<nat>, n: nat)
    requires forall x :: x in s ==> x < n
    ensures |s| <= n
  {
    if n == 0 {
      assert forall x :: x !in s;
    } else {
      BoundedSet(s - {n - 1}, n - 1);
      if n - 1 in s {
        assert s == (s - {n - 1}) + {n - 1};
      } else {
        assert s == s - {n - 1};
      }
    }
  }
}
