/** The index-based doubly linked list behind both LRU policies (include/kvflux/detail/index_lru.h). */
module IndexLinkedList {
  import opened Common

  datatype Node = Node(prev: int, next: int, present: bool)

  const UNLINKED := Node(NONE, NONE, false)

  function Before(order: seq<nat>, k: nat): int
    requires k < |order|
  {
    if k == 0 then NONE else order[k - 1]
  }

  function After(order: seq<nat>, k: nat): int
    requires k < |order|
  {
    if k == |order| - 1 then NONE else order[k + 1]
  }

  ghost predicate Ends(oldest: int, newest: int, order: seq<nat>) {
    && oldest == (if order == [] then NONE else order[0])
    && newest == (if order == [] then NONE else order[|order| - 1])
  }

  ghost predicate Chained(nodes: seq<Node>, order: seq<nat>) {
    && (forall k :: 0 <= k < |order| ==> order[k] < |nodes|)
    && (forall k {:trigger nodes[order[k]]} :: 0 <= k < |order| ==>
          nodes[order[k]] == Node(Before(order, k), After(order, k), true))
  }

  ghost predicate OthersReset(nodes: seq<Node>, order: seq<nat>) {
    forall i :: 0 <= i < |nodes| && i !in order ==> nodes[i] == UNLINKED
  }

  /** `order` is the list the links spell out, least recently touched first. */
  ghost predicate Linked(nodes: seq<Node>, oldest: int, newest: int, order: seq<nat>) {
    NoDup(order) && Ends(oldest, newest, order) && Chained(nodes, order) && OthersReset(nodes, order)
  }

  /** The links determine the list: two orders spelled by the same links are equal. */
  lemma {:induction false} LinksDetermineOrder(nodes: seq<Node>, oldest: int, newest: int, a: seq<nat>, b: seq<nat>)
    requires Linked(nodes, oldest, newest, a) && Linked(nodes, oldest, newest, b)
    ensures a == b
  {
    LinksDeterminePrefix(nodes, oldest, newest, a, b, |a|);
    LinksDeterminePrefix(nodes, oldest, newest, b, a, |b|);
  }

  lemma {:induction false} LinksDeterminePrefix(
      nodes: seq<Node>, oldest: int, newest: int, a: seq<nat>, b: seq<nat>, k: nat)
    requires Linked(nodes, oldest, newest, a) && Linked(nodes, oldest, newest, b)
    requires k <= |a|
    ensures k <= |b| && a[..k] == b[..k]
  {
    if k != 0 {
      LinksDeterminePrefix(nodes, oldest, newest, a, b, k - 1);
      if k > 1 {
        assert a[k - 2] == a[..k - 1][k - 2] == b[..k - 1][k - 2] == b[k - 2];
        assert nodes[a[k - 2]].next == a[k - 1];
      }
    }
  }

  /** Links after the two neighbours of `id` are joined and `id` is reset. */
  function Unlinked(nodes: seq<Node>, id: nat): (r: seq<Node>)
    requires id < |nodes|
    requires nodes[id].prev < |nodes| && nodes[id].next < |nodes|
  {
    var n := nodes[id];
    var bypassed := if n.prev < 0 then nodes else nodes[n.prev := nodes[n.prev].(next := n.next)];
    var joined := if n.next < 0 then bypassed else bypassed[n.next := bypassed[n.next].(prev := n.prev)];
    joined[id := UNLINKED]
  }

  /** What bypassing position `k` leaves in the node at another position `m`. */
  lemma UnlinkedElsewhere(nodes: seq<Node>, oldest: int, newest: int, order: seq<nat>, k: nat, m: nat)
    requires Linked(nodes, oldest, newest, order) && k < |order| && m < |order| && m != k
    ensures nodes[order[k]].prev < |nodes| && nodes[order[k]].next < |nodes|
    ensures Unlinked(nodes, order[k])[order[m]] ==
            Node(if m == k + 1 then Before(order, k) else Before(order, m),
                 if m + 1 == k then After(order, k) else After(order, m), true)
  {
    assert nodes[order[k]].prev == Before(order, k) && nodes[order[k]].next == After(order, k);
    assert nodes[order[m]].prev == Before(order, m) && nodes[order[m]].next == After(order, m);
    assert nodes[order[m]].present;
  }

  lemma UnlinkedChain(nodes: seq<Node>, oldest: int, newest: int, order: seq<nat>, k: nat, rest: seq<nat>)
    requires Linked(nodes, oldest, newest, order) && k < |order| && CutsAt(order, k, rest)
    ensures nodes[order[k]].prev < |nodes| && nodes[order[k]].next < |nodes|
    ensures Chained(Unlinked(nodes, order[k]), rest)
  {
    assert nodes[order[k]].prev == Before(order, k) && nodes[order[k]].next == After(order, k);
    forall j | 0 <= j < |rest|
      ensures rest[j] < |nodes|
      ensures Unlinked(nodes, order[k])[rest[j]] == Node(Before(rest, j), After(rest, j), true)
    {
      UnlinkedElsewhere(nodes, oldest, newest, order, k, if j < k then j else j + 1);
    }
  }

  /** Bypassing the node at position `k` spells the same list without that position. */
  lemma UnlinkCutsOne(
      nodes: seq<Node>, oldest: int, newest: int, order: seq<nat>, k: nat, rest: seq<nat>)
    requires Linked(nodes, oldest, newest, order) && k < |order| && CutsAt(order, k, rest)
    ensures nodes[order[k]].prev < |nodes| && nodes[order[k]].next < |nodes|
    ensures Linked(Unlinked(nodes, order[k]),
                   if nodes[order[k]].prev == NONE then nodes[order[k]].next else oldest,
                   if nodes[order[k]].next == NONE then nodes[order[k]].prev else newest,
                   rest)
  {
    assert nodes[order[k]].prev == Before(order, k) && nodes[order[k]].next == After(order, k);
    UnlinkedChain(nodes, oldest, newest, order, k, rest);
    assert OthersReset(Unlinked(nodes, order[k]), rest);
  }

  /** Hanging an absent node behind the newest one appends it to the list. */
  lemma LinkAppendsOne(nodes: seq<Node>, oldest: int, newest: int, order: seq<nat>, id: nat)
    requires Linked(nodes, oldest, newest, order) && id < |nodes| && id !in order
    ensures newest < |nodes|
    ensures var hung := if newest < 0 then nodes else nodes[newest := nodes[newest].(next := id)];
            Linked(hung[id := Node(newest, NONE, true)],
                   if newest == NONE then id else oldest, id, order + [id])
  {
    var longer := order + [id];
    var hung := if newest < 0 then nodes else nodes[newest := nodes[newest].(next := id)];
    var after := hung[id := Node(newest, NONE, true)];
    LinkedChain(nodes, oldest, newest, order, id, hung, after);
    assert OthersReset(after, longer);
  }

  lemma LinkedChain(nodes: seq<Node>, oldest: int, newest: int, order: seq<nat>, id: nat,
                    hung: seq<Node>, after: seq<Node>)
    requires Linked(nodes, oldest, newest, order) && id < |nodes| && id !in order && newest < |nodes|
    requires hung == if newest < 0 then nodes else nodes[newest := nodes[newest].(next := id)]
    requires after == hung[id := Node(newest, NONE, true)]
    ensures Chained(after, order + [id])
  {
    var longer := order + [id];
    forall k | 0 <= k < |longer|
      ensures longer[k] < |nodes| && after[longer[k]] == Node(Before(longer, k), After(longer, k), true)
    {
      if k < |order| {
        assert nodes[order[k]] == Node(Before(order, k), After(order, k), true);
      }
    }
  }

  class IndexLru {
    var nodes: seq<Node>
    var oldest: int
    var newest: int
    ghost var order: seq<nat>

    ghost predicate Valid()
      reads this
    {
      Linked(nodes, oldest, newest, order)
    }

    constructor (capacity: nat)
      ensures Valid() && order == [] && |nodes| == capacity
    {
      nodes := seq(capacity, _ => UNLINKED);
      oldest, newest := NONE, NONE;
      order := [];
    }

    /** The least recently touched member, NONE when there is none. */
    method Oldest() returns (id: int)
      requires Valid()
      ensures id == if order == [] then NONE else order[0]
    {
      id := oldest;
    }

    /** The member touched just after `id`. */
    method Next(id: nat) returns (next: int)
      requires Valid() && id < |nodes|
      ensures id !in order ==> next == NONE
      ensures forall k :: 0 <= k < |order| && order[k] == id ==>
                next == After(order, k)
    {
      next := nodes[id].next;
    }

    method Erase(id: nat)
      requires Valid() && id < |nodes|
      modifies this
      ensures Valid() && order == Without(old(order), id) && |nodes| == old(|nodes|)
    {
      var n := nodes[id];
      if !n.present {
        return;
      }
      ghost var before := nodes;
      ghost var k :| 0 <= k < |order| && order[k] == id;
      ghost var rest := Without(order, id);
      WithoutCuts(order, k);
      UnlinkCutsOne(nodes, oldest, newest, order, k, rest);
      if n.prev == NONE {
        oldest := n.next;
      } else {
        nodes := nodes[n.prev := nodes[n.prev].(next := n.next)];
      }
      if n.next == NONE {
        newest := n.prev;
      } else {
        nodes := nodes[n.next := nodes[n.next].(prev := n.prev)];
      }
      nodes := nodes[id := UNLINKED];
      assert nodes == Unlinked(before, id);
      order := rest;
    }

    method Touch(id: nat)
      requires Valid() && id < |nodes|
      modifies this
      ensures Valid() && order == Without(old(order), id) + [id] && |nodes| == old(|nodes|)
    {
      Erase(id);
      WithoutNoDup(old(order), id);
      LinkAppendsOne(nodes, oldest, newest, order, id);
      var n := Node(newest, NONE, true);
      if newest == NONE {
        oldest := id;
      } else {
        nodes := nodes[newest := nodes[newest].(next := id)];
      }
      nodes := nodes[id := n];
      newest := id;
      order := order + [id];
    }
  }
}
