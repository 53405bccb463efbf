/** The doubly linked list of entries that the search takes operations out of and puts
    back into. Every node keeps the position of its entry in the history; which nodes are
    currently in the list is a set of positions, the head being at position -1. */
module LinkedEntries {
  import opened Histories

  datatype Payload<+I, +O> = In(input: I) | Out(output: O) | Nothing

  /** A call node has its return node as `matching`; a return node has none. */
  class Node<I, O> {
    const value: Payload<I, O>
    const matching: Node?<I, O>
    const id: int
    var next: Node?<I, O>
    var prev: Node?<I, O>

    constructor (value: Payload<I, O>, matching: Node?<I, O>, id: int)
      ensures this.value == value && this.matching == matching && this.id == id
      ensures next == null && prev == null
    {
      this.value := value;
      this.matching := matching;
      this.id := id;
      next, prev := null, null;
    }
  }

  // ----- positions

  ghost predicate Adjacent(live: set<int>, k: int, j: int) {
    k in live && j in live && k < j && forall m | k < m < j :: m !in live
  }

  ghost predicate Last(live: set<int>, k: int) {
    k in live && forall m | k < m :: m !in live
  }

  lemma {:induction false} PredecessorBelow(live: set<int>, lo: int, c: int) returns (p: int)
    requires lo in live && c in live && lo < c
    ensures Adjacent(live, p, c)
  {
    p := c - 1;
    while p !in live
      invariant lo <= p < c
      invariant forall m | p < m < c :: m !in live
      decreases p - lo
    {
      p := p - 1;
    }
  }

  lemma {:induction false} SuccessorUpTo(live: set<int>, c: int, hi: int) returns (q: int)
    requires c in live && hi in live && c < hi
    ensures Adjacent(live, c, q) && q <= hi
  {
    q := c + 1;
    while q !in live
      invariant c < q <= hi
      invariant forall m | c < m < q :: m !in live
      decreases hi - q
    {
      q := q + 1;
    }
  }

  lemma SuccessorOrLast(live: set<int>, c: int) returns (q: int)
    requires c in live
    ensures Adjacent(live, c, q) || (q == c && Last(live, c))
  {
    if hi :| hi in live && c < hi {
      q := SuccessorUpTo(live, c, hi);
    } else {
      q := c;
    }
  }

  lemma RemoveInner(live: set<int>, p: int, c: int, q: int)
    requires Adjacent(live, p, c) && Adjacent(live, c, q)
    ensures forall k, j :: Adjacent(live - {c}, k, j) <==> (Adjacent(live, k, j) && k != c && j != c) || (k == p && j == q)
    ensures forall k :: Last(live - {c}, k) <==> Last(live, k)
  {
    var rest := live - {c};
    assert p in rest && q in rest;
    forall k, j
      ensures Adjacent(rest, k, j) <==> (Adjacent(live, k, j) && k != c && j != c) || (k == p && j == q)
    {
      if Adjacent(rest, k, j) && !Adjacent(live, k, j) {
        var m :| k < m < j && m in live;
        assert m in rest <==> m != c;
      }
    }
    assert forall m | m in live :: m in rest || m == c;
  }

  lemma RemoveLast(live: set<int>, p: int, c: int)
    requires Adjacent(live, p, c) && Last(live, c)
    ensures forall k, j :: Adjacent(live - {c}, k, j) <==> Adjacent(live, k, j) && j != c
    ensures forall k :: Last(live - {c}, k) <==> k == p
  {
    var rest := live - {c};
    assert p in rest;
    assert forall m | m in live :: m in rest || m == c;
  }

  // ----- the list

  /** Node `k` of the list; the head is node -1. */
  ghost function At<I, O>(head: Node<I, O>, nodes: seq<Node<I, O>>, k: int): Node<I, O>
    requires -1 <= k < |nodes|
  {
    if k == -1 then head else nodes[k]
  }

  ghost predicate InBounds(live: set<int>, n: nat) {
    -1 in live && forall k | k in live :: -1 <= k < n
  }

  ghost predicate Separate<I, O>(head: Node<I, O>, nodes: seq<Node<I, O>>) {
    forall j, k | -1 <= j < k < |nodes| :: At(head, nodes, j) != At(head, nodes, k)
  }

  /** The nodes at the live positions, in order, form the doubly linked list. */
  ghost predicate Linked<I, O>(head: Node<I, O>, nodes: seq<Node<I, O>>, live: set<int>)
    reads head, nodes
    requires InBounds(live, |nodes|)
  {
    && (forall k, j | Adjacent(live, k, j) ::
          At(head, nodes, k).next == At(head, nodes, j) && At(head, nodes, j).prev == At(head, nodes, k))
    && (forall k | Last(live, k) :: At(head, nodes, k).next == null)
  }

  /** The nodes of a lifted operation remember their neighbours: the call those it had in the
      list, the return those it had once the call was gone. */
  ghost predicate Remembers<I, O>(head: Node<I, O>, nodes: seq<Node<I, O>>, live: set<int>, c: int, r: int)
    reads head, nodes
    requires InBounds(live, |nodes|) && 0 <= c < |nodes| && 0 <= r < |nodes|
  {
    && (forall p | Adjacent(live, p, c) :: At(head, nodes, c).prev == At(head, nodes, p))
    && (forall q | Adjacent(live, c, q) :: At(head, nodes, c).next == At(head, nodes, q))
    && (forall p | Adjacent(live - {c}, p, r) :: At(head, nodes, r).prev == At(head, nodes, p))
    && (forall q | Adjacent(live - {c}, r, q) :: At(head, nodes, r).next == At(head, nodes, q))
    && (Last(live - {c}, r) ==> At(head, nodes, r).next == null)
  }

  /** Take a call node out from between its neighbours; it keeps its own links. */
  method UnlinkCall<I, O>(entry: Node<I, O>, ghost head: Node<I, O>, ghost nodes: seq<Node<I, O>>,
                          ghost live: set<int>, ghost c: int, ghost r: int)
    requires Separate(head, nodes) && InBounds(live, |nodes|)
    requires c in live && r in live && 0 <= c < r && entry == At(head, nodes, c)
    requires Linked(head, nodes, live)
    modifies head, nodes
    ensures Linked(head, nodes, live - {c})
    ensures entry.next == old(entry.next) && entry.prev == old(entry.prev)
    ensures forall k | -1 <= k < |nodes| && k !in live ::
              At(head, nodes, k).next == old(At(head, nodes, k).next) && At(head, nodes, k).prev == old(At(head, nodes, k).prev)
    ensures At(head, nodes, -1).prev == old(At(head, nodes, -1).prev)
  {
    ghost var p := PredecessorBelow(live, -1, c);
    ghost var q := SuccessorUpTo(live, c, r);
    RemoveInner(live, p, c, q);
    entry.prev.next := entry.next;
    entry.next.prev := entry.prev;
  }

  /** Likewise a return node, which may be the last. */
  method UnlinkReturn<I, O>(matching: Node<I, O>, ghost head: Node<I, O>, ghost nodes: seq<Node<I, O>>,
                            ghost live: set<int>, ghost r: int)
    requires Separate(head, nodes) && InBounds(live, |nodes|)
    requires r in live && 0 <= r && matching == At(head, nodes, r)
    requires Linked(head, nodes, live)
    modifies head, nodes
    ensures Linked(head, nodes, live - {r})
    ensures matching.next == old(matching.next) && matching.prev == old(matching.prev)
    ensures forall k | -1 <= k < |nodes| && k !in live ::
              At(head, nodes, k).next == old(At(head, nodes, k).next) && At(head, nodes, k).prev == old(At(head, nodes, k).prev)
    ensures At(head, nodes, -1).prev == old(At(head, nodes, -1).prev)
  {
    ghost var p := PredecessorBelow(live, -1, r);
    ghost var q := SuccessorOrLast(live, r);
    if q == r { RemoveLast(live, p, r); } else { RemoveInner(live, p, r, q); }
    matching.prev.next := matching.next;
    if matching.next != null {
      matching.next.prev := matching.prev;
    }
  }

  method Lift<I, O>(entry: Node<I, O>, ghost head: Node<I, O>, ghost nodes: seq<Node<I, O>>,
                    ghost live: set<int>, ghost c: int, ghost r: int)
    requires Separate(head, nodes) && InBounds(live, |nodes|)
    requires c in live && r in live && 0 <= c < r
    requires entry == At(head, nodes, c) && entry.matching == At(head, nodes, r)
    requires Linked(head, nodes, live)
    modifies head, nodes
    ensures Linked(head, nodes, live - {c, r})
    ensures Remembers(head, nodes, live, c, r)
    ensures forall k | -1 <= k < |nodes| && k !in live ::
              At(head, nodes, k).next == old(At(head, nodes, k).next) && At(head, nodes, k).prev == old(At(head, nodes, k).prev)
    ensures At(head, nodes, -1).prev == old(At(head, nodes, -1).prev)
  {
    UnlinkCall(entry, head, nodes, live, c, r);
    UnlinkReturn(entry.matching, head, nodes, live - {c}, r);
    assert live - {c} - {r} == live - {c, r};
  }

  /** Put a return node back between the neighbours it remembers. */
  method RelinkReturn<I, O>(matching: Node<I, O>, ghost head: Node<I, O>, ghost nodes: seq<Node<I, O>>,
                            ghost live: set<int>, ghost r: int)
    requires Separate(head, nodes) && InBounds(live, |nodes|)
    requires r in live && 0 <= r && matching == At(head, nodes, r)
    requires Linked(head, nodes, live - {r})
    requires forall p | Adjacent(live, p, r) :: matching.prev == At(head, nodes, p)
    requires forall q | Adjacent(live, r, q) :: matching.next == At(head, nodes, q)
    requires Last(live, r) ==> matching.next == null
    modifies head, nodes
    ensures Linked(head, nodes, live)
    ensures forall k | -1 <= k < |nodes| && k !in live ::
              At(head, nodes, k).next == old(At(head, nodes, k).next) && At(head, nodes, k).prev == old(At(head, nodes, k).prev)
    ensures At(head, nodes, -1).prev == old(At(head, nodes, -1).prev)
  {
    ghost var p := PredecessorBelow(live, -1, r);
    ghost var q := SuccessorOrLast(live, r);
    if q == r { RemoveLast(live, p, r); } else { RemoveInner(live, p, r, q); }
    matching.prev.next := matching;
    if matching.next != null {
      matching.next.prev := matching;
    }
  }

  /** Put a call node back between the neighbours it remembers. */
  method RelinkCall<I, O>(entry: Node<I, O>, ghost head: Node<I, O>, ghost nodes: seq<Node<I, O>>,
                          ghost live: set<int>, ghost c: int, ghost r: int)
    requires Separate(head, nodes) && InBounds(live, |nodes|)
    requires c in live && r in live && 0 <= c < r && entry == At(head, nodes, c)
    requires Linked(head, nodes, live - {c})
    requires forall p | Adjacent(live, p, c) :: entry.prev == At(head, nodes, p)
    requires forall q | Adjacent(live, c, q) :: entry.next == At(head, nodes, q)
    modifies head, nodes
    ensures Linked(head, nodes, live)
    ensures forall k | -1 <= k < |nodes| && k !in live ::
              At(head, nodes, k).next == old(At(head, nodes, k).next) && At(head, nodes, k).prev == old(At(head, nodes, k).prev)
    ensures At(head, nodes, -1).prev == old(At(head, nodes, -1).prev)
  {
    ghost var p := PredecessorBelow(live, -1, c);
    ghost var q := SuccessorUpTo(live, c, r);
    RemoveInner(live, p, c, q);
    entry.prev.next := entry;
    entry.next.prev := entry;
  }

  method Unlift<I, O>(entry: Node<I, O>, ghost head: Node<I, O>, ghost nodes: seq<Node<I, O>>,
                      ghost live: set<int>, ghost c: int, ghost r: int)
    requires Separate(head, nodes) && InBounds(live, |nodes|)
    requires c in live && r in live && 0 <= c < r
    requires entry == At(head, nodes, c) && entry.matching == At(head, nodes, r)
    requires Linked(head, nodes, live - {c, r})
    requires Remembers(head, nodes, live, c, r)
    modifies head, nodes
    ensures Linked(head, nodes, live)
    ensures forall k | -1 <= k < |nodes| && k !in live ::
              At(head, nodes, k).next == old(At(head, nodes, k).next) && At(head, nodes, k).prev == old(At(head, nodes, k).prev)
    ensures At(head, nodes, -1).prev == old(At(head, nodes, -1).prev)
  {
    assert live - {c} - {r} == live - {c, r};
    RelinkReturn(entry.matching, head, nodes, live - {c}, r);
    RelinkCall(entry, head, nodes, live, c, r);
  }

  /** Putting an operation straight back restores every link of every node. */
  method LiftThenUnlift<I, O>(entry: Node<I, O>, ghost head: Node<I, O>, ghost nodes: seq<Node<I, O>>,
                              ghost live: set<int>, ghost c: int, ghost r: int)
    requires Separate(head, nodes) && InBounds(live, |nodes|)
    requires c in live && r in live && 0 <= c < r
    requires entry == At(head, nodes, c) && entry.matching == At(head, nodes, r)
    requires Linked(head, nodes, live)
    modifies head, nodes
    ensures forall k | -1 <= k < |nodes| ::
              At(head, nodes, k).next == old(At(head, nodes, k).next) && At(head, nodes, k).prev == old(At(head, nodes, k).prev)
  {
    Lift(entry, head, nodes, live, c, r);
    Unlift(entry, head, nodes, live, c, r);
    forall k | -1 <= k < |nodes|
      ensures At(head, nodes, k).next == old(At(head, nodes, k).next) && At(head, nodes, k).prev == old(At(head, nodes, k).prev)
    {
      if k in live {
        var q := SuccessorOrLast(live, k);
        if k != -1 {
          var p := PredecessorBelow(live, -1, k);
        }
      }
    }
  }

  // ----- building the list

  method InsertBefore<I, O>(n: Node<I, O>, mark: Node?<I, O>) returns (inserted: Node<I, O>)
    requires n != mark && (mark != null ==> mark.prev != n)
    modifies n, mark, if mark == null then null else mark.prev
    ensures inserted == n
    ensures mark == null ==> n.next == old(n.next) && n.prev == old(n.prev)
    ensures mark != null ==> mark.prev == n && n.next == mark
    ensures mark != null && old(mark.prev) != mark ==> mark.next == old(mark.next)
    ensures mark != null && old(mark.prev) != null ==> n.prev == old(mark.prev) && old(mark.prev).next == n
    ensures mark != null && old(mark.prev) == null ==> n.prev == old(n.prev)
  {
    if mark != null {
      var beforeMark := mark.prev;
      mark.prev := n;
      n.next := mark;
      if beforeMark != null {
        n.prev := beforeMark;
        beforeMark.next := n;
      }
    }
    return n;
  }

  /** Node `k` carries entry `k` of the history; a call knows its return. */
  ghost predicate Carries<I, O>(h: seq<Entry<I, O>>, node: map<int, Node<I, O>>, k: int)
    requires WellFormed(h) && 0 <= k < |h|
  {
    && k in node
    && node[k].id == h[k].id
    && match h[k] {
         case Return(id, output, _, _) => node[k].value == Out(output) && node[k].matching == null
         case Call(id, input, _, _) =>
           && node[k].value == In(input)
           && ReturnPos(h, id) in node
           && node[k].matching == node[ReturnPos(h, id)]
       }
  }

  /** The nodes from position `i` on form a complete list. */
  ghost predicate ChainFrom<I, O>(node: map<int, Node<I, O>>, i: int, n: int)
    reads set k | i <= k < n && k in node :: node[k]
    requires forall k | i <= k < n :: k in node
  {
    && (forall j, k | i <= j < k < n :: node[j] != node[k])
    && (forall k | i <= k < n - 1 :: node[k].next == node[k + 1])
    && (forall k | i < k < n :: node[k].prev == node[k - 1])
    && (i < n ==> node[i].prev == null && node[n - 1].next == null)
  }

  method Prepend<I, O>(entry: Node<I, O>, root: Node?<I, O>, ghost node: map<int, Node<I, O>>, ghost i: nat, ghost n: nat)
    requires i < n && forall k | i < k < n :: k in node && node[k] != entry
    requires ChainFrom(node, i + 1, n)
    requires root == if i + 1 == n then null else node[i + 1]
    requires entry.next == null && entry.prev == null
    modifies entry, root
    ensures ChainFrom(node[i := entry], i, n)
  {
    var _ := InsertBefore(entry, root);
  }

  /** The returns from position `i` on can be looked up by operation. */
  ghost predicate ReturnsKnown<I, O>(h: seq<Entry<I, O>>, i: int, node: map<int, Node<I, O>>, returnNode: map<nat, Node<I, O>>)
    requires 0 <= i <= |h| && forall k | i <= k < |h| :: k in node
  {
    forall r | i <= r < |h| && h[r].Return? :: h[r].id in returnNode && returnNode[h[r].id] == node[r]
  }

  method NewEntry<I, O>(h: seq<Entry<I, O>>, i: nat, returnNode: map<nat, Node<I, O>>, ghost rest: map<int, Node<I, O>>)
    returns (entry: Node<I, O>, returnNode': map<nat, Node<I, O>>, ghost node: map<int, Node<I, O>>)
    requires WellFormed(h) && i < |h|
    requires forall k | i < k < |h| :: k in rest && Carries(h, rest, k)
    requires ReturnsKnown(h, i + 1, rest, returnNode)
    ensures fresh(entry) && entry.next == null && entry.prev == null
    ensures node == rest[i := entry]
    ensures forall k | i <= k < |h| :: Carries(h, node, k)
    ensures ReturnsKnown(h, i, node, returnNode')
  {
    Positions(h, i);
    returnNode' := returnNode;
    var elem := h[i];
    if elem.Return? {
      entry := new Node(Out(elem.output), null, elem.id);
      returnNode' := returnNode[elem.id := entry];
    } else {
      assert h[ReturnPos(h, elem.id)].Return?;
      entry := new Node(In(elem.input), returnNode[elem.id], elem.id);
    }
    node := rest[i := entry];
    forall k | i <= k < |h| ensures Carries(h, node, k) {
      if k > i {
        assert Carries(h, rest, k);
        Positions(h, k);
      }
    }
  }

  /** The list of the entries from position `i` on, first node `root`, is complete. */
  ghost predicate Built<I, O>(h: seq<Entry<I, O>>, i: nat, root: Node?<I, O>, node: map<int, Node<I, O>>, returnNode: map<nat, Node<I, O>>)
    reads set k | i <= k < |h| && k in node :: node[k]
    requires WellFormed(h) && i <= |h|
  {
    && (forall k :: k in node <==> i <= k < |h|)
    && (forall k | i <= k < |h| :: Carries(h, node, k))
    && ChainFrom(node, i, |h|)
    && root == (if i == |h| then null else node[i])
    && ReturnsKnown(h, i, node, returnNode)
  }

  /** One more entry at the front, linked to the rest of the list. */
  method AddEntry<I, O>(h: seq<Entry<I, O>>, i: nat, root: Node?<I, O>, returnNode: map<nat, Node<I, O>>, ghost rest: map<int, Node<I, O>>)
    returns (entry: Node<I, O>, returnNode': map<nat, Node<I, O>>, ghost node: map<int, Node<I, O>>)
    requires WellFormed(h) && i < |h| && Built(h, i + 1, root, rest, returnNode)
    modifies root
    ensures fresh(entry) && node == rest[i := entry]
    ensures Built(h, i, entry, node, returnNode')
  {
    entry, returnNode', node := NewEntry(h, i, returnNode, rest);
    Prepend(entry, root, rest, i, |h|);
  }

  method MakeLinkedEntries<I, O>(h: seq<Entry<I, O>>) returns (root: Node?<I, O>, ghost node: map<int, Node<I, O>>)
    requires WellFormed(h)
    ensures forall k :: k in node <==> 0 <= k < |h|
    ensures forall k | 0 <= k < |h| :: Carries(h, node, k) && fresh(node[k])
    ensures ChainFrom(node, 0, |h|)
    ensures root == if h == [] then null else node[0]
  {
    root := null;
    node := map[];
    var returnNode: map<nat, Node<I, O>> := map[];
    for i := |h| downto 0
      invariant Built(h, i, root, node, returnNode)
      invariant forall k | k in node :: fresh(node[k])
    {
      root, returnNode, node := AddEntry(h, i, root, returnNode, node);
    }
  }

  method Length<I, O>(n: Node?<I, O>, ghost node: map<int, Node<I, O>>, ghost len: nat) returns (l: nat)
    requires forall k | 0 <= k < len :: k in node
    requires ChainFrom(node, 0, len) && n == if len == 0 then null else node[0]
    ensures l == len
  {
    l := 0;
    var n := n;
    while n != null
      invariant l <= len
      invariant n == if l == len then null else node[l]
      decreases len - l
    {
      n := n.next;
      l := l + 1;
    }
  }

  /** The positions still in the list when the operations in `done` are lifted. */
  ghost function Live<I, O>(h: seq<Entry<I, O>>, done: set<nat>): set<int> {
    set k | -1 <= k < |h| && (k == -1 || h[k].id !in done)
  }

  /** With the head inserted in front, the complete list is linked at all positions. */
  lemma ChainIsLinked<I, O>(h: seq<Entry<I, O>>, head: Node<I, O>, nodes: seq<Node<I, O>>)
    requires |nodes| == |h|
    requires Separate(head, nodes)
    requires forall k | -1 <= k < |nodes| - 1 ::
               At(head, nodes, k).next == At(head, nodes, k + 1) && At(head, nodes, k + 1).prev == At(head, nodes, k)
    requires At(head, nodes, |nodes| - 1).next == null
    ensures InBounds(Live(h, {}), |nodes|) && Linked(head, nodes, Live(h, {}))
  {
    var live := Live(h, {});
    assert forall k :: k in live <==> -1 <= k < |h|;
    forall k, j | Adjacent(live, k, j) ensures j == k + 1 {
      assert k + 1 in live;
    }
    forall k | Last(live, k) ensures k == |h| - 1 {
      assert |h| - 1 in live;
    }
  }
}
