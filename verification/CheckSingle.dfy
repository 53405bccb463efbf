/** The search as the checker runs it: on the linked list, with the bitset of placed
    operations, the hashed cache and the stack of saved states. */
module Checker {
  import opened Collections
  import opened Linearizability
  import opened Search
  import opened Histories
  import opened LinkedEntries
  import opened Bitsets
  import opened Caches
  import opened Sealing

  datatype CallsEntry<S, I, O> = CallsEntry(entry: Node<I, O>, state: S)

  /** Node `k` of the list carries entry `k` of the history; a call knows its return. */
  ghost predicate CarriesAll<I, O>(h: seq<Entry<I, O>>, nodes: seq<Node<I, O>>) {
    && WellFormed(h)
    && |nodes| == |h|
    && forall k | 0 <= k < |h| :: CarriesAt(h, nodes, k)
  }

  ghost predicate CarriesAt<I, O>(h: seq<Entry<I, O>>, nodes: seq<Node<I, O>>, k: int)
    requires WellFormed(h) && |nodes| == |h| && 0 <= k < |h|
  {
    && nodes[k].id == h[k].id
    && match h[k] {
         case Return(id, output, _, _) => nodes[k].value == Out(output) && nodes[k].matching == null
         case Call(id, input, _, _) => nodes[k].value == In(input) && nodes[k].matching == nodes[ReturnPos(h, id)]
       }
  }

  /** The stack in memory holds the call nodes and states of the stack of the search. */
  ghost predicate Mirrors<S, I, O>(h: seq<Entry<I, O>>, nodes: seq<Node<I, O>>, calls: seq<CallsEntry<S, I, O>>, stack: seq<Frame<S>>)
    requires CarriesAll(h, nodes)
  {
    && |calls| == |stack|
    && forall k | 0 <= k < |calls| ::
         && calls[k].state == stack[k].state
         && stack[k].id < Count(h)
         && calls[k].entry == nodes[CallPos(h, stack[k].id)]
  }

  /** Every lifted operation remembers its place, as of when it was lifted. */
  ghost predicate StackRemembers<S, I, O>(h: seq<Entry<I, O>>, head: Node<I, O>, nodes: seq<Node<I, O>>, st: Snapshot<S>)
    reads head, nodes
    requires CarriesAll(h, nodes)
  {
    forall k | 0 <= k < |st.stack| ::
      && st.stack[k].id < Count(h)
      && Remembers(head, nodes, Live(h, st.Done(k)), CallPos(h, st.stack[k].id), ReturnPos(h, st.stack[k].id))
  }

  /** The scan has reached position `pos` without meeting a return. */
  ghost predicate Cursor<I, O>(h: seq<Entry<I, O>>, nodes: seq<Node<I, O>>, done: set<nat>, entry: Node?<I, O>, pos: int)
    requires |nodes| == |h|
  {
    && 0 <= pos <= |h|
    && (forall k | 0 <= k < pos && h[k].Return? :: h[k].id in done)
    && (pos in Live(h, done) || (pos == |h| && Live(h, done) == {-1}))
    && (pos < |h| ==> entry == nodes[pos])
  }

  // ----- what the cursor tells about the operations

  lemma CallIsEnabled<S(!new), I(!new), O(!new)>(m: Model<S, I, O>, h: seq<Entry<I, O>>, nodes: seq<Node<I, O>>, done: set<nat>, entry: Node<I, O>, pos: int)
    requires CarriesAll(h, nodes) && Cursor(h, nodes, done, entry, pos)
    requires 0 <= pos < |h| && h[pos].Call?
    ensures var b := h[pos].id; Enabled(ProblemOf(m, h), done, b) && CallRanks(h)[b] == pos == CallPos(h, b)
    ensures var b := h[pos].id; pos < ReturnPos(h, b) && ReturnPos(h, b) in Live(h, done)
  {
    var b := h[pos].id;
    Positions(h, pos);
    assert IsReturn(h, ReturnPos(h, b), b);
    forall a: nat | a < Count(h) && ReturnPos(h, a) < CallPos(h, b) ensures a in done {
      assert IsReturn(h, ReturnPos(h, a), a);
    }
  }

  lemma ReturnExhausts<S(!new), I(!new), O(!new)>(m: Model<S, I, O>, h: seq<Entry<I, O>>, nodes: seq<Node<I, O>>, done: set<nat>, entry: Node<I, O>, pos: int)
    requires CarriesAll(h, nodes) && Cursor(h, nodes, done, entry, pos)
    requires 0 <= pos < |h| && h[pos].Return?
    ensures done != AllIds(Count(h))
    ensures forall b: nat | Enabled(ProblemOf(m, h), done, b) :: CallRanks(h)[b] < pos
  {
    var a := h[pos].id;
    Positions(h, pos);
    assert a in AllIds(Count(h)) && a !in done;
    forall b: nat | Enabled(ProblemOf(m, h), done, b) ensures CallRanks(h)[b] < pos {
      assert !ProblemOf(m, h).before(a, b);
      assert IsCall(h, CallPos(h, b), b);
    }
  }

  /** Moving to the next node skips only placed operations. */
  lemma NextCursor<I, O>(h: seq<Entry<I, O>>, done: set<nat>, pos: int, q: int)
    requires WellFormed(h) && 0 <= pos < |h| && Adjacent(Live(h, done), pos, q)
    ensures pos < q < |h|
    ensures forall k | pos < k < q :: h[k].id in done
    ensures forall c: nat | c < Count(h) && pos <= CallRanks(h)[c] < q :: c == h[pos].id || c in done
  {
    forall k | pos < k < q ensures h[k].id in done {
      assert k !in Live(h, done);
    }
    forall c: nat | c < Count(h) && pos <= CallRanks(h)[c] < q ensures c == h[pos].id || c in done {
      assert IsCall(h, CallPos(h, c), c);
    }
  }

  lemma CursorAfter<I, O>(h: seq<Entry<I, O>>, nodes: seq<Node<I, O>>, done: set<nat>, pos: int, q: int)
    requires WellFormed(h) && |nodes| == |h| && 0 <= pos < |h| && h[pos].Call? && Adjacent(Live(h, done), pos, q)
    requires forall k | 0 <= k < pos && h[k].Return? :: h[k].id in done
    ensures q < |h| && Cursor(h, nodes, done, nodes[q], q)
  {
    NextCursor(h, done, pos, q);
  }

  /** The first node of the list, if there is one, is a cursor with nothing before it. */
  lemma HeadCursor<I, O>(h: seq<Entry<I, O>>, head: Node<I, O>, nodes: seq<Node<I, O>>, done: set<nat>) returns (pos: int)
    requires CarriesAll(h, nodes) && InBounds(Live(h, done), |nodes|) && Linked(head, nodes, Live(h, done))
    ensures Cursor(h, nodes, done, head.next, pos)
    ensures pos == |h| <==> head.next == null
    ensures forall c: nat | c < Count(h) && CallRanks(h)[c] < pos :: c in done
  {
    var live := Live(h, done);
    assert At(head, nodes, -1) == head;
    pos := SuccessorOrLast(live, -1);
    if pos == -1 {
      pos := |h|;
      forall k | k in live ensures k == -1 {}
    }
    forall k | 0 <= k < pos ensures h[k].id in done {
      assert k !in live;
    }
    forall c: nat | c < Count(h) && CallRanks(h)[c] < pos ensures c in done {
      assert IsCall(h, CallPos(h, c), c);
    }
  }

  lemma LiveWithout<I, O>(h: seq<Entry<I, O>>, done: set<nat>, b: nat)
    requires WellFormed(h) && b < Count(h)
    ensures Live(h, done + {b}) == Live(h, done) - {CallPos(h, b), ReturnPos(h, b)}
  {
    forall k | 0 <= k < |h| && h[k].id == b ensures k == CallPos(h, b) || k == ReturnPos(h, b) {
      Positions(h, k);
    }
    assert IsCall(h, CallPos(h, b), b) && IsReturn(h, ReturnPos(h, b), b);
  }

  /** The list holds exactly the operations not on the stack, and those on it can be put back. */
  ghost predicate ListInv<S, I, O>(h: seq<Entry<I, O>>, head: Node<I, O>, nodes: seq<Node<I, O>>, st: Snapshot<S>)
    reads head, nodes
  {
    && CarriesAll(h, nodes)
    && Separate(head, nodes)
    && InBounds(Live(h, st.Top().0), |nodes|)
    && Linked(head, nodes, Live(h, st.Top().0))
    && StackRemembers(h, head, nodes, st)
  }

  lemma InBoundsLive<I, O>(h: seq<Entry<I, O>>, done: set<nat>)
    ensures InBounds(Live(h, done), |h|)
  {
  }

  /** Operations on the stack are not in the list. */
  lemma LowerNotLive<S, I, O>(h: seq<Entry<I, O>>, st: Snapshot<S>, n: nat)
    requires WellFormed(h) && n <= |st.stack|
    requires forall k | 0 <= k < n :: st.stack[k].id < Count(h)
    ensures forall k | 0 <= k < n ::
              CallPos(h, st.stack[k].id) !in Live(h, st.Done(n)) && ReturnPos(h, st.stack[k].id) !in Live(h, st.Done(n))
  {
    forall k | 0 <= k < n
      ensures CallPos(h, st.stack[k].id) !in Live(h, st.Done(n)) && ReturnPos(h, st.stack[k].id) !in Live(h, st.Done(n))
    {
      var id := st.stack[k].id;
      assert st.Order()[..n][k] == id;
      assert IsCall(h, CallPos(h, id), id) && IsReturn(h, ReturnPos(h, id), id);
    }
  }

  method Place<S(!new), I(!new), O(!new)>(entry: Node<I, O>, ghost p: Problem<S, I, O>, ghost h: seq<Entry<I, O>>, ghost head: Node<I, O>,
                              ghost nodes: seq<Node<I, O>>, ghost st: Snapshot<S>, ghost b: nat)
    requires ListInv(h, head, nodes, st)
    requires |p.ops| == Count(h) && b < Count(h) && b !in st.Top().0
    requires entry == nodes[CallPos(h, b)]
    modifies head, nodes
    ensures ListInv(h, head, nodes, Pushed(p, st, b))
  {
    ghost var st' := Pushed(p, st, b);
    ghost var live, c, r := Live(h, st.Top().0), CallPos(h, b), ReturnPos(h, b);
    assert IsCall(h, c, b) && IsReturn(h, r, b);
    Positions(h, c);
    assert CarriesAt(h, nodes, c);
    PushedShape(p, st, b);
    LiveWithout(h, st.Top().0, b);
    LowerNotLive(h, st, |st.stack|);
    Lift(entry, head, nodes, live, c, r);
    forall k | 0 <= k < |st'.stack|
      ensures && st'.stack[k].id < Count(h)
              && Remembers(head, nodes, Live(h, st'.Done(k)), CallPos(h, st'.stack[k].id), ReturnPos(h, st'.stack[k].id))
    {
      assert st'.ConfigAt(k) == st.ConfigAt(k);
      assert At(head, nodes, CallPos(h, st'.stack[k].id)) == nodes[CallPos(h, st'.stack[k].id)];
      assert At(head, nodes, ReturnPos(h, st'.stack[k].id)) == nodes[ReturnPos(h, st'.stack[k].id)];
    }
  }

  method TakeBack<S(!new), I(!new), O(!new)>(entry: Node<I, O>, ghost h: seq<Entry<I, O>>, ghost head: Node<I, O>,
                                 ghost nodes: seq<Node<I, O>>, ghost st: Snapshot<S>)
    requires ListInv(h, head, nodes, st) && |st.stack| > 0
    requires var b := st.stack[|st.stack| - 1].id; b !in Popped(st).Top().0 && b < Count(h) && entry == nodes[CallPos(h, b)]
    modifies head, nodes
    ensures ListInv(h, head, nodes, Popped(st))
  {
    ghost var st', d := Popped(st), |st.stack| - 1;
    ghost var b := st.stack[d].id;
    ghost var live, c, r := Live(h, st'.Top().0), CallPos(h, b), ReturnPos(h, b);
    assert IsCall(h, c, b) && IsReturn(h, r, b);
    Positions(h, c);
    assert CarriesAt(h, nodes, c);
    PoppedShape(st);
    LiveWithout(h, st'.Top().0, b);
    InBoundsLive(h, st'.Top().0);
    assert st'.ConfigAt(d) == st.ConfigAt(d);
    LowerNotLive(h, st, d);
    Unlift(entry, head, nodes, live, c, r);
    forall k | 0 <= k < |st'.stack|
      ensures && st'.stack[k].id < Count(h)
              && Remembers(head, nodes, Live(h, st'.Done(k)), CallPos(h, st'.stack[k].id), ReturnPos(h, st'.stack[k].id))
    {
      assert st'.ConfigAt(k) == st.ConfigAt(k);
      assert At(head, nodes, CallPos(h, st'.stack[k].id)) == nodes[CallPos(h, st'.stack[k].id)];
      assert At(head, nodes, ReturnPos(h, st'.stack[k].id)) == nodes[ReturnPos(h, st'.stack[k].id)];
    }
  }

  // ----- the pieces of the search

  /** The linked list with its head, and the number of operations in it. */
  ghost function NodeSeq<I, O>(h: seq<Entry<I, O>>, node: map<int, Node<I, O>>): (nodes: seq<Node<I, O>>)
    requires forall k | 0 <= k < |h| :: k in node
    ensures |nodes| == |h| && forall k | 0 <= k < |h| :: nodes[k] == node[k]
  {
    seq(|h|, k requires 0 <= k < |h| => node[k])
  }

  /** The head goes in front of the first entry. */
  method PutHead<I, O>(h: seq<Entry<I, O>>, entry: Node?<I, O>, ghost node: map<int, Node<I, O>>) returns (headEntry: Node<I, O>)
    requires forall k | 0 <= k < |h| :: k in node
    requires ChainFrom(node, 0, |h|) && entry == if h == [] then null else node[0]
    modifies entry
    ensures fresh(headEntry) && entry == headEntry.next
    ensures Separate(headEntry, NodeSeq(h, node))
    ensures InBounds(Live(h, {}), |h|) && Linked(headEntry, NodeSeq(h, node), Live(h, {}))
  {
    var head := new Node(Nothing, null, -1);
    headEntry := InsertBefore(head, entry);
    ChainIsLinked(h, headEntry, NodeSeq(h, node));
  }

  lemma AllCarried<I, O>(h: seq<Entry<I, O>>, node: map<int, Node<I, O>>)
    requires WellFormed(h) && forall k | 0 <= k < |h| :: k in node && Carries(h, node, k)
    ensures CarriesAll(h, NodeSeq(h, node))
  {
    forall k | 0 <= k < |h| ensures CarriesAt(h, NodeSeq(h, node), k) {
      assert Carries(h, node, k);
    }
  }

  method BuildList<I, O>(h: seq<Entry<I, O>>) returns (entry: Node?<I, O>, headEntry: Node<I, O>, n: nat, ghost nodes: seq<Node<I, O>>)
    requires WellFormed(h)
    ensures n == Count(h)
    ensures CarriesAll(h, nodes) && Separate(headEntry, nodes)
    ensures InBounds(Live(h, {}), |nodes|) && Linked(headEntry, nodes, Live(h, {}))
    ensures entry == headEntry.next
    ensures fresh(headEntry) && fresh(nodes)
  {
    ghost var node;
    entry, node := MakeLinkedEntries(h);
    var len := Length(entry, node, |h|);
    n := len / 2;
    nodes := NodeSeq(h, node);
    AllCarried(h, node);
    headEntry := PutHead(h, entry, node);
  }

  /** The operations on the stack, bottom first. */
  function Ids<S, I, O>(calls: seq<CallsEntry<S, I, O>>): (ids: seq<nat>)
    requires forall k | 0 <= k < |calls| :: calls[k].entry.id >= 0
    ensures |ids| == |calls|
  {
    seq(|calls|, k requires 0 <= k < |calls| => calls[k].entry.id)
  }

  /** Keep the stack as the longest prefix through each of its operations that has none
      as long. */
  method RecordLongest<S, I, O>(longest: seq<Option<seq<nat>>>, calls: seq<CallsEntry<S, I, O>>)
    returns (longest': seq<Option<seq<nat>>>)
    requires forall k | 0 <= k < |calls| :: 0 <= calls[k].entry.id < |longest|
    ensures |longest'| == |longest|
    ensures forall i | 0 <= i < |longest| ::
              longest'[i] == if i in Ids(calls) && (longest[i].None? || |calls| > |longest[i].value|)
                             then Some(Ids(calls)) else longest[i]
  {
    longest' := longest;
    var seq_: Option<seq<nat>> := None;
    for j := 0 to |calls|
      invariant |longest'| == |longest|
      invariant seq_.Some? ==> seq_.value == Ids(calls)
      invariant forall i | 0 <= i < |longest| ::
                  longest'[i] == if i in Ids(calls)[..j] && (longest[i].None? || |calls| > |longest[i].value|)
                                 then Some(Ids(calls)) else longest[i]
    {
      var id := calls[j].entry.id;
      assert Ids(calls)[..j + 1] == Ids(calls)[..j] + [id];
      if longest'[id].None? || |calls| > |longest'[id].value| {
        if seq_.None? {
          seq_ := Some(Ids(calls));
        }
        longest' := longest'[id := seq_];
      }
    }
    assert Ids(calls)[..|calls|] == Ids(calls);
  }

  // ----- what the moves of the search mean for stack, cursor and record

  lemma MirrorIds<S, I, O>(h: seq<Entry<I, O>>, nodes: seq<Node<I, O>>, calls: seq<CallsEntry<S, I, O>>, st: Snapshot<S>)
    requires CarriesAll(h, nodes) && Mirrors(h, nodes, calls, st.stack)
    ensures forall k | 0 <= k < |calls| :: 0 <= calls[k].entry.id < Count(h)
    ensures Ids(calls) == st.Order()
  {
    forall k | 0 <= k < |calls| ensures calls[k].entry.id == st.stack[k].id {
      var c := CallPos(h, st.stack[k].id);
      assert IsCall(h, c, st.stack[k].id) && CarriesAt(h, nodes, c);
    }
  }

  /** Recording the stack keeps what was kept and covers the configuration on top. */
  lemma RecordedTop<S(!new), I(!new), O(!new)>(p: Problem<S, I, O>, rank: seq<nat>, partial: bool, st: Snapshot<S>, pos: int, longest': seq<Option<seq<nat>>>)
    requires Inv(p, rank, partial, st, pos)
    requires |longest'| == |st.longest|
    requires forall i | 0 <= i < |longest'| ::
              longest'[i] == if i in st.Order() && (st.longest[i].None? || |st.Order()| > |st.longest[i].value|)
                             then Some(st.Order()) else st.longest[i]
    ensures Inv(p, rank, partial, st.(longest := longest'), pos)
    ensures Recorded(longest', st.Top().0)
  {
    RecordInv(p, rank, partial, st, pos, longest');
    DistinctCount(st.Order());
    assert st.Order()[..|st.stack|] == st.Order();
  }

  /** What returned before the operation on top of the stack was called is placed below it. */
  lemma ReturnedBelow<S(!new), I(!new), O(!new)>(m: Model<S, I, O>, h: seq<Entry<I, O>>, order: seq<nat>, d: nat, k: nat)
    requires WellFormed(h) && d < |order| && IsPartial(ProblemOf(m, h), order)
    requires k < CallPos(h, order[d]) && h[k].Return?
    ensures h[k].id in order[..d]
  {
    Positions(h, k);
    assert Ready(ProblemOf(m, h), order[..d], order[d]);
    assert ProblemOf(m, h).before(h[k].id, order[d]);
  }

  /** After backtracking, the scan goes on behind the operation taken back. */
  lemma ResumeCursor<S(!new), I(!new), O(!new)>(m: Model<S, I, O>, h: seq<Entry<I, O>>, st: Snapshot<S>)
    requires WellFormed(h) && PathValid(ProblemOf(m, h), st) && |st.stack| > 0
    ensures var st', b := Popped(st), st.stack[|st.stack| - 1].id;
            && b < Count(h)
            && b !in st'.Top().0
            && CallPos(h, b) in Live(h, st'.Top().0)
            && ReturnPos(h, b) in Live(h, st'.Top().0)
            && CallPos(h, b) < ReturnPos(h, b)
            && forall k | 0 <= k < CallPos(h, b) && h[k].Return? :: h[k].id in st'.Top().0
  {
    var d, order := |st.stack| - 1, st.Order();
    var b := order[d];
    PoppedDone(st);
    assert b !in order[..d];
    Positions(h, CallPos(h, b));
    assert IsCall(h, CallPos(h, b), b) && IsReturn(h, ReturnPos(h, b), b);
    forall k | 0 <= k < CallPos(h, b) && h[k].Return? ensures h[k].id in order[..d] {
      ReturnedBelow(m, h, order, d, k);
    }
  }

  lemma PoppedDone<S(!new)>(st: Snapshot<S>)
    requires |st.stack| > 0
    ensures Popped(st).Top().0 == IdSet(st.Order()[..|st.stack| - 1])
  {
    PoppedShape(st);
  }

  /** The whole list is gone: the stack is a complete linearization. */
  lemma EmptyListCompletes<S(!new), I(!new), O(!new)>(m: Model<S, I, O>, h: seq<Entry<I, O>>, st: Snapshot<S>)
    requires WellFormed(h) && PathValid(ProblemOf(m, h), st)
    requires Live(h, st.Top().0) == {-1}
    ensures IsLinearization(ProblemOf(m, h), st.Order())
  {
    var p, order := ProblemOf(m, h), st.Order();
    assert order[..|st.stack|] == order;
    forall id: nat | id < Count(h) ensures id in order {
      var c := CallPos(h, id);
      assert IsCall(h, c, id);
      assert c !in Live(h, st.Top().0);
    }
    AllCount(Count(h), order);
    BeforeIrreflexive(m, h);
    LinearizationIffFullPartial(p, order);
  }

  lemma NoFullPartial<S(!new), I(!new), O(!new)>(m: Model<S, I, O>, h: seq<Entry<I, O>>)
    requires WellFormed(h)
    requires forall order | IsPartial(ProblemOf(m, h), order) :: |order| < Count(h)
    ensures !Linearizable(ProblemOf(m, h))
  {
    BeforeIrreflexive(m, h);
    forall order ensures !IsLinearization(ProblemOf(m, h), order) {
      LinearizationIffFullPartial(ProblemOf(m, h), order);
    }
  }

  // ----- bitset and cache

  /** The bitset holds the operations on the stack and the cache the configurations seen. */
  ghost predicate SetInv<S(!new)>(n: nat, linearized: array<Word>, cache: Cache<S>, st: Snapshot<S>)
    reads linearized, cache, cache.Repr
  {
    forall seal {:trigger Unsealed(seal)} :: seal == SearchSeal ==> SetFacts(n, linearized, cache, st)
  }

  ghost predicate SetFacts<S(!new)>(n: nat, linearized: array<Word>, cache: Cache<S>, st: Snapshot<S>)
    reads linearized, cache, cache.Repr
  {
    && cache.Valid()
    && linearized !in cache.Repr
    && cache.words == linearized.Length
    && n <= 64 * linearized.Length
    && Denote(linearized[..]) == st.Top().0
    && st.seen == cache.seen
  }

  method CloneWith(linearized: array<Word>, id: nat) returns (newLinearized: array<Word>)
    requires id < 64 * linearized.Length
    ensures fresh(newLinearized) && newLinearized.Length == linearized.Length
    ensures Denote(newLinearized[..]) == Denote(linearized[..]) + {id}
  {
    newLinearized := Clone(linearized);
    Set(newLinearized, id);
  }

  /** Enter the configuration that `id` leads to, unless the cache covers it. */
  method TryEnter<S(!new), I(!new), O(!new)>(ghost p: Problem<S, I, O>, equal: (S, S) -> bool, linearized: array<Word>, cache: Cache<S>,
                                 ghost st: Snapshot<S>, id: nat, newState: S)
    returns (entered: bool)
    requires id < |p.ops| && equal == p.model.equal && newState == Step(p, st.state, id).1
    requires SetInv(|p.ops|, linearized, cache, st)
    modifies linearized, cache
    ensures entered <==> !Covered(p, st.seen, st.Top().0 + {id}, newState)
    ensures SetInv(|p.ops|, linearized, cache, if entered then Pushed(p, st, id) else st)
    ensures fresh(cache.Repr - old(cache.Repr))
  {
    assert Unsealed(SearchSeal);
    var newLinearized := CloneWith(linearized, id);
    var found := cache.Contains(equal, newLinearized, newState);
    entered := !found;
    if !found {
      Enter(p, linearized, cache, st, id, newLinearized, newState);
    }
  }

  method Enter<S(!new), I(!new), O(!new)>(ghost p: Problem<S, I, O>, linearized: array<Word>, cache: Cache<S>,
                              ghost st: Snapshot<S>, id: nat, newLinearized: array<Word>, newState: S)
    requires id < |p.ops| && newState == Step(p, st.state, id).1
    requires SetInv(|p.ops|, linearized, cache, st)
    requires newLinearized.Length == linearized.Length && newLinearized != linearized
    requires Denote(newLinearized[..]) == st.Top().0 + {id}
    modifies linearized, cache
    ensures SetInv(|p.ops|, linearized, cache, Pushed(p, st, id))
    ensures cache.Repr == old(cache.Repr) + {newLinearized}
  {
    assert Unsealed(SearchSeal);
    PushedShape(p, st, id);
    cache.Insert(newLinearized, newState);
    Set(linearized, id);
  }

  method Leave<S(!new)>(n: nat, linearized: array<Word>, ghost cache: Cache<S>, ghost st: Snapshot<S>, id: nat)
    requires id < n && SetInv(n, linearized, cache, st)
    requires |st.stack| > 0 && st.stack[|st.stack| - 1].id == id && id !in Popped(st).Top().0
    modifies linearized
    ensures SetInv(n, linearized, cache, Popped(st))
  {
    assert Unsealed(SearchSeal);
    PoppedShape(st);
    Clear(linearized, id);
  }

  // ----- the moves

  /** Everything about a moment of the search that does not concern bitset and cache. */
  ghost predicate Moment<S(!new), I(!new), O(!new)>(
      model: Model<S, I, O>, h: seq<Entry<I, O>>, partial: bool, headEntry: Node<I, O>, nodes: seq<Node<I, O>>,
      st: Snapshot<S>, pos: int, entry: Node?<I, O>, calls: seq<CallsEntry<S, I, O>>)
    reads headEntry, nodes
  {
    && CarriesAll(h, nodes)
    && forall seal {:trigger Unsealed(seal)} ::
         seal == SearchSeal ==> MomentFacts(model, h, partial, headEntry, nodes, st, pos, entry, calls)
  }

  ghost predicate MomentFacts<S(!new), I(!new), O(!new)>(
      model: Model<S, I, O>, h: seq<Entry<I, O>>, partial: bool, headEntry: Node<I, O>, nodes: seq<Node<I, O>>,
      st: Snapshot<S>, pos: int, entry: Node?<I, O>, calls: seq<CallsEntry<S, I, O>>)
    reads headEntry, nodes
  {
    && ListInv(h, headEntry, nodes, st)
    && Mirrors(h, nodes, calls, st.stack)
    && Inv(ProblemOf(model, h), CallRanks(h), partial, st, pos)
    && Cursor(h, nodes, st.Top().0, entry, pos)
  }

  /** The list is not empty, so the cursor is at a node. */
  lemma AtNode<S(!new), I(!new), O(!new)>(
      model: Model<S, I, O>, h: seq<Entry<I, O>>, partial: bool, headEntry: Node<I, O>, nodes: seq<Node<I, O>>,
      st: Snapshot<S>, pos: int, entry: Node?<I, O>, calls: seq<CallsEntry<S, I, O>>)
    requires Moment(model, h, partial, headEntry, nodes, st, pos, entry, calls)
    ensures headEntry.next != null ==> 0 <= pos < |h| && entry == nodes[pos] && CarriesAt(h, nodes, pos)
    ensures headEntry.next == null ==> Live(h, st.Top().0) == {-1}
  {
    assert Unsealed(SearchSeal);
    assert At(headEntry, nodes, -1) == headEntry;
    var live := Live(h, st.Top().0);
    var q := SuccessorOrLast(live, -1);
    if headEntry.next == null {
      assert q == -1;
      forall k | k in live ensures k == -1 {}
    }
  }

  lemma PassOver<S(!new), I(!new), O(!new)>(
      model: Model<S, I, O>, h: seq<Entry<I, O>>, partial: bool, nodes: seq<Node<I, O>>, st: Snapshot<S>, pos: int, entry: Node<I, O>)
    returns (q: int)
    requires CarriesAll(h, nodes) && Cursor(h, nodes, st.Top().0, entry, pos)
    requires Inv(ProblemOf(model, h), CallRanks(h), partial, st, pos)
    requires 0 <= pos < |h| && h[pos].Call?
    requires var p, b := ProblemOf(model, h), h[pos].id;
             Step(p, st.state, b).0 ==> Covered(p, st.seen, st.Top().0 + {b}, Step(p, st.state, b).1)
    ensures pos < q < |h| && Adjacent(Live(h, st.Top().0), pos, q)
    ensures Inv(ProblemOf(model, h), CallRanks(h), partial, st, q)
    ensures Cursor(h, nodes, st.Top().0, nodes[q], q)
  {
    var b := h[pos].id;
    CallIsEnabled(model, h, nodes, st.Top().0, entry, pos);
    q := SuccessorUpTo(Live(h, st.Top().0), pos, ReturnPos(h, b));
    NextCursor(h, st.Top().0, pos, q);
    SkipInv(ProblemOf(model, h), CallRanks(h), partial, st, pos, b, q);
  }

  /** Pass over a call. */
  method Advance<S(!new), I(!new), O(!new)>(
      ghost model: Model<S, I, O>, ghost h: seq<Entry<I, O>>, ghost partial: bool, ghost headEntry: Node<I, O>, ghost nodes: seq<Node<I, O>>,
      ghost st: Snapshot<S>, ghost pos: int, entry: Node<I, O>, ghost calls: seq<CallsEntry<S, I, O>>)
    returns (entry': Node?<I, O>, ghost pos': int)
    requires Moment(model, h, partial, headEntry, nodes, st, pos, entry, calls)
    requires 0 <= pos < |h| && h[pos].Call?
    requires var p, b := ProblemOf(model, h), h[pos].id;
             Step(p, st.state, b).0 ==> Covered(p, st.seen, st.Top().0 + {b}, Step(p, st.state, b).1)
    ensures Moment(model, h, partial, headEntry, nodes, st, pos', entry', calls)
    ensures pos < pos' <= |h|
  {
    assert Unsealed(SearchSeal);
    pos' := PassOver(model, h, partial, nodes, st, pos, entry);
    NextOf(h, headEntry, nodes, st, pos, pos');
    entry' := entry.next;
  }

  lemma NextOf<S, I, O>(h: seq<Entry<I, O>>, headEntry: Node<I, O>, nodes: seq<Node<I, O>>, st: Snapshot<S>, pos: int, q: int)
    requires ListInv(h, headEntry, nodes, st)
    requires 0 <= pos < q < |h| && Adjacent(Live(h, st.Top().0), pos, q)
    ensures nodes[pos].next == nodes[q]
  {
    assert At(headEntry, nodes, pos) == nodes[pos] && At(headEntry, nodes, q) == nodes[q];
  }

  lemma PushMirror<S(!new), I(!new), O(!new)>(
      p: Problem<S, I, O>, h: seq<Entry<I, O>>, nodes: seq<Node<I, O>>, st: Snapshot<S>, b: nat, entry: Node<I, O>,
      calls: seq<CallsEntry<S, I, O>>)
    requires CarriesAll(h, nodes) && Mirrors(h, nodes, calls, st.stack)
    requires b < |p.ops| == Count(h) && entry == nodes[CallPos(h, b)]
    ensures Mirrors(h, nodes, calls + [CallsEntry(entry, st.state)], Pushed(p, st, b).stack)
  {
  }

  /** Placing the call at the cursor enters a configuration not entered before. */
  lemma PlaceShrinks<S(!new), I(!new), O(!new)>(
      model: Model<S, I, O>, h: seq<Entry<I, O>>, partial: bool, headEntry: Node<I, O>, nodes: seq<Node<I, O>>,
      st: Snapshot<S>, pos: int, entry: Node<I, O>, calls: seq<CallsEntry<S, I, O>>)
    requires Coherent(model) && Moment(model, h, partial, headEntry, nodes, st, pos, entry, calls)
    requires 0 <= pos < |h| && h[pos].Call?
    requires var p, b := ProblemOf(model, h), h[pos].id;
             Step(p, st.state, b).0 && !Covered(p, st.seen, st.Top().0 + {b}, Step(p, st.state, b).1)
    ensures var p, b := ProblemOf(model, h), h[pos].id;
            Unseen(p, Pushed(p, st, b).seen) < Unseen(p, st.seen)
  {
    assert Unsealed(SearchSeal);
    var p, b := ProblemOf(model, h), h[pos].id;
    CallIsEnabled(model, h, nodes, st.Top().0, entry, pos);
    PushPath(p, st, b);
    PushShrinks(p, st, b);
  }

  /** Lift a call and start again from the front of the list. */
  method PlaceCall<S(!new), I(!new), O(!new)>(
      ghost model: Model<S, I, O>, ghost h: seq<Entry<I, O>>, ghost partial: bool, headEntry: Node<I, O>, ghost nodes: seq<Node<I, O>>,
      ghost st: Snapshot<S>, ghost pos: int, entry: Node<I, O>, calls: seq<CallsEntry<S, I, O>>, state: S)
    returns (entry': Node?<I, O>, calls': seq<CallsEntry<S, I, O>>, ghost pos': int)
    requires Coherent(model) && state == st.state
    requires Moment(model, h, partial, headEntry, nodes, st, pos, entry, calls)
    requires 0 <= pos < |h| && h[pos].Call?
    requires var p, b := ProblemOf(model, h), h[pos].id;
             Step(p, st.state, b).0 && !Covered(p, st.seen, st.Top().0 + {b}, Step(p, st.state, b).1)
    modifies headEntry, nodes
    ensures var p, b := ProblemOf(model, h), h[pos].id;
            && Moment(model, h, partial, headEntry, nodes, Pushed(p, st, b), pos', entry', calls')
            && Unseen(p, Pushed(p, st, b).seen) < Unseen(p, st.seen)
    ensures |calls'| == |calls| + 1
  {
    ghost var p, b := ProblemOf(model, h), h[pos].id;
    PlaceShrinks(model, h, partial, headEntry, nodes, st, pos, entry, calls);
    BeforePlacing(model, h, partial, headEntry, nodes, st, pos, entry, calls);
    calls' := calls + [CallsEntry(entry, state)];
    Place(entry, p, h, headEntry, nodes, st, b);
    pos' := AfterPlacing(model, h, partial, headEntry, nodes, st, pos, b, calls');
    entry' := headEntry.next;
  }

  ghost predicate SealedInv<S(!new), I(!new), O(!new)>(p: Problem<S, I, O>, rank: seq<nat>, partial: bool, st: Snapshot<S>, pos: int) {
    forall seal {:trigger Unsealed(seal)} :: seal == SearchSeal ==> Inv(p, rank, partial, st, pos)
  }

  lemma BeforePlacing<S(!new), I(!new), O(!new)>(
      model: Model<S, I, O>, h: seq<Entry<I, O>>, partial: bool, headEntry: Node<I, O>, nodes: seq<Node<I, O>>,
      st: Snapshot<S>, pos: int, entry: Node<I, O>, calls: seq<CallsEntry<S, I, O>>)
    requires Moment(model, h, partial, headEntry, nodes, st, pos, entry, calls)
    requires 0 <= pos < |h| && h[pos].Call?
    ensures var p, b := ProblemOf(model, h), h[pos].id;
            && ListInv(h, headEntry, nodes, st)
            && SealedInv(p, CallRanks(h), partial, st, pos)
            && Enabled(p, st.Top().0, b) && CallRanks(h)[b] == pos == CallPos(h, b) && entry == nodes[pos]
            && Mirrors(h, nodes, calls + [CallsEntry(entry, st.state)], Pushed(p, st, b).stack)
  {
    assert Unsealed(SearchSeal);
    CallIsEnabled(model, h, nodes, st.Top().0, entry, pos);
    PushMirror(ProblemOf(model, h), h, nodes, st, h[pos].id, entry, calls);
  }

  lemma AfterPlacing<S(!new), I(!new), O(!new)>(
      model: Model<S, I, O>, h: seq<Entry<I, O>>, partial: bool, headEntry: Node<I, O>, nodes: seq<Node<I, O>>,
      st: Snapshot<S>, pos: int, b: nat, calls: seq<CallsEntry<S, I, O>>)
    returns (pos': int)
    requires CarriesAll(h, nodes) && SealedInv(ProblemOf(model, h), CallRanks(h), partial, st, pos)
    requires var p := ProblemOf(model, h);
             && Enabled(p, st.Top().0, b) && CallRanks(h)[b] == pos && Step(p, st.state, b).0
             && ListInv(h, headEntry, nodes, Pushed(p, st, b))
             && Mirrors(h, nodes, calls, Pushed(p, st, b).stack)
    ensures Moment(model, h, partial, headEntry, nodes, Pushed(ProblemOf(model, h), st, b), pos', headEntry.next, calls)
  {
    var p := ProblemOf(model, h);
    PushedShape(p, st, b);
    pos' := HeadCursor(h, headEntry, nodes, Pushed(p, st, b).Top().0);
    PushSealed(p, CallRanks(h), partial, st, pos, b, pos');
    assert Unsealed(SearchSeal);
  }

  lemma PushSealed<S(!new), I(!new), O(!new)>(p: Problem<S, I, O>, rank: seq<nat>, partial: bool, st: Snapshot<S>, pos: int, b: nat, pos': int)
    requires |rank| == |p.ops| && SealedInv(p, rank, partial, st, pos)
    requires Enabled(p, st.Top().0, b) && rank[b] == pos && Step(p, st.state, b).0
    requires forall c: nat | c < |p.ops| && rank[c] < pos' :: c == b || c in st.Top().0
    ensures SealedInv(p, rank, partial, Pushed(p, st, b), pos')
  {
    assert Unsealed(SearchSeal);
    PushInv(p, rank, partial, st, pos, b, pos');
  }

  lemma PopMirror<S(!new), I(!new), O(!new)>(
      h: seq<Entry<I, O>>, nodes: seq<Node<I, O>>, st: Snapshot<S>, calls: seq<CallsEntry<S, I, O>>)
    requires CarriesAll(h, nodes) && Mirrors(h, nodes, calls, st.stack) && |calls| > 0
    ensures Mirrors(h, nodes, calls[..|calls| - 1], Popped(st).stack)
    ensures var top := calls[|calls| - 1];
            && top.state == Popped(st).state
            && st.stack[|calls| - 1].id < Count(h)
            && top.entry == nodes[CallPos(h, st.stack[|calls| - 1].id)]
            && top.entry.id == st.stack[|calls| - 1].id
  {
    var c := CallPos(h, st.stack[|calls| - 1].id);
    assert IsCall(h, c, st.stack[|calls| - 1].id) && CarriesAt(h, nodes, c);
  }

  lemma ResumeAt<S(!new), I(!new), O(!new)>(model: Model<S, I, O>, h: seq<Entry<I, O>>, nodes: seq<Node<I, O>>, st: Snapshot<S>)
    returns (q: int)
    requires WellFormed(h) && |nodes| == |h|
    requires PathValid(ProblemOf(model, h), st) && |st.stack| > 0
    ensures var b, done := st.stack[|st.stack| - 1].id, Popped(st).Top().0;
            && b < Count(h)
            && 0 <= CallPos(h, b) < q < |h|
            && Adjacent(Live(h, done), CallPos(h, b), q)
            && Cursor(h, nodes, done, nodes[q], q)
            && forall c: nat | c < Count(h) && CallRanks(h)[b] <= CallRanks(h)[c] < q :: c == b || c in done
  {
    var b, done := st.stack[|st.stack| - 1].id, Popped(st).Top().0;
    ResumeCursor(model, h, st);
    var c := CallPos(h, b);
    assert IsCall(h, c, b);
    q := SuccessorUpTo(Live(h, done), c, ReturnPos(h, b));
    NextCursor(h, done, c, q);
    CursorAfter(h, nodes, done, c, q);
  }

  lemma BackOver<S(!new), I(!new), O(!new)>(
      model: Model<S, I, O>, h: seq<Entry<I, O>>, partial: bool, nodes: seq<Node<I, O>>, st: Snapshot<S>, pos: int, entry: Node<I, O>)
    returns (q: int)
    requires model.equal(st.state, st.state) && CarriesAll(h, nodes) && Cursor(h, nodes, st.Top().0, entry, pos)
    requires Inv(ProblemOf(model, h), CallRanks(h), partial, st, pos)
    requires 0 <= pos < |h| && h[pos].Return? && |st.stack| > 0
    requires partial ==> Recorded(st.longest, st.Top().0)
    ensures var b, done := st.stack[|st.stack| - 1].id, Popped(st).Top().0;
            && b < Count(h)
            && 0 <= CallPos(h, b) < q < |h|
            && Adjacent(Live(h, done), CallPos(h, b), q)
            && Inv(ProblemOf(model, h), CallRanks(h), partial, Popped(st), q)
            && Cursor(h, nodes, done, nodes[q], q)
  {
    ReturnExhausts(model, h, nodes, st.Top().0, entry, pos);
    q := ResumeAt(model, h, nodes, st);
    PopInv(ProblemOf(model, h), CallRanks(h), partial, st, pos, q);
  }

  /** Put the last call placed back and go on behind it. */
  method Backtrack<S(!new), I(!new), O(!new)>(
      ghost model: Model<S, I, O>, ghost h: seq<Entry<I, O>>, ghost partial: bool, ghost headEntry: Node<I, O>, ghost nodes: seq<Node<I, O>>,
      ghost st: Snapshot<S>, ghost pos: int, ghost entry: Node<I, O>, calls: seq<CallsEntry<S, I, O>>)
    returns (entry': Node?<I, O>, calls': seq<CallsEntry<S, I, O>>, ghost pos': int)
    requires Coherent(model) && |calls| > 0
    requires Moment(model, h, partial, headEntry, nodes, st, pos, entry, calls)
    requires 0 <= pos < |h| && h[pos].Return?
    requires partial ==> Recorded(st.longest, st.Top().0)
    modifies headEntry, nodes
    ensures |st.stack| > 0
    ensures Moment(model, h, partial, headEntry, nodes, Popped(st), pos', entry', calls') && |calls'| < |calls|
  {
    assert Unsealed(SearchSeal);
    var top := calls[|calls| - 1];
    pos' := BackOver(model, h, partial, nodes, st, pos, entry);
    PopMirror(h, nodes, st, calls);
    ResumeCursor(model, h, st);
    calls' := calls[..|calls| - 1];
    TakeBack(top.entry, h, headEntry, nodes, st);
    NextOf(h, headEntry, nodes, Popped(st), CallPos(h, st.stack[|st.stack| - 1].id), pos');
    entry' := top.entry.next;
  }

  /** The record of longest prefixes is apart from stack and configurations. */
  lemma SameConfigs<S(!new)>(st: Snapshot<S>, longest': seq<Option<seq<nat>>>)
    ensures st.(longest := longest').Order() == st.Order() && st.(longest := longest').Top() == st.Top()
    ensures forall k | 0 <= k <= |st.stack| :: st.(longest := longest').Done(k) == st.Done(k)
  {
    assert st.(longest := longest').Order() == st.Order();
  }

  lemma SameRemembers<S(!new), I, O>(h: seq<Entry<I, O>>, head: Node<I, O>, nodes: seq<Node<I, O>>, st: Snapshot<S>, longest': seq<Option<seq<nat>>>)
    requires CarriesAll(h, nodes) && StackRemembers(h, head, nodes, st)
    ensures StackRemembers(h, head, nodes, st.(longest := longest'))
  {
    SameConfigs(st, longest');
  }

  lemma KeepMoment<S(!new), I(!new), O(!new)>(
      model: Model<S, I, O>, h: seq<Entry<I, O>>, partial: bool, headEntry: Node<I, O>, nodes: seq<Node<I, O>>,
      st: Snapshot<S>, pos: int, entry: Node<I, O>, calls: seq<CallsEntry<S, I, O>>, longest': seq<Option<seq<nat>>>)
    requires Moment(model, h, partial, headEntry, nodes, st, pos, entry, calls)
    requires Inv(ProblemOf(model, h), CallRanks(h), partial, st.(longest := longest'), pos)
    ensures Moment(model, h, partial, headEntry, nodes, st.(longest := longest'), pos, entry, calls)
    ensures st.(longest := longest').Top() == st.Top()
  {
    assert Unsealed(SearchSeal);
    SameConfigs(st, longest');
    SameRemembers(h, headEntry, nodes, st, longest');
  }

  lemma RecordedMoment<S(!new), I(!new), O(!new)>(
      model: Model<S, I, O>, h: seq<Entry<I, O>>, partial: bool, headEntry: Node<I, O>, nodes: seq<Node<I, O>>,
      st: Snapshot<S>, pos: int, entry: Node<I, O>, calls: seq<CallsEntry<S, I, O>>, longest': seq<Option<seq<nat>>>)
    requires Moment(model, h, partial, headEntry, nodes, st, pos, entry, calls)
    requires forall k | 0 <= k < |calls| :: 0 <= calls[k].entry.id < Count(h)
    requires |longest'| == |st.longest|
    requires forall i | 0 <= i < |longest'| ::
              longest'[i] == if i in Ids(calls) && (st.longest[i].None? || |calls| > |st.longest[i].value|)
                             then Some(Ids(calls)) else st.longest[i]
    ensures Inv(ProblemOf(model, h), CallRanks(h), partial, st.(longest := longest'), pos)
    ensures Recorded(longest', st.Top().0)
  {
    assert Unsealed(SearchSeal);
    MirrorIds(h, nodes, calls, st);
    RecordedTop(ProblemOf(model, h), CallRanks(h), partial, st, pos, longest');
  }

  lemma StackIds<S(!new), I(!new), O(!new)>(
      model: Model<S, I, O>, h: seq<Entry<I, O>>, partial: bool, headEntry: Node<I, O>, nodes: seq<Node<I, O>>,
      st: Snapshot<S>, pos: int, entry: Node<I, O>, calls: seq<CallsEntry<S, I, O>>)
    requires Moment(model, h, partial, headEntry, nodes, st, pos, entry, calls)
    ensures |st.longest| == Count(h) && forall k | 0 <= k < |calls| :: 0 <= calls[k].entry.id < Count(h)
  {
    assert Unsealed(SearchSeal);
    MirrorIds(h, nodes, calls, st);
  }

  /** Keep the stack before it is taken apart. */
  method Keep<S(!new), I(!new), O(!new)>(
      ghost model: Model<S, I, O>, ghost h: seq<Entry<I, O>>, partial: bool, ghost headEntry: Node<I, O>, ghost nodes: seq<Node<I, O>>,
      ghost st: Snapshot<S>, ghost pos: int, ghost entry: Node<I, O>, calls: seq<CallsEntry<S, I, O>>, longest: seq<Option<seq<nat>>>)
    returns (longest': seq<Option<seq<nat>>>)
    requires longest == st.longest
    requires Moment(model, h, partial, headEntry, nodes, st, pos, entry, calls)
    ensures Moment(model, h, partial, headEntry, nodes, st.(longest := longest'), pos, entry, calls)
    ensures partial ==> Recorded(longest', st.Top().0)
    ensures st.(longest := longest').Top() == st.Top() && (!partial ==> longest' == longest)
  {
    longest' := longest;
    if partial {
      StackIds(model, h, partial, headEntry, nodes, st, pos, entry, calls);
      longest' := RecordLongest(longest, calls);
      RecordedMoment(model, h, partial, headEntry, nodes, st, pos, entry, calls, longest');
      KeepMoment(model, h, partial, headEntry, nodes, st, pos, entry, calls, longest');
    }
  }

  /** A call that cannot be placed here: its step fails or leads where the search has been. */
  lemma StepOfEntry<S(!new), I(!new), O(!new)>(model: Model<S, I, O>, h: seq<Entry<I, O>>, nodes: seq<Node<I, O>>, pos: int, s: S)
    requires CarriesAll(h, nodes) && 0 <= pos < |h| && h[pos].Call?
    ensures nodes[pos].matching != null && nodes[pos].value.In? && nodes[pos].matching.value.Out?
    ensures 0 <= nodes[pos].id == h[pos].id < Count(h)
    ensures model.step(s, nodes[pos].value.input, nodes[pos].matching.value.output) == Step(ProblemOf(model, h), s, h[pos].id)
  {
    Positions(h, pos);
    var r := ReturnPos(h, h[pos].id);
    assert IsReturn(h, r, h[pos].id);
    assert CarriesAt(h, nodes, pos) && CarriesAt(h, nodes, r);
  }

  lemma Refuted<S(!new), I(!new), O(!new)>(
      model: Model<S, I, O>, h: seq<Entry<I, O>>, partial: bool, headEntry: Node<I, O>, nodes: seq<Node<I, O>>,
      st: Snapshot<S>, pos: int, entry: Node<I, O>, calls: seq<CallsEntry<S, I, O>>)
    requires Coherent(model)
    requires Moment(model, h, partial, headEntry, nodes, st, pos, entry, calls)
    requires 0 <= pos < |h| && h[pos].Return? && calls == []
    ensures |st.longest| == Count(h)
    ensures !Linearizable(ProblemOf(model, h))
    ensures partial ==> Maximal(ProblemOf(model, h), st.longest)
  {
    assert Unsealed(SearchSeal);
    assert st.Order() == [] && st.Top().0 == {};
    ReturnExhausts(model, h, nodes, st.Top().0, entry, pos);
    ExhaustedRefutes(ProblemOf(model, h), CallRanks(h), partial, st, pos);
    NoFullPartial(model, h);
  }

  /** When the list is empty, the stack is the answer. */
  lemma Accepted<S(!new), I(!new), O(!new)>(
      model: Model<S, I, O>, h: seq<Entry<I, O>>, partial: bool, headEntry: Node<I, O>, nodes: seq<Node<I, O>>,
      st: Snapshot<S>, pos: int, entry: Node?<I, O>, calls: seq<CallsEntry<S, I, O>>)
    requires Moment(model, h, partial, headEntry, nodes, st, pos, entry, calls)
    requires headEntry.next == null
    ensures forall k | 0 <= k < |calls| :: calls[k].entry.id >= 0
    ensures IsLinearization(ProblemOf(model, h), Ids(calls))
    ensures LongestValid(ProblemOf(model, h), seq(Count(h), _ => Some(Ids(calls))))
  {
    AtNode(model, h, partial, headEntry, nodes, st, pos, entry, calls);
    assert Unsealed(SearchSeal);
    EmptyListCompletes(model, h, st);
    MirrorIds(h, nodes, calls, st);
  }

  lemma KeptValid<S(!new), I(!new), O(!new)>(
      model: Model<S, I, O>, h: seq<Entry<I, O>>, partial: bool, headEntry: Node<I, O>, nodes: seq<Node<I, O>>,
      st: Snapshot<S>, pos: int, entry: Node?<I, O>, calls: seq<CallsEntry<S, I, O>>)
    requires Moment(model, h, partial, headEntry, nodes, st, pos, entry, calls)
    ensures LongestValid(ProblemOf(model, h), st.longest)
  {
    assert Unsealed(SearchSeal);
  }

  /** The list's nodes are not part of the cache. */
  ghost predicate Apart<S(!new), I, O>(headEntry: Node<I, O>, nodes: seq<Node<I, O>>, cache: Cache<S>)
    reads cache
  {
    forall o | o in cache.Repr :: o != headEntry && o !in nodes
  }

  /** Try the step of a call; if it is allowed and leads somewhere new, go there. */
  method Decide<S(!new), I(!new), O(!new)>(
      model: Model<S, I, O>, ghost h: seq<Entry<I, O>>, ghost nodes: seq<Node<I, O>>, linearized: array<Word>, cache: Cache<S>,
      ghost st: Snapshot<S>, ghost pos: int, entry: Node<I, O>, state: S)
    returns (entered: bool, newState: S)
    requires CarriesAll(h, nodes) && 0 <= pos < |h| && h[pos].Call? && entry == nodes[pos] && state == st.state
    requires SetInv(Count(h), linearized, cache, st)
    modifies linearized, cache
    ensures var p, b := ProblemOf(model, h), h[pos].id;
            && newState == Step(p, st.state, b).1
            && (entered <==> Step(p, st.state, b).0 && !Covered(p, st.seen, st.Top().0 + {b}, newState))
            && SetInv(Count(h), linearized, cache, if entered then Pushed(p, st, b) else st)
    ensures fresh(cache.Repr - old(cache.Repr))
  {
    StepOfEntry(model, h, nodes, pos, state);
    var matching := entry.matching;
    var next := model.step(state, entry.value.input, matching.value.output);
    entered, newState := false, next.1;
    if next.0 {
      entered := TryEnter(ProblemOf(model, h), model.equal, linearized, cache, st, entry.id, next.1);
    }
  }

  /** One turn of the search at a call: place it if its step is allowed and leads somewhere new. */
  method AtCall<S(!new), I(!new), O(!new)>(
      model: Model<S, I, O>, ghost h: seq<Entry<I, O>>, ghost partial: bool, headEntry: Node<I, O>, ghost nodes: seq<Node<I, O>>,
      linearized: array<Word>, cache: Cache<S>, ghost st: Snapshot<S>, ghost pos: int, entry: Node<I, O>,
      calls: seq<CallsEntry<S, I, O>>, state: S)
    returns (entry': Node?<I, O>, calls': seq<CallsEntry<S, I, O>>, state': S, ghost st': Snapshot<S>, ghost pos': int)
    requires Coherent(model) && state == st.state
    requires Moment(model, h, partial, headEntry, nodes, st, pos, entry, calls)
    requires SetInv(Count(h), linearized, cache, st) && Apart(headEntry, nodes, cache)
    requires 0 <= pos < |h| && h[pos].Call? && entry == nodes[pos]
    modifies headEntry, nodes, linearized, cache
    ensures Moment(model, h, partial, headEntry, nodes, st', pos', entry', calls') && state' == st'.state && st'.longest == st.longest
    ensures SetInv(Count(h), linearized, cache, st') && Apart(headEntry, nodes, cache) && fresh(cache.Repr - old(cache.Repr))
    ensures (st' == st && pos < pos' <= |h|) || Unseen(ProblemOf(model, h), st'.seen) < Unseen(ProblemOf(model, h), st.seen)
    ensures |calls'| <= |calls| + 1
  {
    var entered, newState := Decide(model, h, nodes, linearized, cache, st, pos, entry, state);
    if entered {
      st', state' := Pushed(ProblemOf(model, h), st, h[pos].id), newState;
      entry', calls', pos' := PlaceCall(model, h, partial, headEntry, nodes, st, pos, entry, calls, state);
    } else {
      st', state', calls' := st, state, calls;
      entry', pos' := Advance(model, h, partial, headEntry, nodes, st, pos, entry, calls);
    }
  }

  lemma TopOfStack<S(!new), I(!new), O(!new)>(
      model: Model<S, I, O>, h: seq<Entry<I, O>>, partial: bool, headEntry: Node<I, O>, nodes: seq<Node<I, O>>,
      st: Snapshot<S>, pos: int, entry: Node<I, O>, calls: seq<CallsEntry<S, I, O>>)
    requires Moment(model, h, partial, headEntry, nodes, st, pos, entry, calls) && |calls| > 0
    ensures |st.stack| == |calls|
    ensures var id := st.stack[|calls| - 1].id;
            && calls[|calls| - 1].entry.id == id < Count(h)
            && calls[|calls| - 1].state == Popped(st).state
            && id !in Popped(st).Top().0
  {
    assert Unsealed(SearchSeal);
    PopMirror(h, nodes, st, calls);
    ResumeCursor(model, h, st);
  }

  lemma SameSets<S(!new)>(n: nat, linearized: array<Word>, cache: Cache<S>, st: Snapshot<S>, longest': seq<Option<seq<nat>>>)
    requires SetInv(n, linearized, cache, st)
    ensures SetInv(n, linearized, cache, st.(longest := longest'))
  {
    assert Unsealed(SearchSeal);
    SameConfigs(st, longest');
  }

  /** One turn of the search at a return: the last call placed must be taken back. */
  method AtReturn<S(!new), I(!new), O(!new)>(
      ghost model: Model<S, I, O>, ghost h: seq<Entry<I, O>>, partial: bool, ghost headEntry: Node<I, O>, ghost nodes: seq<Node<I, O>>,
      n: nat, linearized: array<Word>, ghost cache: Cache<S>, ghost st: Snapshot<S>, ghost pos: int, ghost entry: Node<I, O>,
      calls: seq<CallsEntry<S, I, O>>, longest: seq<Option<seq<nat>>>)
    returns (entry': Node?<I, O>, calls': seq<CallsEntry<S, I, O>>, state': S, longest': seq<Option<seq<nat>>>, ghost st': Snapshot<S>, ghost pos': int)
    requires Coherent(model) && longest == st.longest && |calls| > 0 && n == Count(h)
    requires Moment(model, h, partial, headEntry, nodes, st, pos, entry, calls)
    requires SetInv(n, linearized, cache, st) && Apart(headEntry, nodes, cache)
    requires 0 <= pos < |h| && h[pos].Return?
    modifies headEntry, nodes, linearized
    ensures Moment(model, h, partial, headEntry, nodes, st', pos', entry', calls') && state' == st'.state && st'.longest == longest'
    ensures SetInv(n, linearized, cache, st') && Apart(headEntry, nodes, cache)
    ensures st'.seen == st.seen && |st'.stack| < |st.stack| && |calls'| < |calls| && (!partial ==> longest' == longest)
  {
    longest' := Keep(model, h, partial, headEntry, nodes, st, pos, entry, calls, longest);
    ghost var kept := st.(longest := longest');
    SameSets(n, linearized, cache, st, longest');
    var top := calls[|calls| - 1];
    TopOfStack(model, h, partial, headEntry, nodes, kept, pos, entry, calls);
    st', state' := Popped(kept), top.state;
    Leave(n, linearized, cache, kept, top.entry.id);
    entry', calls', pos' := Backtrack(model, h, partial, headEntry, nodes, kept, pos, entry, calls);
  }

  /** Before the first turn. */
  lemma StartMoment<S(!new), I(!new), O(!new)>(
      model: Model<S, I, O>, h: seq<Entry<I, O>>, partial: bool, headEntry: Node<I, O>, nodes: seq<Node<I, O>>,
      linearized: array<Word>, cache: Cache<S>, longest: seq<Option<seq<nat>>>)
    returns (pos: int)
    requires CarriesAll(h, nodes) && Separate(headEntry, nodes)
    requires InBounds(Live(h, {}), |nodes|) && Linked(headEntry, nodes, Live(h, {}))
    requires |longest| == Count(h) && forall i | 0 <= i < |longest| :: longest[i].None?
    requires cache.Valid() && cache.seen == [] && linearized !in cache.Repr && cache.words == linearized.Length
    requires Count(h) <= 64 * linearized.Length && Denote(linearized[..]) == {}
    ensures Moment(model, h, partial, headEntry, nodes, Snapshot([], model.init, [], longest), pos, headEntry.next, [])
    ensures SetInv(Count(h), linearized, cache, Snapshot([], model.init, [], longest))
  {
    assert Unsealed(SearchSeal);
    var st := Snapshot([], model.init, [], longest);
    assert st.Order() == [] && st.Top().0 == {};
    pos := HeadCursor(h, headEntry, nodes, {});
    InitInv(ProblemOf(model, h), CallRanks(h), partial, longest, pos);
  }

  method Start<S(!new), I(!new), O(!new)>(model: Model<S, I, O>, h: seq<Entry<I, O>>, ghost partial: bool)
    returns (entry: Node?<I, O>, headEntry: Node<I, O>, n: nat, linearized: array<Word>, cache: Cache<S>, longest: seq<Option<seq<nat>>>,
             ghost nodes: seq<Node<I, O>>, ghost st: Snapshot<S>, ghost pos: int)
    requires WellFormed(h)
    ensures n == Count(h) && st == Snapshot([], model.init, [], longest) && longest == seq(n, _ => None)
    ensures Moment(model, h, partial, headEntry, nodes, st, pos, entry, [])
    ensures SetInv(n, linearized, cache, st) && Apart(headEntry, nodes, cache)
    ensures fresh(headEntry) && fresh(nodes) && fresh(linearized) && fresh(cache) && fresh(cache.Repr)
  {
    entry, headEntry, n, nodes := BuildList(h);
    linearized := NewBitset(n);
    cache := new Cache<S>(linearized.Length);
    longest := seq(n, _ => None);
    st := Snapshot([], model.init, [], longest);
    pos := StartMoment(model, h, partial, headEntry, nodes, linearized, cache, longest);
  }

  /** One turn of the search at the cursor. `refuted` is that nothing is placed and nothing can
      be. */
  method Turn<S(!new), I(!new), O(!new)>(
      model: Model<S, I, O>, ghost h: seq<Entry<I, O>>, partial: bool, headEntry: Node<I, O>, ghost nodes: seq<Node<I, O>>,
      n: nat, linearized: array<Word>, cache: Cache<S>, ghost st: Snapshot<S>, ghost pos: int, entry: Node?<I, O>,
      calls: seq<CallsEntry<S, I, O>>, state: S, longest: seq<Option<seq<nat>>>)
    returns (refuted: bool, entry': Node?<I, O>, calls': seq<CallsEntry<S, I, O>>, state': S, longest': seq<Option<seq<nat>>>,
             ghost st': Snapshot<S>, ghost pos': int)
    requires Coherent(model) && state == st.state && longest == st.longest && n == Count(h) && headEntry.next != null
    requires Moment(model, h, partial, headEntry, nodes, st, pos, entry, calls)
    requires SetInv(n, linearized, cache, st) && Apart(headEntry, nodes, cache)
    modifies headEntry, nodes, linearized, cache
    ensures Moment(model, h, partial, headEntry, nodes, st', pos', entry', calls') && state' == st'.state && longest' == st'.longest
    ensures SetInv(n, linearized, cache, st') && Apart(headEntry, nodes, cache) && fresh(cache.Repr - old(cache.Repr))
    ensures refuted ==> longest' == longest && |longest| == Count(h) && !Linearizable(ProblemOf(model, h))
    ensures refuted && partial ==> Maximal(ProblemOf(model, h), longest)
    ensures !refuted ==> Nearer(model, h, st, pos, st', pos')
    ensures |calls'| <= |calls| + 1 && (!partial ==> longest' == longest)
  {
    AtNode(model, h, partial, headEntry, nodes, st, pos, entry, calls);
    refuted, entry', calls', state', longest', st', pos' := false, entry, calls, state, longest, st, pos;
    if entry.matching != null {
      entry', calls', state', st', pos' :=
        AtCall(model, h, partial, headEntry, nodes, linearized, cache, st, pos, entry, calls, state);
    } else if |calls| == 0 {
      Refuted(model, h, partial, headEntry, nodes, st, pos, entry, calls);
      refuted := true;
    } else {
      entry', calls', state', longest', st', pos' :=
        AtReturn(model, h, partial, headEntry, nodes, n, linearized, cache, st, pos, entry, calls, longest);
    }
  }

  /** Fewer configurations to enter, or a shorter stack, or a cursor further on. */
  ghost predicate Nearer<S(!new), I(!new), O(!new)>(
      model: Model<S, I, O>, h: seq<Entry<I, O>>, st: Snapshot<S>, pos: int, st': Snapshot<S>, pos': int)
    requires WellFormed(h)
  {
    || Unseen(ProblemOf(model, h), st'.seen) < Unseen(ProblemOf(model, h), st.seen)
    || (st'.seen == st.seen && |st'.stack| < |st.stack|)
    || (st' == st && pos < pos' <= |h|)
  }

  /** None of the first `loads` looks at the kill flag found it set. */
  ghost predicate Quiet(kill: nat -> bool, loads: nat) {
    forall t: nat | t < loads :: !kill(t)
  }

  /** The flag is never passed over: once a look finds it set, that look is the last, and the
      answer is false. */
  ghost predicate Stopped(kill: nat -> bool, loads: nat, ok: bool) {
    Quiet(kill, loads) || (!ok && loads > 0 && Quiet(kill, loads - 1) && kill(loads - 1))
  }

  /** Check one history. `kill(t)` is what the t-th look at the kill flag finds; `loads` is
      how many looks were taken, one at every turn: no fewer than the operations placed. */
  method CheckSingle<S(!new), I(!new), O(!new)>(model: Model<S, I, O>, h: seq<Entry<I, O>>, computePartial: bool, kill: nat -> bool)
    returns (ok: bool, longest: seq<Option<seq<nat>>>, ghost loads: nat)
    requires Coherent(model) && WellFormed(h)
    ensures LongestValid(ProblemOf(model, h), longest)
    ensures ok ==> exists order :: IsLinearization(ProblemOf(model, h), order) && |order| <= loads
                                   && forall i | 0 <= i < |longest| :: longest[i] == Some(order)
    ensures Stopped(kill, loads, ok)
    ensures !ok && !computePartial ==> forall i | 0 <= i < |longest| :: longest[i] == None
    ensures !ok && Quiet(kill, loads) ==> !Linearizable(ProblemOf(model, h))
    ensures !ok && Quiet(kill, loads) && computePartial ==> Maximal(ProblemOf(model, h), longest)
  {
    ghost var nodes, st, pos;
    var entry, headEntry, n, linearized, cache;
    entry, headEntry, n, linearized, cache, longest, nodes, st, pos := Start(model, h, computePartial);
    var calls: seq<CallsEntry<S, I, O>> := [];
    var state := model.init;
    var looks := 0;
    loads := 0;
    while headEntry.next != null
      invariant fresh(headEntry) && fresh(nodes) && fresh(linearized) && fresh(cache) && fresh(cache.Repr)
      invariant SetInv(n, linearized, cache, st) && Apart(headEntry, nodes, cache)
      invariant Moment(model, h, computePartial, headEntry, nodes, st, pos, entry, calls)
      invariant st.state == state && st.longest == longest
      invariant loads == looks && Quiet(kill, loads) && |calls| <= loads
      invariant !computePartial ==> forall i | 0 <= i < |longest| :: longest[i] == None
      decreases Unseen(ProblemOf(model, h), st.seen), |st.stack|, |h| - pos
    {
      KeptValid(model, h, computePartial, headEntry, nodes, st, pos, entry, calls);
      loads, looks := loads + 1, looks + 1;
      if kill(looks - 1) {
        return false, longest, loads;
      }
      var refuted;
      refuted, entry, calls, state, longest, st, pos :=
        Turn(model, h, computePartial, headEntry, nodes, n, linearized, cache, st, pos, entry, calls, state, longest);
      if refuted {
        return false, longest, loads;
      }
    }
    Accepted(model, h, computePartial, headEntry, nodes, st, pos, entry, calls);
    var order := Ids(calls);
    longest := seq(n, _ => Some(order));
    ok := true;
  }
}
