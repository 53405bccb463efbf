/** Histories as the checker sees them: call and return entries in time order. */
module Histories {
  import opened Linearizability

  datatype Entry<+I, +O> =
    | Call(id: nat, input: I, time: int, clientId: int)
    | Return(id: nat, output: O, time: int, clientId: int)

  ghost predicate IsCall<I, O>(h: seq<Entry<I, O>>, k: int, id: nat) {
    0 <= k < |h| && h[k].Call? && h[k].id == id
  }

  ghost predicate IsReturn<I, O>(h: seq<Entry<I, O>>, k: int, id: nat) {
    0 <= k < |h| && h[k].Return? && h[k].id == id
  }

  ghost predicate Complete<I, O>(h: seq<Entry<I, O>>, id: nat) {
    (exists c :: IsCall(h, c, id)) && (exists r :: IsReturn(h, r, id))
  }

  /** Operations are numbered `0..|h| / 2`; each has one call and, later, one return. */
  ghost predicate WellFormed<I, O>(h: seq<Entry<I, O>>) {
    && |h| % 2 == 0
    && (forall k | 0 <= k < |h| :: h[k].id < |h| / 2)
    && (forall j, k | 0 <= j < k < |h| && h[j].id == h[k].id :: h[j].Call? && h[k].Return?)
    && (forall id: nat | id < |h| / 2 :: Complete(h, id))
  }

  function Count<I, O>(h: seq<Entry<I, O>>): nat {
    |h| / 2
  }

  ghost function CallPos<I, O>(h: seq<Entry<I, O>>, id: nat): (c: int)
    requires WellFormed(h) && id < Count(h)
    ensures IsCall(h, c, id)
  {
    assert Complete(h, id);
    var c :| IsCall(h, c, id);
    c
  }

  ghost function ReturnPos<I, O>(h: seq<Entry<I, O>>, id: nat): (r: int)
    requires WellFormed(h) && id < Count(h)
    ensures IsReturn(h, r, id)
  {
    assert Complete(h, id);
    var r :| IsReturn(h, r, id);
    r
  }

  lemma Positions<I, O>(h: seq<Entry<I, O>>, k: int)
    requires WellFormed(h) && 0 <= k < |h|
    ensures k == if h[k].Call? then CallPos(h, h[k].id) else ReturnPos(h, h[k].id)
    ensures CallPos(h, h[k].id) < ReturnPos(h, h[k].id)
  {
    var id := h[k].id;
    var c, r := CallPos(h, id), ReturnPos(h, id);
    assert h[c].id == h[r].id == h[k].id;
  }

  /** The operations of a history and the real-time order its entries show. */
  ghost function ProblemOf<S, I, O>(m: Model<S, I, O>, h: seq<Entry<I, O>>): Problem<S, I, O>
    requires WellFormed(h)
  {
    var n := Count(h);
    Problem(m,
            seq(n, id requires 0 <= id < n => (h[CallPos(h, id)].input, h[ReturnPos(h, id)].output)),
            (a: nat, b: nat) => a < n && b < n && ReturnPos(h, a) < CallPos(h, b))
  }

  /** Where each operation is called. */
  ghost function CallRanks<I, O>(h: seq<Entry<I, O>>): (rank: seq<nat>)
    requires WellFormed(h)
    ensures |rank| == Count(h)
  {
    seq(Count(h), id requires 0 <= id < Count(h) => CallPos(h, id))
  }

  lemma BeforeIrreflexive<S, I, O>(m: Model<S, I, O>, h: seq<Entry<I, O>>)
    requires WellFormed(h)
    ensures forall a: nat :: !ProblemOf(m, h).before(a, a)
  {
    forall a: nat | a < Count(h) ensures CallPos(h, a) < ReturnPos(h, a) {
      Positions(h, CallPos(h, a));
    }
  }

  /** A completed operation as a client records it: invocation and response times. */
  datatype Operation<+I, +O> = Operation(clientId: int, input: I, call: int, output: O, ret: int)

  /** The operations as recorded; `a` is before `b` when it responded strictly earlier than
      `b` was invoked. */
  ghost function OperationsProblem<S, I, O>(m: Model<S, I, O>, ops: seq<Operation<I, O>>): Problem<S, I, O> {
    Problem(m,
            seq(|ops|, i requires 0 <= i < |ops| => (ops[i].input, ops[i].output)),
            (a: nat, b: nat) => a < |ops| && b < |ops| && ops[a].ret < ops[b].call)
  }
}
