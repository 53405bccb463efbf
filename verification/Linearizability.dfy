/** What the checker decides: a history of overlapping operations is linearizable when
    its operations can be put in one order that is legal for a sequential model and that
    never swaps two operations one of which returned before the other was called. */
module Linearizability {
  import opened Collections

  /** A sequential specification: an initial state, a partial step function (the first
      component says whether the step is allowed) and an equality on states. */
  datatype Model<!S, !I, !O> = Model(init: S, step: (S, I, O) -> (bool, S), equal: (S, S) -> bool)

  /** The obligations a model takes on by supplying its own equality: states it calls equal
      allow the same steps and lead to equal states. */
  ghost predicate Coherent<S(!new), I(!new), O(!new)>(m: Model<S, I, O>) {
    && (forall s :: m.equal(s, s))
    && (forall s, t, u :: m.equal(s, t) && m.equal(t, u) ==> m.equal(s, u))
    && (forall s, t, i, o :: m.equal(s, t) ==>
                               && m.step(s, i, o).0 == m.step(t, i, o).0
                               && (m.step(s, i, o).0 ==> m.equal(m.step(s, i, o).1, m.step(t, i, o).1)))
  }

  /** Operations `0..|ops|`, each with its input and output, and the real-time order
      between them: `before(a, b)` when `a` returned before `b` was called. */
  datatype Problem<!S, !I, !O> = Problem(model: Model<S, I, O>, ops: seq<(I, O)>, before: (nat, nat) -> bool)

  predicate InRange(n: nat, order: seq<nat>) {
    forall j | 0 <= j < |order| :: order[j] < n
  }

  function Step<S, I, O>(p: Problem<S, I, O>, s: S, id: nat): (bool, S)
    requires id < |p.ops|
  {
    p.model.step(s, p.ops[id].0, p.ops[id].1)
  }

  /** The state reached by performing `order` from the initial state, if every step is allowed. */
  function Run<S, I, O>(p: Problem<S, I, O>, order: seq<nat>): Option<S>
    requires InRange(|p.ops|, order)
  {
    if order == [] then
      Some(p.model.init)
    else
      match Run(p, order[..|order| - 1])
      case None => None
      case Some(s) =>
        var next := Step(p, s, order[|order| - 1]);
        if next.0 then Some(next.1) else None
  }

  /** A complete linearization: every operation exactly once, legal, in real-time order. */
  ghost predicate IsLinearization<S, I, O>(p: Problem<S, I, O>, order: seq<nat>) {
    && InRange(|p.ops|, order)
    && Distinct(order)
    && (forall id | 0 <= id < |p.ops| :: id in order)
    && (forall i, j | 0 <= i < |order| && 0 <= j < |order| && p.before(order[i], order[j]) :: i < j)
    && Run(p, order).Some?
  }

  ghost predicate Linearizable<S, I, O>(p: Problem<S, I, O>) {
    exists order :: IsLinearization(p, order)
  }

  /** Everything that returned before `b` was called is in `done`. */
  ghost predicate Ready<S, I, O>(p: Problem<S, I, O>, done: seq<nat>, b: nat) {
    forall a: nat | a < |p.ops| && p.before(a, b) :: a in done
  }

  /** A partial linearization: some operations, legal, and with each one also, earlier,
      everything that really happened before it. */
  ghost predicate IsPartial<S, I, O>(p: Problem<S, I, O>, order: seq<nat>) {
    && InRange(|p.ops|, order)
    && Distinct(order)
    && (forall j | 0 <= j < |order| :: Ready(p, order[..j], order[j]))
    && Run(p, order).Some?
  }

  function IdSet(order: seq<nat>): set<nat> {
    set id | id in order
  }

  function AllIds(n: nat): (all: set<nat>)
    ensures forall id :: id in all <==> 0 <= id < n
    ensures |all| == n
  {
    if n == 0 then {} else AllIds(n - 1) + {n - 1}
  }

  lemma {:induction false} DistinctCount(order: seq<nat>)
    requires Distinct(order)
    ensures |IdSet(order)| == |order|
  {
    if order != [] {
      var front := order[..|order| - 1];
      DistinctCount(front);
      assert IdSet(order) == IdSet(front) + {order[|order| - 1]};
    }
  }

  /** A partial linearization of full length leaves nothing out. */
  lemma FullMeansAll(n: nat, order: seq<nat>)
    requires InRange(n, order) && Distinct(order) && |order| == n
    ensures IdSet(order) == AllIds(n)
    ensures forall id | 0 <= id < n :: id in order
  {
    DistinctCount(order);
    SubsetOfSameSize(IdSet(order), AllIds(n));
    forall id: nat | id < n ensures id in order {
      assert id in AllIds(n);
    }
  }

  /** A subset that is not smaller is all. */
  lemma SubsetOfSameSize<T>(a: set<T>, b: set<T>)
    requires a <= b && |a| >= |b|
    ensures a == b
  {
    assert b == a + (b - a);
  }

  /** The textbook form and the incremental form of linearizability agree on complete orders. */
  lemma LinearizationIffFullPartial<S, I, O>(p: Problem<S, I, O>, order: seq<nat>)
    requires forall a: nat :: !p.before(a, a)
    ensures IsLinearization(p, order) <==> IsPartial(p, order) && |order| == |p.ops|
  {
    if IsLinearization(p, order) {
      forall j, a: nat | 0 <= j < |order| && a < |p.ops| && p.before(a, order[j])
        ensures a in order[..j]
      {
        assert a in order;
        var i :| 0 <= i < |order| && order[i] == a;
        assert i < j;
        assert order[..j][i] == a;
      }
      AllCount(|p.ops|, order);
    }
    if IsPartial(p, order) && |order| == |p.ops| {
      FullMeansAll(|p.ops|, order);
      forall i, j | 0 <= i < |order| && 0 <= j < |order| && p.before(order[i], order[j])
        ensures i < j
      {
        assert Ready(p, order[..j], order[j]);
        var k :| 0 <= k < j && order[..j][k] == order[i];
        assert order[k] == order[i];
      }
    }
  }

  lemma AllCount(n: nat, order: seq<nat>)
    requires InRange(n, order) && Distinct(order) && forall id | 0 <= id < n :: id in order
    ensures |order| == n
  {
    DistinctCount(order);
    assert IdSet(order) == AllIds(n);
  }

  /** Reading a problem off another description of the same operations changes nothing. */
  ghost predicate SameProblem<S, I, O>(p: Problem<S, I, O>, q: Problem<S, I, O>) {
    && p.model == q.model
    && p.ops == q.ops
    && forall a: nat, b: nat | a < |p.ops| && b < |p.ops| :: p.before(a, b) == q.before(a, b)
  }

  lemma {:induction false} SameRun<S, I, O>(p: Problem<S, I, O>, q: Problem<S, I, O>, order: seq<nat>)
    requires p.model == q.model && p.ops == q.ops
    requires InRange(|p.ops|, order)
    ensures Run(p, order) == Run(q, order)
  {
    if order != [] {
      SameRun(p, q, order[..|order| - 1]);
    }
  }

  lemma SameLinearizations<S, I, O>(p: Problem<S, I, O>, q: Problem<S, I, O>)
    requires SameProblem(p, q)
    ensures forall order :: IsLinearization(p, order) <==> IsLinearization(q, order)
    ensures Linearizable(p) <==> Linearizable(q)
  {
    forall order ensures IsLinearization(p, order) <==> IsLinearization(q, order) {
      if InRange(|p.ops|, order) { SameRun(p, q, order); }
    }
  }
}
