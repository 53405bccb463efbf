/** Locality: a history of the whole store is linearizable exactly when the operations on
    each key, taken alone, are. */
module Locality {
  import opened Collections
  import opened Linearizability
  import opened Histories
  import opened KvStore

  /** `order` linearizes just the operations in `ids`. */
  ghost predicate LinearizationOn<S, I, O>(p: Problem<S, I, O>, ids: set<nat>, order: seq<nat>) {
    && InRange(|p.ops|, order)
    && Distinct(order)
    && (forall id :: id in order <==> id in ids)
    && (forall i, j | 0 <= i < |order| && 0 <= j < |order| && p.before(order[i], order[j]) :: i < j)
    && Run(p, order).Some?
  }

  // ----- an operation's number in its group and in the whole history

  /** The positions of a key's operations in the history. */
  ghost function Indices(history: seq<KvOperation>, key: string): seq<nat> {
    if history == [] then []
    else
      var n := |history| - 1;
      if history[n].input.key == key then Indices(history[..n], key) + [n] else Indices(history[..n], key)
  }

  lemma {:induction false} IndicesOfGroup(history: seq<KvOperation>, key: string)
    ensures var f, g := Indices(history, key), Group(history, key);
            && |f| == |g|
            && (forall l | 0 <= l < |f| :: f[l] < |history| && g[l] == history[f[l]] && history[f[l]].input.key == key)
            && Distinct(f)
            && (forall i: nat | i < |history| && history[i].input.key == key :: i in f)
  {
    if history != [] {
      var n := |history| - 1;
      var front := history[..n];
      IndicesOfGroup(front, key);
      var f, f' := Indices(history, key), Indices(front, key);
      forall i: nat | i < |history| && history[i].input.key == key ensures i in f {
        if i < n {
          assert front[i] == history[i];
          assert i in f';
        }
      }
    }
  }

  ghost function KeyIds(history: seq<KvOperation>, key: string): set<nat> {
    set i: nat | i < |history| && history[i].input.key == key
  }

  ghost function Renamed(f: seq<nat>, order: seq<nat>): seq<nat>
    requires InRange(|f|, order)
  {
    seq(|order|, j requires 0 <= j < |order| => f[order[j]])
  }

  lemma {:induction false} RunRenamed<S, I, O>(p: Problem<S, I, O>, q: Problem<S, I, O>, f: seq<nat>, order: seq<nat>)
    requires p.model == q.model && |f| == |p.ops| && InRange(|p.ops|, order)
    requires forall l | 0 <= l < |f| :: f[l] < |q.ops| && p.ops[l] == q.ops[f[l]]
    ensures InRange(|q.ops|, Renamed(f, order))
    ensures Run(p, order) == Run(q, Renamed(f, order))
  {
    if order != [] {
      var front := order[..|order| - 1];
      RunRenamed(p, q, f, front);
      assert Renamed(f, order)[..|order| - 1] == Renamed(f, front);
    }
  }

  ghost predicate Embeds<S, I, O>(p: Problem<S, I, O>, q: Problem<S, I, O>, f: seq<nat>) {
    && p.model == q.model
    && |f| == |p.ops|
    && Distinct(f)
    && (forall l | 0 <= l < |f| :: f[l] < |q.ops| && p.ops[l] == q.ops[f[l]])
    && (forall a: nat, b: nat | a < |f| && b < |f| :: p.before(a, b) == q.before(f[a], f[b]))
  }

  lemma LinearizationOut<S, I, O>(p: Problem<S, I, O>, q: Problem<S, I, O>, f: seq<nat>, order: seq<nat>)
    requires Embeds(p, q, f) && IsLinearization(p, order)
    ensures LinearizationOn(q, IdSet(f), Renamed(f, order))
  {
    RunRenamed(p, q, f, order);
    var out := Renamed(f, order);
    forall id ensures id in out <==> id in IdSet(f) {
      if id in f {
        var l :| 0 <= l < |f| && f[l] == id;
        assert l in order;
        var j :| 0 <= j < |order| && order[j] == l;
        assert out[j] == id;
      }
    }
    forall i, j | 0 <= i < |out| && 0 <= j < |out| && q.before(out[i], out[j]) ensures i < j {
      assert p.before(order[i], order[j]);
    }
  }

  ghost function PlaceOf(f: seq<nat>, id: nat): (l: nat)
    requires id in f
    ensures l < |f| && f[l] == id
  {
    var l :| 0 <= l < |f| && f[l] == id;
    l
  }

  ghost function Inner(f: seq<nat>, order: seq<nat>): (inner: seq<nat>)
    requires forall j | 0 <= j < |order| :: order[j] in f
    ensures InRange(|f|, inner) && Renamed(f, inner) == order
  {
    seq(|order|, j requires 0 <= j < |order| => PlaceOf(f, order[j]))
  }

  lemma InnerCovers(f: seq<nat>, order: seq<nat>)
    requires Distinct(f) && Distinct(order) && forall id: nat :: id in order <==> id in f
    ensures Distinct(Inner(f, order)) && forall l | 0 <= l < |f| :: l in Inner(f, order)
  {
    var inner := Inner(f, order);
    assert forall j | 0 <= j < |order| :: Renamed(f, inner)[j] == order[j];
    forall l | 0 <= l < |f| ensures l in inner {
      assert f[l] in order;
      var j :| 0 <= j < |order| && order[j] == f[l];
      assert inner[j] == l;
    }
    forall i, j | 0 <= i < j < |inner| ensures inner[i] != inner[j] {
      assert order[i] != order[j];
    }
  }

  lemma LinearizationIn<S, I, O>(p: Problem<S, I, O>, q: Problem<S, I, O>, f: seq<nat>, order: seq<nat>)
    requires Embeds(p, q, f) && LinearizationOn(q, IdSet(f), order)
    ensures Linearizable(p)
  {
    assert forall id: nat :: id in order <==> id in f;
    var inner := Inner(f, order);
    InnerCovers(f, order);
    RunRenamed(p, q, f, inner);
    forall i, j | 0 <= i < |inner| && 0 <= j < |inner| && p.before(inner[i], inner[j]) ensures i < j {
      assert Renamed(f, inner)[i] == order[i] && Renamed(f, inner)[j] == order[j];
      assert q.before(order[i], order[j]);
    }
    assert IsLinearization(p, inner);
  }

  lemma GroupEmbeds(history: seq<KvOperation>, key: string)
    ensures Embeds(OperationsProblem(KvModel, Group(history, key)), OperationsProblem(KvModel, history), Indices(history, key))
    ensures IdSet(Indices(history, key)) == KeyIds(history, key)
  {
    IndicesOfGroup(history, key);
  }

  /** A key's group is linearizable when its operations, numbered as in the whole history, are. */
  lemma GroupLinearizable(history: seq<KvOperation>, key: string)
    ensures Linearizable(OperationsProblem(KvModel, Group(history, key))) <==>
            exists order :: LinearizationOn(OperationsProblem(KvModel, history), KeyIds(history, key), order)
  {
    GroupEmbeds(history, key);
    var p, q, f := OperationsProblem(KvModel, Group(history, key)), OperationsProblem(KvModel, history), Indices(history, key);
    if Linearizable(p) {
      var order :| IsLinearization(p, order);
      LinearizationOut(p, q, f, order);
    }
    if order :| LinearizationOn(q, KeyIds(history, key), order) {
      LinearizationIn(p, q, f, order);
    }
  }

  // ----- an order of the whole store and its projections

  ghost function KeyOf(history: seq<KvOperation>, id: nat): string
    requires id < |history|
  {
    history[id].input.key
  }

  /** The operations of `order` on one key, in the same order. */
  ghost function Project(history: seq<KvOperation>, order: seq<nat>, key: string): (projected: seq<nat>)
    requires InRange(|history|, order)
    ensures InRange(|history|, projected)
  {
    if order == [] then []
    else
      var rest := Project(history, order[1..], key);
      if KeyOf(history, order[0]) == key then [order[0]] + rest else rest
  }

  lemma {:induction false} ProjectConcat(history: seq<KvOperation>, a: seq<nat>, b: seq<nat>, key: string)
    requires InRange(|history|, a) && InRange(|history|, b)
    ensures Project(history, a + b, key) == Project(history, a, key) + Project(history, b, key)
  {
    if a == [] {
      assert a + b == b;
    } else {
      assert (a + b)[1..] == a[1..] + b;
      ProjectConcat(history, a[1..], b, key);
    }
  }

  lemma ProjectLast(history: seq<KvOperation>, order: seq<nat>, key: string)
    requires InRange(|history|, order) && order != []
    ensures var front, last := order[..|order| - 1], order[|order| - 1];
            Project(history, order, key) ==
            if KeyOf(history, last) == key then Project(history, front, key) + [last] else Project(history, front, key)
  {
    var front, last := order[..|order| - 1], order[|order| - 1];
    assert order == front + [last];
    ProjectConcat(history, front, [last], key);
    assert [last][1..] == [];
  }

  lemma RunSnoc<S, I, O>(p: Problem<S, I, O>, front: seq<nat>, last: nat)
    requires InRange(|p.ops|, front) && last < |p.ops|
    ensures Run(p, front + [last]) ==
            match Run(p, front)
            case None => None
            case Some(s) => if Step(p, s, last).0 then Some(Step(p, s, last).1) else None
  {
    var order := front + [last];
    assert order[..|order| - 1] == front;
  }

  /** The store allows an order exactly when every key allows its part of it, and then holds
      for each key what that key alone would. */
  ghost predicate RunsByKey(history: seq<KvOperation>, order: seq<nat>)
    requires InRange(|history|, order)
  {
    var store := Run(OperationsProblem(StoreModel, history), order);
    var one := OperationsProblem(KvModel, history);
    && (store.Some? ==> forall key :: Run(one, Project(history, order, key)) == Some(Lookup(store.value, key)))
    && (store.None? ==> exists key :: Run(one, Project(history, order, key)).None?)
  }

  lemma {:induction false} StoreRun(history: seq<KvOperation>, order: seq<nat>)
    requires InRange(|history|, order)
    ensures RunsByKey(history, order)
  {
    if order != [] {
      StoreRun(history, order[..|order| - 1]);
      if Run(OperationsProblem(StoreModel, history), order[..|order| - 1]).None? {
        StaysLost(history, order);
      } else {
        StoreStepRuns(history, order);
      }
    }
  }

  /** A key on which the order already failed still fails. */
  lemma StaysLost(history: seq<KvOperation>, order: seq<nat>)
    requires InRange(|history|, order) && order != [] && RunsByKey(history, order[..|order| - 1])
    requires Run(OperationsProblem(StoreModel, history), order[..|order| - 1]).None?
    ensures RunsByKey(history, order)
  {
    var one := OperationsProblem(KvModel, history);
    var front, last := order[..|order| - 1], order[|order| - 1];
    var lost :| Run(one, Project(history, front, lost)).None?;
    ProjectLast(history, order, lost);
    if KeyOf(history, last) == lost { RunSnoc(one, Project(history, front, lost), last); }
    assert Run(one, Project(history, order, lost)).None?;
  }

  /** A step of the store is a step of its key; other keys stay as they are. */
  lemma StoreStepByKey(store: map<string, string>, inp: KvInput, out: KvOutput, key: string)
    ensures StoreStep(store, inp, out).0 == KvStep(Lookup(store, inp.key), inp, out).0
    ensures Lookup(StoreStep(store, inp, out).1, key) ==
            if key == inp.key then KvStep(Lookup(store, key), inp, out).1 else Lookup(store, key)
  {
  }

  lemma StepsAgree(history: seq<KvOperation>, id: nat, store: map<string, string>, key: string)
    requires id < |history|
    ensures var whole := Step(OperationsProblem(StoreModel, history), store, id);
            var one := Step(OperationsProblem(KvModel, history), Lookup(store, key), id);
            if KeyOf(history, id) == key then whole.0 == one.0 && Lookup(whole.1, key) == one.1
            else Lookup(whole.1, key) == Lookup(store, key)
  {
    StoreStepByKey(store, history[id].input, history[id].output, key);
  }

  lemma KeyAfterStep(history: seq<KvOperation>, order: seq<nat>, key: string)
    requires InRange(|history|, order) && order != []
    requires Run(OperationsProblem(StoreModel, history), order[..|order| - 1]).Some?
    requires var store := Run(OperationsProblem(StoreModel, history), order[..|order| - 1]).value;
             Run(OperationsProblem(KvModel, history), Project(history, order[..|order| - 1], key)) == Some(Lookup(store, key))
    ensures var after := Run(OperationsProblem(StoreModel, history), order);
            var one := Run(OperationsProblem(KvModel, history), Project(history, order, key));
            && (after.Some? ==> one == Some(Lookup(after.value, key)))
            && (after.None? && KeyOf(history, order[|order| - 1]) == key ==> one.None?)
  {
    var front, last := order[..|order| - 1], order[|order| - 1];
    StepsAgree(history, last, Run(OperationsProblem(StoreModel, history), front).value, key);
    ProjectLast(history, order, key);
    if KeyOf(history, last) == key {
      RunSnoc(OperationsProblem(KvModel, history), Project(history, front, key), last);
    }
  }

  /** One more operation on the store is one more on its key, and none on the others. */
  lemma StoreStepRuns(history: seq<KvOperation>, order: seq<nat>)
    requires InRange(|history|, order) && order != [] && RunsByKey(history, order[..|order| - 1])
    requires Run(OperationsProblem(StoreModel, history), order[..|order| - 1]).Some?
    ensures RunsByKey(history, order)
  {
    var store := Run(OperationsProblem(StoreModel, history), order);
    if store.Some? {
      forall key ensures Run(OperationsProblem(KvModel, history), Project(history, order, key)) == Some(Lookup(store.value, key)) {
        KeyAfterStep(history, order, key);
      }
    } else {
      KeyAfterStep(history, order, KeyOf(history, order[|order| - 1]));
    }
  }

  lemma {:induction false} ProjectMembers(history: seq<KvOperation>, order: seq<nat>, key: string)
    requires InRange(|history|, order)
    ensures forall id :: id in Project(history, order, key) <==> id in order && KeyOf(history, id) == key
  {
    if order != [] {
      ProjectMembers(history, order[1..], key);
      assert forall id :: id in order <==> id == order[0] || id in order[1..];
    }
  }

  /** Projecting keeps operations apart and in order. */
  lemma {:induction false} ProjectKeepsOrder(history: seq<KvOperation>, order: seq<nat>, key: string)
    requires InRange(|history|, order) && Distinct(order)
    requires forall i, j | 0 <= i < |order| && 0 <= j < |order| && Before(history, order[i], order[j]) :: i < j
    ensures var one := Project(history, order, key);
            && Distinct(one)
            && forall i, j | 0 <= i < |one| && 0 <= j < |one| && Before(history, one[i], one[j]) :: i < j
  {
    if order != [] {
      var head, tail := order[0], order[1..];
      var rest := Project(history, tail, key);
      forall i, j | 0 <= i < |tail| && 0 <= j < |tail| && Before(history, tail[i], tail[j]) ensures i < j {
        assert order[i + 1] == tail[i] && order[j + 1] == tail[j];
      }
      ProjectKeepsOrder(history, tail, key);
      ProjectMembers(history, tail, key);
      forall k | 0 <= k < |rest| ensures rest[k] != head && !Before(history, rest[k], head) {
        assert rest[k] in tail;
        var m :| 0 <= m < |tail| && tail[m] == rest[k];
        assert order[m + 1] == rest[k];
      }
      assert !Before(history, head, head);
    }
  }

  ghost predicate Before(history: seq<KvOperation>, a: nat, b: nat)
    requires a < |history| && b < |history|
  {
    history[a].ret < history[b].call
  }

  /** From the whole store to one key. */
  lemma ProjectLinearization(history: seq<KvOperation>, order: seq<nat>, key: string)
    requires IsLinearization(OperationsProblem(StoreModel, history), order)
    ensures LinearizationOn(OperationsProblem(KvModel, history), KeyIds(history, key), Project(history, order, key))
  {
    var whole := OperationsProblem(StoreModel, history);
    StoreRun(history, order);
    ProjectMembers(history, order, key);
    forall i, j | 0 <= i < |order| && 0 <= j < |order| && Before(history, order[i], order[j]) ensures i < j {
      assert whole.before(order[i], order[j]);
    }
    ProjectKeepsOrder(history, order, key);
  }

  // ----- from all keys to the whole store: linearization points

  /** An operation and a moment, between its call and its return, at which it takes effect. */
  datatype Timed = Timed(id: nat, at: int)

  ghost function TimedIds(t: seq<Timed>): (ids: seq<nat>)
    ensures |ids| == |t|
  {
    seq(|t|, j requires 0 <= j < |t| => t[j].id)
  }

  ghost predicate Within(history: seq<KvOperation>, t: seq<Timed>) {
    forall j | 0 <= j < |t| ::
      t[j].id < |history| && history[t[j].id].call <= t[j].at <= history[t[j].id].ret
  }

  ghost predicate Rising(t: seq<Timed>) {
    forall i, j | 0 <= i < j < |t| :: t[i].at <= t[j].at
  }

  /** The latest call among the first `j + 1` operations. */
  ghost function LatestCall(history: seq<KvOperation>, order: seq<nat>, j: nat): int
    requires InRange(|history|, order) && j < |order|
  {
    var call := history[order[j]].call;
    if j == 0 then call else
      var earlier := LatestCall(history, order, j - 1);
      if earlier < call then call else earlier
  }

  lemma {:induction false} LatestCallFrom(history: seq<KvOperation>, order: seq<nat>, j: nat) returns (i: nat)
    requires InRange(|history|, order) && j < |order|
    ensures i <= j && LatestCall(history, order, j) == history[order[i]].call
  {
    if j == 0 || LatestCall(history, order, j) == history[order[j]].call {
      i := j;
    } else {
      i := LatestCallFrom(history, order, j - 1);
    }
  }

  lemma {:induction false} LatestCallRises(history: seq<KvOperation>, order: seq<nat>, i: nat, j: nat)
    requires InRange(|history|, order) && i <= j < |order|
    ensures LatestCall(history, order, i) <= LatestCall(history, order, j)
  {
    if i < j {
      LatestCallRises(history, order, i, j - 1);
    }
  }

  /** Every linearization of a key has linearization points in rising order. */
  lemma Points(history: seq<KvOperation>, ids: set<nat>, order: seq<nat>) returns (t: seq<Timed>)
    requires LinearizationOn(OperationsProblem(KvModel, history), ids, order)
    ensures TimedIds(t) == order && Within(history, t) && Rising(t)
  {
    var one := OperationsProblem(KvModel, history);
    t := seq(|order|, j requires 0 <= j < |order| => Timed(order[j], LatestCall(history, order, j)));
    forall j | 0 <= j < |t| ensures history[order[j]].call <= t[j].at <= history[order[j]].ret {
      var i := LatestCallFrom(history, order, j);
      assert !one.before(order[j], order[i]);
    }
    forall i, j | 0 <= i < j < |t| ensures t[i].at <= t[j].at {
      LatestCallRises(history, order, i, j);
    }
  }

  /** Interleave two timed orders by their points. */
  ghost function Merge(a: seq<Timed>, b: seq<Timed>): seq<Timed> {
    if a == [] then b
    else if b == [] then a
    else if a[0].at <= b[0].at then [a[0]] + Merge(a[1..], b)
    else [b[0]] + Merge(a, b[1..])
  }

  lemma {:induction false} MergeMembers(a: seq<Timed>, b: seq<Timed>)
    ensures forall x :: x in Merge(a, b) <==> x in a || x in b
    ensures |Merge(a, b)| == |a| + |b|
  {
    if a != [] && b != [] {
      if a[0].at <= b[0].at {
        MergeMembers(a[1..], b);
        assert forall x :: x in a <==> x == a[0] || x in a[1..];
      } else {
        MergeMembers(a, b[1..]);
        assert forall x :: x in b <==> x == b[0] || x in b[1..];
      }
    }
  }

  lemma {:induction false} MergeRising(a: seq<Timed>, b: seq<Timed>)
    requires Rising(a) && Rising(b)
    ensures Rising(Merge(a, b))
  {
    if a != [] && b != [] {
      if a[0].at <= b[0].at {
        MergeRising(a[1..], b);
        MergeMembers(a[1..], b);
        RisingCons(a[0], Merge(a[1..], b));
      } else {
        MergeRising(a, b[1..]);
        MergeMembers(a, b[1..]);
        RisingCons(b[0], Merge(a, b[1..]));
      }
    }
  }

  lemma RisingCons(x: Timed, t: seq<Timed>)
    requires Rising(t) && forall y | y in t :: x.at <= y.at
    ensures Rising([x] + t)
  {
  }

  lemma {:induction false} MergeDistinct(a: seq<Timed>, b: seq<Timed>)
    requires Distinct(TimedIds(a)) && Distinct(TimedIds(b))
    requires forall x, y | x in a && y in b :: x.id != y.id
    ensures Distinct(TimedIds(Merge(a, b)))
  {
    if a != [] && b != [] {
      if a[0].at <= b[0].at {
        var rest := a[1..];
        assert TimedIds(rest) == TimedIds(a)[1..] && a == [a[0]] + rest;
        MergeDistinct(rest, b);
        MergeMembers(rest, b);
        DistinctCons(a[0], Merge(rest, b), rest, b);
      } else {
        var rest := b[1..];
        assert TimedIds(rest) == TimedIds(b)[1..] && b == [b[0]] + rest;
        MergeDistinct(a, rest);
        MergeMembers(a, rest);
        DistinctCons(b[0], Merge(a, rest), rest, a);
      }
    }
  }

  lemma DistinctCons(x: Timed, t: seq<Timed>, rest: seq<Timed>, other: seq<Timed>)
    requires Distinct(TimedIds(t)) && Distinct(TimedIds([x] + rest))
    requires forall y | y in t :: y in rest || y in other
    requires forall y | y in other :: x.id != y.id
    ensures Distinct(TimedIds([x] + t))
  {
    var ids, ids' := TimedIds([x] + rest), TimedIds([x] + t);
    forall k | 0 <= k < |t| ensures t[k].id != x.id {
      assert t[k] in t;
      if t[k] in rest {
        var m :| 0 <= m < |rest| && rest[m] == t[k];
        assert ids[0] == x.id && ids[m + 1] == t[k].id;
      }
    }
    forall i, j | 0 <= i < j < |ids'| ensures ids'[i] != ids'[j] {
      if i > 0 { assert ids'[i] == TimedIds(t)[i - 1] && ids'[j] == TimedIds(t)[j - 1]; }
    }
  }

  ghost predicate OnKey(history: seq<KvOperation>, t: seq<Timed>, key: string) {
    exists x :: x in t && x.id < |history| && KeyOf(history, x.id) == key
  }

  lemma ProjectTimed(history: seq<KvOperation>, x: Timed, t: seq<Timed>, key: string)
    requires x.id < |history| && InRange(|history|, TimedIds(t))
    ensures InRange(|history|, TimedIds([x] + t))
    ensures Project(history, TimedIds([x] + t), key) ==
            (if KeyOf(history, x.id) == key then [x.id] else []) + Project(history, TimedIds(t), key)
  {
    assert TimedIds([x] + t) == [x.id] + TimedIds(t);
    ProjectConcat(history, [x.id], TimedIds(t), key);
    assert [x.id][1..] == [];
  }

  lemma {:induction false} ProjectNothing(history: seq<KvOperation>, t: seq<Timed>, key: string)
    requires Within(history, t) && !OnKey(history, t, key)
    ensures InRange(|history|, TimedIds(t)) && Project(history, TimedIds(t), key) == []
  {
    if t != [] {
      var rest := t[1..];
      assert forall x | x in rest :: x in t;
      ProjectNothing(history, rest, key);
      assert t == [t[0]] + rest;
      ProjectTimed(history, t[0], rest, key);
    }
  }

  lemma {:induction false} MergeWithin(history: seq<KvOperation>, a: seq<Timed>, b: seq<Timed>)
    requires Within(history, a) && Within(history, b)
    ensures Within(history, Merge(a, b))
  {
    if a != [] && b != [] {
      if a[0].at <= b[0].at { MergeWithin(history, a[1..], b); } else { MergeWithin(history, a, b[1..]); }
    }
  }

  /** The same first element in front of two orders that show the same. */
  lemma ProjectBoth(history: seq<KvOperation>, x: Timed, s: seq<Timed>, t: seq<Timed>, key: string)
    requires x.id < |history| && InRange(|history|, TimedIds(s)) && InRange(|history|, TimedIds(t))
    requires Project(history, TimedIds(s), key) == Project(history, TimedIds(t), key)
    ensures InRange(|history|, TimedIds([x] + s)) && InRange(|history|, TimedIds([x] + t))
    ensures Project(history, TimedIds([x] + s), key) == Project(history, TimedIds([x] + t), key)
    ensures KeyOf(history, x.id) != key ==>
              Project(history, TimedIds([x] + s), key) == Project(history, TimedIds(t), key)
  {
    ProjectTimed(history, x, s, key);
    ProjectTimed(history, x, t, key);
  }

  /** A merge shows a key only what the part holding that key shows. */
  lemma {:induction false} ProjectMergeLeft(history: seq<KvOperation>, a: seq<Timed>, b: seq<Timed>, key: string)
    requires Within(history, a) && Within(history, b) && !OnKey(history, a, key)
    ensures InRange(|history|, TimedIds(b)) && InRange(|history|, TimedIds(Merge(a, b)))
    ensures Project(history, TimedIds(Merge(a, b)), key) == Project(history, TimedIds(b), key)
  {
    MergeWithin(history, a, b);
    if a == [] {
    } else if b == [] {
      ProjectNothing(history, a, key);
    } else if a[0].at <= b[0].at {
      NotOnKeyRest(history, a, key);
      ProjectMergeLeft(history, a[1..], b, key);
      ProjectBoth(history, a[0], Merge(a[1..], b), b, key);
    } else {
      ProjectMergeLeft(history, a, b[1..], key);
      SplitFirst(b);
      ProjectBoth(history, b[0], Merge(a, b[1..]), b[1..], key);
    }
  }

  lemma {:induction false} ProjectMergeRight(history: seq<KvOperation>, a: seq<Timed>, b: seq<Timed>, key: string)
    requires Within(history, a) && Within(history, b) && !OnKey(history, b, key)
    ensures InRange(|history|, TimedIds(a)) && InRange(|history|, TimedIds(Merge(a, b)))
    ensures Project(history, TimedIds(Merge(a, b)), key) == Project(history, TimedIds(a), key)
  {
    MergeWithin(history, a, b);
    if a == [] {
      ProjectNothing(history, b, key);
    } else if b == [] {
    } else if a[0].at <= b[0].at {
      ProjectMergeRight(history, a[1..], b, key);
      SplitFirst(a);
      ProjectBoth(history, a[0], Merge(a[1..], b), a[1..], key);
    } else {
      NotOnKeyRest(history, b, key);
      ProjectMergeRight(history, a, b[1..], key);
      ProjectBoth(history, b[0], Merge(a, b[1..]), a, key);
    }
  }

  lemma SplitFirst<T>(s: seq<T>)
    requires s != []
    ensures s == [s[0]] + s[1..]
  {
  }

  lemma NotOnKeyRest(history: seq<KvOperation>, t: seq<Timed>, key: string)
    requires Within(history, t) && t != [] && !OnKey(history, t, key)
    ensures !OnKey(history, t[1..], key) && KeyOf(history, t[0].id) != key
  {
    assert t[0] in t;
    assert forall x | x in t[1..] :: x in t;
  }

  /** A timed order of all operations on some of the keys, legal for each of them. */
  ghost predicate MergedOrder(history: seq<KvOperation>, keys: seq<string>, t: seq<Timed>) {
    && Within(history, t)
    && Rising(t)
    && InRange(|history|, TimedIds(t))
    && Distinct(TimedIds(t))
    && (forall id: nat :: id in TimedIds(t) <==> id < |history| && KeyOf(history, id) in keys)
    && (forall key :: Run(OperationsProblem(KvModel, history), Project(history, TimedIds(t), key)).Some?)
  }

  lemma TimedMembers(t: seq<Timed>, id: nat)
    ensures id in TimedIds(t) <==> exists x :: x in t && x.id == id
  {
    if id in TimedIds(t) {
      var j :| 0 <= j < |t| && TimedIds(t)[j] == id;
      assert t[j] in t;
    }
    if x :| x in t && x.id == id {
      var j :| 0 <= j < |t| && t[j] == x;
      assert TimedIds(t)[j] == id;
    }
  }

  lemma ExtendMerge(history: seq<KvOperation>, keys: seq<string>, key: string, a: seq<Timed>, b: seq<Timed>)
    requires MergedOrder(history, keys, a) && key !in keys
    requires Within(history, b) && Rising(b)
    requires LinearizationOn(OperationsProblem(KvModel, history), KeyIds(history, key), TimedIds(b))
    ensures MergedOrder(history, keys + [key], Merge(a, b))
  {
    var one := OperationsProblem(KvModel, history);
    var t := Merge(a, b);
    MergeMembers(a, b);
    MergeRising(a, b);
    forall x | x in a ensures x.id < |history| && KeyOf(history, x.id) in keys { TimedMembers(a, x.id); }
    forall x | x in b ensures x.id < |history| && KeyOf(history, x.id) == key {
      TimedMembers(b, x.id);
      assert x.id in KeyIds(history, key);
    }
    MergeDistinct(a, b);
    forall k ensures InRange(|history|, TimedIds(t)) && Run(one, Project(history, TimedIds(t), k)).Some? {
      if k == key {
        ProjectMergeLeft(history, a, b, k);
        ProjectWhole(history, TimedIds(b), key);
      } else {
        ProjectMergeRight(history, a, b, k);
      }
    }
    forall id: nat ensures id in TimedIds(t) <==> id < |history| && KeyOf(history, id) in keys + [key] {
      TimedMembers(t, id);
      TimedMembers(a, id);
      TimedMembers(b, id);
      assert id in TimedIds(b) <==> id in KeyIds(history, key);
    }
  }

  lemma {:induction false} ProjectWhole(history: seq<KvOperation>, order: seq<nat>, key: string)
    requires InRange(|history|, order) && forall id | id in order :: KeyOf(history, id) == key
    ensures Project(history, order, key) == order
  {
    if order != [] {
      assert forall id | id in order[1..] :: id in order;
      ProjectWhole(history, order[1..], key);
    }
  }

  lemma KeyPoints(history: seq<KvOperation>, key: string) returns (b: seq<Timed>)
    requires Linearizable(OperationsProblem(KvModel, Group(history, key)))
    ensures Within(history, b) && Rising(b)
    ensures LinearizationOn(OperationsProblem(KvModel, history), KeyIds(history, key), TimedIds(b))
  {
    GroupLinearizable(history, key);
    var order :| LinearizationOn(OperationsProblem(KvModel, history), KeyIds(history, key), order);
    b := Points(history, KeyIds(history, key), order);
  }

  lemma MergeOne(history: seq<KvOperation>, keys: seq<string>, key: string, a: seq<Timed>) returns (t: seq<Timed>)
    requires MergedOrder(history, keys, a) && key !in keys
    requires Linearizable(OperationsProblem(KvModel, Group(history, key)))
    ensures MergedOrder(history, keys + [key], t)
  {
    var b := KeyPoints(history, key);
    ExtendMerge(history, keys, key, a, b);
    t := Merge(a, b);
  }

  lemma NothingMerged(history: seq<KvOperation>)
    ensures MergedOrder(history, [], [])
  {
    assert TimedIds([]) == [];
  }

  lemma {:induction false} MergeAll(history: seq<KvOperation>, keys: seq<string>) returns (t: seq<Timed>)
    requires Distinct(keys)
    requires forall k | 0 <= k < |keys| :: Linearizable(OperationsProblem(KvModel, Group(history, keys[k])))
    ensures MergedOrder(history, keys, t)
  {
    if keys == [] {
      NothingMerged(history);
      t := [];
    } else {
      var front, key := keys[..|keys| - 1], keys[|keys| - 1];
      assert front + [key] == keys;
      var a := MergeAll(history, front);
      t := MergeOne(history, front, key, a);
    }
  }

  /** The points put the merged order in real-time order. */
  lemma MergedLinearizes(history: seq<KvOperation>, keys: seq<string>, t: seq<Timed>)
    requires MergedOrder(history, keys, t)
    requires forall i | 0 <= i < |history| :: history[i].input.key in keys
    ensures IsLinearization(OperationsProblem(StoreModel, history), TimedIds(t))
  {
    var whole := OperationsProblem(StoreModel, history);
    var order := TimedIds(t);
    StoreRun(history, order);
    forall i, j | 0 <= i < |order| && 0 <= j < |order| && whole.before(order[i], order[j]) ensures i < j {
      assert t[i].at <= history[order[i]].ret < history[order[j]].call <= t[j].at;
    }
  }

  /** The promise a partition makes: the store's history is linearizable if and only if
      every group is linearizable as the history of a single value. */
  lemma PartitionIsLocal(history: seq<KvOperation>, keys: seq<string>, groups: seq<seq<KvOperation>>)
    requires IsPartition(history, keys, groups)
    ensures Linearizable(OperationsProblem(StoreModel, history)) <==>
            forall k | 0 <= k < |groups| :: Linearizable(OperationsProblem(KvModel, groups[k]))
  {
    if Linearizable(OperationsProblem(StoreModel, history)) {
      var order :| IsLinearization(OperationsProblem(StoreModel, history), order);
      forall k | 0 <= k < |groups| ensures Linearizable(OperationsProblem(KvModel, groups[k])) {
        ProjectLinearization(history, order, keys[k]);
        GroupLinearizable(history, keys[k]);
      }
    }
    if forall k | 0 <= k < |groups| :: Linearizable(OperationsProblem(KvModel, groups[k])) {
      forall k | 0 <= k < |keys| ensures Linearizable(OperationsProblem(KvModel, Group(history, keys[k]))) {
        assert groups[k] == Group(history, keys[k]);
      }
      var t := MergeAll(history, keys);
      MergedLinearizes(history, keys, t);
    }
  }
}
