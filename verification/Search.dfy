/** The memoised backtracking search, without its data structures.

    A configuration is a set of operations already placed together with the state they led
    to. The search keeps a stack of placed operations and a cache of configurations it has
    entered; it never enters a configuration the cache already covers. */
module Search {
  import opened Collections
  import opened Linearizability

  type Config<!S> = (set<nat>, S)

  /** `b` may be placed next: it is not placed, and everything that returned before it was
      called is. */
  ghost predicate Enabled<S(!new), I(!new), O(!new)>(p: Problem<S, I, O>, done: set<nat>, b: nat) {
    && b < |p.ops|
    && b !in done
    && forall a: nat | a < |p.ops| && p.before(a, b) :: a in done
  }

  /** The cache holds this configuration, up to the model's equality. */
  ghost predicate Covered<S(!new), I(!new), O(!new)>(p: Problem<S, I, O>, seen: seq<Config<S>>, done: set<nat>, s: S) {
    exists t :: (done, t) in seen && p.model.equal(s, t)
  }

  /** Every way on from this configuration that starts with an operation of rank below `pos`
      leads to a covered configuration. */
  ghost predicate TriedBelow<S(!new), I(!new), O(!new)>(p: Problem<S, I, O>, rank: seq<nat>, seen: seq<Config<S>>, c: Config<S>, pos: int)
    requires |rank| == |p.ops|
  {
    forall b: nat | Enabled(p, c.0, b) && rank[b] < pos && Step(p, c.1, b).0 ::
      Covered(p, seen, c.0 + {b}, Step(p, c.1, b).1)
  }

  /** The configuration is not complete and every way on from it leads to a covered one. */
  ghost predicate Expanded<S(!new), I(!new), O(!new)>(p: Problem<S, I, O>, seen: seq<Config<S>>, c: Config<S>) {
    && c.0 != AllIds(|p.ops|)
    && forall b: nat | Enabled(p, c.0, b) && Step(p, c.1, b).0 ::
         Covered(p, seen, c.0 + {b}, Step(p, c.1, b).1)
  }

  /** For every operation placed in the configuration a partial linearization at least this
      long has been kept. */
  ghost predicate Recorded(longest: seq<Option<seq<nat>>>, done: set<nat>) {
    forall i | i in done :: i < |longest| && longest[i].Some? && |longest[i].value| >= |done|
  }

  ghost predicate LongestValid<S(!new), I(!new), O(!new)>(p: Problem<S, I, O>, longest: seq<Option<seq<nat>>>) {
    && |longest| == |p.ops|
    && forall i | 0 <= i < |longest| && longest[i].Some? ::
         IsPartial(p, longest[i].value) && i in longest[i].value
  }

  /** One element of the stack: the operation placed and the state before it. */
  datatype Frame<+S> = Frame(id: nat, state: S)

  datatype Snapshot<!S> = Snapshot(
    stack: seq<Frame<S>>, state: S, seen: seq<Config<S>>, longest: seq<Option<seq<nat>>>)
  {
    ghost function Order(): (ids: seq<nat>)
      ensures |ids| == |stack|
    {
      seq(|stack|, k requires 0 <= k < |stack| => stack[k].id)
    }

    ghost function Done(k: nat): set<nat>
      requires k <= |stack|
    {
      IdSet(Order()[..k])
    }

    ghost function StateAt(k: nat): S
      requires k <= |stack|
    {
      if k < |stack| then stack[k].state else state
    }

    ghost function ConfigAt(k: nat): Config<S>
      requires k <= |stack|
    {
      (Done(k), StateAt(k))
    }

    ghost function Top(): Config<S> {
      ConfigAt(|stack|)
    }
  }

  /** The stack is a partial linearization whose intermediate states are the saved ones. */
  ghost predicate PathValid<S(!new), I(!new), O(!new)>(p: Problem<S, I, O>, st: Snapshot<S>) {
    && IsPartial(p, st.Order())
    && forall k | 0 <= k <= |st.stack| :: RunsTo(p, st, k)
  }

  /** The first `k` operations on the stack lead to the state saved above them. */
  ghost predicate RunsTo<S(!new), I(!new), O(!new)>(p: Problem<S, I, O>, st: Snapshot<S>, k: nat)
    requires k <= |st.stack| && InRange(|p.ops|, st.Order())
  {
    Run(p, st.Order()[..k]) == Some(st.StateAt(k))
  }

  ghost predicate OnStack<S(!new)>(st: Snapshot<S>, c: Config<S>) {
    exists k :: 0 < k <= |st.stack| && c == st.ConfigAt(k)
  }

  ghost predicate Finished<S(!new), I(!new), O(!new)>(p: Problem<S, I, O>, partial: bool, st: Snapshot<S>, c: Config<S>) {
    Expanded(p, st.seen, c) && (partial ==> Recorded(st.longest, c.0))
  }

  /** A cached configuration is either still on the stack or completely dealt with. */
  ghost predicate CacheValid<S(!new), I(!new), O(!new)>(p: Problem<S, I, O>, partial: bool, st: Snapshot<S>) {
    && (forall k | 0 < k <= |st.stack| :: st.ConfigAt(k) in st.seen)
    && (forall c | c in st.seen :: Finished(p, partial, st, c) || OnStack(st, c))
  }

  /** At every level of the stack, what comes before the operation placed there was tried. */
  ghost predicate LevelsTried<S(!new), I(!new), O(!new)>(p: Problem<S, I, O>, rank: seq<nat>, st: Snapshot<S>)
    requires |rank| == |p.ops|
  {
    forall k | 0 <= k < |st.stack| ::
      st.stack[k].id < |p.ops| && TriedBelow(p, rank, st.seen, st.ConfigAt(k), rank[st.stack[k].id])
  }

  ghost predicate Inv<S(!new), I(!new), O(!new)>(p: Problem<S, I, O>, rank: seq<nat>, partial: bool, st: Snapshot<S>, pos: int) {
    && |rank| == |p.ops|
    && PathValid(p, st)
    && LongestValid(p, st.longest)
    && CacheValid(p, partial, st)
    && LevelsTried(p, rank, st)
    && TriedBelow(p, rank, st.seen, st.Top(), pos)
  }

  // ----- growth of the cache and of the record of longest prefixes

  lemma CoveredGrows<S(!new), I(!new), O(!new)>(p: Problem<S, I, O>, seen: seq<Config<S>>, seen': seq<Config<S>>, done: set<nat>, s: S)
    requires seen <= seen' && Covered(p, seen, done, s)
    ensures Covered(p, seen', done, s)
  {
    var t :| (done, t) in seen && p.model.equal(s, t);
    assert (done, t) in seen';
  }

  lemma TriedGrows<S(!new), I(!new), O(!new)>(p: Problem<S, I, O>, rank: seq<nat>, seen: seq<Config<S>>, seen': seq<Config<S>>, c: Config<S>, pos: int)
    requires |rank| == |p.ops|
    requires seen <= seen' && TriedBelow(p, rank, seen, c, pos)
    ensures TriedBelow(p, rank, seen', c, pos)
  {
    forall b: nat | Enabled(p, c.0, b) && rank[b] < pos && Step(p, c.1, b).0
      ensures Covered(p, seen', c.0 + {b}, Step(p, c.1, b).1)
    {
      CoveredGrows(p, seen, seen', c.0 + {b}, Step(p, c.1, b).1);
    }
  }

  lemma ExpandedGrows<S(!new), I(!new), O(!new)>(p: Problem<S, I, O>, seen: seq<Config<S>>, seen': seq<Config<S>>, c: Config<S>)
    requires seen <= seen' && Expanded(p, seen, c)
    ensures Expanded(p, seen', c)
  {
    forall b: nat | Enabled(p, c.0, b) && Step(p, c.1, b).0
      ensures Covered(p, seen', c.0 + {b}, Step(p, c.1, b).1)
    {
      CoveredGrows(p, seen, seen', c.0 + {b}, Step(p, c.1, b).1);
    }
  }

  // ----- the moves of the search keep the invariant

  lemma InitInv<S(!new), I(!new), O(!new)>(p: Problem<S, I, O>, rank: seq<nat>, partial: bool, longest: seq<Option<seq<nat>>>, pos: int)
    requires |rank| == |p.ops| == |longest|
    requires forall i | 0 <= i < |longest| :: longest[i].None?
    requires forall b: nat | b < |p.ops| :: rank[b] >= pos
    ensures Inv(p, rank, partial, Snapshot([], p.model.init, [], longest), pos)
  {
    var st := Snapshot([], p.model.init, [], longest);
    assert st.Order() == [];
  }

  /** Passing over an operation whose step fails, or leads to a covered configuration. */
  lemma SkipInv<S(!new), I(!new), O(!new)>(p: Problem<S, I, O>, rank: seq<nat>, partial: bool, st: Snapshot<S>, pos: int, b: nat, pos': int)
    requires Inv(p, rank, partial, st, pos)
    requires b < |p.ops| && rank[b] == pos
    requires Step(p, st.state, b).0 ==> Covered(p, st.seen, st.Top().0 + {b}, Step(p, st.state, b).1)
    requires forall c: nat | c < |p.ops| && pos <= rank[c] < pos' :: c == b || c in st.Top().0
    ensures Inv(p, rank, partial, st, pos')
  {
  }

  ghost function Pushed<S(!new), I(!new), O(!new)>(p: Problem<S, I, O>, st: Snapshot<S>, b: nat): Snapshot<S>
    requires b < |p.ops|
  {
    var s' := Step(p, st.state, b).1;
    Snapshot(st.stack + [Frame(b, st.state)], s', st.seen + [(st.Top().0 + {b}, s')], st.longest)
  }

  lemma PushedShape<S(!new), I(!new), O(!new)>(p: Problem<S, I, O>, st: Snapshot<S>, b: nat)
    requires b < |p.ops|
    ensures var st' := Pushed(p, st, b);
            && st'.Order() == st.Order() + [b]
            && (forall k | 0 <= k <= |st.stack| :: st'.Order()[..k] == st.Order()[..k] && st'.ConfigAt(k) == st.ConfigAt(k))
            && st'.Top() == (st.Top().0 + {b}, Step(p, st.state, b).1)
  {
    var st' := Pushed(p, st, b);
    assert st'.Order() == st.Order() + [b];
    forall k | 0 <= k <= |st.stack|
      ensures st'.Order()[..k] == st.Order()[..k] && st'.ConfigAt(k) == st.ConfigAt(k)
    {
      assert st'.Order()[..k] == st.Order()[..k];
    }
    var d := |st.stack|;
    assert st.Order()[..d] == st.Order();
    assert st'.Order()[..d + 1] == st.Order() + [b];
    assert IdSet(st.Order() + [b]) == IdSet(st.Order()) + {b};
  }

  lemma PartialSnoc<S(!new), I(!new), O(!new)>(p: Problem<S, I, O>, order: seq<nat>, b: nat)
    requires IsPartial(p, order) && Enabled(p, IdSet(order), b) && Step(p, Run(p, order).value, b).0
    ensures IsPartial(p, order + [b]) && Run(p, order + [b]) == Some(Step(p, Run(p, order).value, b).1)
  {
    var order', d := order + [b], |order|;
    assert order'[..d] == order;
    assert b !in order;
    forall j | 0 <= j < |order'| ensures Ready(p, order'[..j], order'[j]) {
      if j < d {
        assert order'[..j] == order[..j];
        assert Ready(p, order[..j], order[j]);
      } else {
        forall a: nat | a < |p.ops| && p.before(a, b) ensures a in order {
          assert a in IdSet(order);
        }
      }
    }
  }

  lemma PushPath<S(!new), I(!new), O(!new)>(p: Problem<S, I, O>, st: Snapshot<S>, b: nat)
    requires PathValid(p, st)
    requires Enabled(p, st.Top().0, b) && Step(p, st.state, b).0
    ensures PathValid(p, Pushed(p, st, b))
  {
    var st', d, order := Pushed(p, st, b), |st.stack|, st.Order();
    PushedShape(p, st, b);
    assert order[..d] == order;
    assert RunsTo(p, st, d);
    PartialSnoc(p, order, b);
    forall k | 0 <= k <= d + 1 ensures RunsTo(p, st', k) {
      if k <= d {
        assert st'.ConfigAt(k) == st.ConfigAt(k);
        assert RunsTo(p, st, k);
      } else {
        assert st'.Order()[..k] == order + [b];
      }
    }
  }

  lemma PushedOnStack<S(!new), I(!new), O(!new)>(p: Problem<S, I, O>, st: Snapshot<S>, b: nat, c: Config<S>)
    requires b < |p.ops| && (OnStack(st, c) || c == Pushed(p, st, b).Top())
    ensures OnStack(Pushed(p, st, b), c)
  {
    var st', d := Pushed(p, st, b), |st.stack|;
    PushedShape(p, st, b);
    if c == st'.Top() {
      assert c == st'.ConfigAt(d + 1);
    } else {
      var k :| 0 < k <= d && c == st.ConfigAt(k);
      assert c == st'.ConfigAt(k);
    }
  }

  lemma PushedCached<S(!new), I(!new), O(!new)>(p: Problem<S, I, O>, st: Snapshot<S>, b: nat)
    requires b < |p.ops| && forall k | 0 < k <= |st.stack| :: st.ConfigAt(k) in st.seen
    ensures var st' := Pushed(p, st, b); forall k | 0 < k <= |st'.stack| :: st'.ConfigAt(k) in st'.seen
  {
    var st', d := Pushed(p, st, b), |st.stack|;
    PushedShape(p, st, b);
    forall k | 0 < k <= d + 1 ensures st'.ConfigAt(k) in st'.seen {
      if k <= d {
        assert st'.ConfigAt(k) == st.ConfigAt(k);
      } else {
        assert st'.ConfigAt(k) == st'.Top();
      }
    }
  }

  lemma PushCache<S(!new), I(!new), O(!new)>(p: Problem<S, I, O>, partial: bool, st: Snapshot<S>, b: nat)
    requires CacheValid(p, partial, st) && b < |p.ops|
    ensures CacheValid(p, partial, Pushed(p, st, b))
  {
    var st' := Pushed(p, st, b);
    PushedCached(p, st, b);
    PushedShape(p, st, b);
    forall c | c in st'.seen ensures Finished(p, partial, st', c) || OnStack(st', c) {
      if c in st.seen && Finished(p, partial, st, c) {
        ExpandedGrows(p, st.seen, st'.seen, c);
      } else {
        PushedOnStack(p, st, b, c);
      }
    }
  }

  lemma PushLevels<S(!new), I(!new), O(!new)>(p: Problem<S, I, O>, rank: seq<nat>, st: Snapshot<S>, b: nat)
    requires |rank| == |p.ops| && b < |p.ops| && LevelsTried(p, rank, st)
    requires TriedBelow(p, rank, st.seen, st.Top(), rank[b])
    ensures LevelsTried(p, rank, Pushed(p, st, b))
  {
    var st', d := Pushed(p, st, b), |st.stack|;
    PushedShape(p, st, b);
    forall k | 0 <= k < |st'.stack|
      ensures st'.stack[k].id < |p.ops| && TriedBelow(p, rank, st'.seen, st'.ConfigAt(k), rank[st'.stack[k].id])
    {
      assert st'.ConfigAt(k) == st.ConfigAt(k);
      TriedGrows(p, rank, st.seen, st'.seen, st.ConfigAt(k), rank[st'.stack[k].id]);
    }
  }

  /** Placing an operation: its configuration enters the cache and the stack together. */
  lemma PushInv<S(!new), I(!new), O(!new)>(p: Problem<S, I, O>, rank: seq<nat>, partial: bool, st: Snapshot<S>, pos: int, b: nat, pos': int)
    requires Inv(p, rank, partial, st, pos)
    requires Enabled(p, st.Top().0, b) && rank[b] == pos && Step(p, st.state, b).0
    requires forall c: nat | c < |p.ops| && rank[c] < pos' :: c == b || c in st.Top().0
    ensures Inv(p, rank, partial, Pushed(p, st, b), pos')
  {
    PushPath(p, st, b);
    PushCache(p, partial, st, b);
    PushLevels(p, rank, st, b);
    PushedShape(p, st, b);
  }

  ghost function Popped<S(!new)>(st: Snapshot<S>): Snapshot<S>
    requires |st.stack| > 0
  {
    var d := |st.stack| - 1;
    Snapshot(st.stack[..d], st.stack[d].state, st.seen, st.longest)
  }

  lemma PoppedShape<S(!new)>(st: Snapshot<S>)
    requires |st.stack| > 0
    ensures var st', d := Popped(st), |st.stack| - 1;
            && st'.Order() == st.Order()[..d]
            && (forall k | 0 <= k <= d :: st'.Order()[..k] == st.Order()[..k] && st'.ConfigAt(k) == st.ConfigAt(k))
            && st'.Top() == st.ConfigAt(d)
            && st.Top().0 == st'.Top().0 + {st.stack[d].id}
  {
    var st', d := Popped(st), |st.stack| - 1;
    assert st'.Order() == st.Order()[..d];
    forall k | 0 <= k <= d
      ensures st'.Order()[..k] == st.Order()[..k] && st'.ConfigAt(k) == st.ConfigAt(k)
    {
      assert st'.Order()[..k] == st.Order()[..k];
    }
    assert st.Order()[..d + 1] == st.Order()[..d] + [st.stack[d].id];
    assert st.Top().0 == IdSet(st.Order()[..d] + [st.stack[d].id]);
  }

  lemma PoppedOrder<S(!new)>(st: Snapshot<S>, k: nat)
    requires k < |st.stack|
    ensures Popped(st).Order() == st.Order()[..|st.stack| - 1]
    ensures Popped(st).Order()[..k] == st.Order()[..k]
    ensures Popped(st).StateAt(k) == st.StateAt(k) && Popped(st).ConfigAt(k) == st.ConfigAt(k)
  {
    assert Popped(st).Order() == st.Order()[..|st.stack| - 1];
    assert Popped(st).Order()[..k] == st.Order()[..k];
  }

  lemma PopPath<S(!new), I(!new), O(!new)>(p: Problem<S, I, O>, st: Snapshot<S>)
    requires PathValid(p, st) && |st.stack| > 0
    ensures PathValid(p, Popped(st))
  {
    PoppedOrder(st, 0);
    PartialPrefix(p, st.Order(), |st.stack| - 1);
    forall k | 0 <= k < |st.stack| ensures RunsTo(p, Popped(st), k) {
      PoppedOrder(st, k);
      assert RunsTo(p, st, k);
    }
  }

  /** All that is enabled has been tried and the configuration is incomplete: it is expanded. */
  lemma ExhaustedIsExpanded<S(!new), I(!new), O(!new)>(p: Problem<S, I, O>, rank: seq<nat>, seen: seq<Config<S>>, c: Config<S>, pos: int)
    requires |rank| == |p.ops|
    requires TriedBelow(p, rank, seen, c, pos)
    requires forall b: nat | Enabled(p, c.0, b) :: rank[b] < pos
    requires c.0 != AllIds(|p.ops|)
    ensures Expanded(p, seen, c)
  {
  }

  /** Backtracking out of an exhausted configuration. */
  lemma PopInv<S(!new), I(!new), O(!new)>(p: Problem<S, I, O>, rank: seq<nat>, partial: bool, st: Snapshot<S>, pos: int, pos': int)
    requires p.model.equal(st.state, st.state)
    requires Inv(p, rank, partial, st, pos) && |st.stack| > 0
    requires forall b: nat | Enabled(p, st.Top().0, b) :: rank[b] < pos
    requires st.Top().0 != AllIds(|p.ops|)
    requires partial ==> Recorded(st.longest, st.Top().0)
    requires var st', b := Popped(st), st.stack[|st.stack| - 1].id;
             forall c: nat | c < |p.ops| && rank[b] <= rank[c] < pos' :: c == b || c in st'.Top().0
    ensures Inv(p, rank, partial, Popped(st), pos')
  {
    PopPath(p, st);
    ExhaustedIsExpanded(p, rank, st.seen, st.Top(), pos);
    PopCache(p, partial, st);
    PlacedIsCovered(p, st);
    PopLevels(p, rank, st, pos');
  }

  lemma PopLevels<S(!new), I(!new), O(!new)>(p: Problem<S, I, O>, rank: seq<nat>, st: Snapshot<S>, pos: int)
    requires |rank| == |p.ops| && |st.stack| > 0
    requires LevelsTried(p, rank, st)
    requires var st', b := Popped(st), st.stack[|st.stack| - 1].id;
             && b < |p.ops|
             && (Step(p, st'.state, b).0 ==> Covered(p, st.seen, st'.Top().0 + {b}, Step(p, st'.state, b).1))
             && forall c: nat | c < |p.ops| && rank[b] <= rank[c] < pos :: c == b || c in st'.Top().0
    ensures LevelsTried(p, rank, Popped(st))
    ensures TriedBelow(p, rank, st.seen, Popped(st).Top(), pos)
  {
    var d := |st.stack| - 1;
    forall k | 0 <= k <= d
      ensures st.stack[k].id < |p.ops| && TriedBelow(p, rank, st.seen, Popped(st).ConfigAt(k), rank[st.stack[k].id])
    {
      PoppedOrder(st, k);
    }
    TriedPast(p, rank, st.seen, Popped(st).ConfigAt(d), st.stack[d].id, pos);
  }

  lemma StillOnStack<S(!new)>(st: Snapshot<S>, c: Config<S>)
    requires |st.stack| > 0 && OnStack(st, c) && c != st.Top()
    ensures OnStack(Popped(st), c)
  {
    PoppedShape(st);
    var k :| 0 < k <= |st.stack| && c == st.ConfigAt(k);
    assert k < |st.stack|;
    assert c == Popped(st).ConfigAt(k);
  }

  lemma StackStaysCached<S(!new)>(st: Snapshot<S>)
    requires |st.stack| > 0 && forall k | 0 < k <= |st.stack| :: st.ConfigAt(k) in st.seen
    ensures forall k | 0 < k < |st.stack| :: Popped(st).ConfigAt(k) in st.seen
  {
    PoppedShape(st);
    forall k | 0 < k < |st.stack| ensures Popped(st).ConfigAt(k) in st.seen {
      assert Popped(st).ConfigAt(k) == st.ConfigAt(k);
    }
  }

  lemma PopCache<S(!new), I(!new), O(!new)>(p: Problem<S, I, O>, partial: bool, st: Snapshot<S>)
    requires CacheValid(p, partial, st) && |st.stack| > 0
    requires Finished(p, partial, st, st.Top())
    ensures CacheValid(p, partial, Popped(st))
  {
    StackStaysCached(st);
    forall c | c in st.seen ensures Finished(p, partial, Popped(st), c) || OnStack(Popped(st), c) {
      if !Finished(p, partial, st, c) { StillOnStack(st, c); }
    }
  }

  lemma TriedPast<S(!new), I(!new), O(!new)>(p: Problem<S, I, O>, rank: seq<nat>, seen: seq<Config<S>>, c: Config<S>, b: nat, pos: int)
    requires |rank| == |p.ops| && b < |p.ops|
    requires TriedBelow(p, rank, seen, c, rank[b])
    requires Step(p, c.1, b).0 ==> Covered(p, seen, c.0 + {b}, Step(p, c.1, b).1)
    requires forall e: nat | e < |p.ops| && rank[b] <= rank[e] < pos :: e == b || e in c.0
    ensures TriedBelow(p, rank, seen, c, pos)
  {
  }

  /** The step that made the top of the stack leads to a covered configuration: itself. */
  lemma PlacedIsCovered<S(!new), I(!new), O(!new)>(p: Problem<S, I, O>, st: Snapshot<S>)
    requires p.model.equal(st.state, st.state)
    requires PathValid(p, st) && |st.stack| > 0
    requires st.ConfigAt(|st.stack|) in st.seen
    ensures var st', d := Popped(st), |st.stack| - 1;
            var b := st.stack[d].id;
            && b < |p.ops|
            && Step(p, st'.state, b) == (true, st.state)
            && Covered(p, st.seen, st'.Top().0 + {b}, st.state)
  {
    PoppedShape(st);
    LastStep(p, st);
    assert (st.Top().0, st.state) in st.seen && p.model.equal(st.state, st.state);
  }

  lemma LastStep<S(!new), I(!new), O(!new)>(p: Problem<S, I, O>, st: Snapshot<S>)
    requires PathValid(p, st) && |st.stack| > 0
    ensures var frame := st.stack[|st.stack| - 1];
            frame.id < |p.ops| && Step(p, frame.state, frame.id) == (true, st.state)
  {
    var d, order := |st.stack| - 1, st.Order();
    assert order[..d + 1] == order;
    assert RunsTo(p, st, d);
    assert RunsTo(p, st, d + 1);
    assert order[d] == st.stack[d].id;
  }

  // ----- what the cache means when the search is over

  ghost predicate Closed<S(!new), I(!new), O(!new)>(p: Problem<S, I, O>, seen: seq<Config<S>>) {
    && Expanded(p, seen, ({}, p.model.init))
    && forall c | c in seen :: Expanded(p, seen, c)
  }

  /** When every cached configuration is expanded, every partial linearization there is leads
      to a covered configuration: skipping cached configurations lost nothing. */
  lemma {:induction false} PartialIsCovered<S(!new), I(!new), O(!new)>(p: Problem<S, I, O>, seen: seq<Config<S>>, order: seq<nat>)
    requires Coherent(p.model)
    requires Closed(p, seen)
    requires IsPartial(p, order) && order != []
    ensures Covered(p, seen, IdSet(order), Run(p, order).value)
  {
    var d := |order| - 1;
    var front, b := order[..d], order[d];
    PartialPrefix(p, order, d);
    assert order == front + [b];
    assert IdSet(order) == IdSet(front) + {b};
    var s := Run(p, front).value;
    assert Enabled(p, IdSet(front), b) by {
      assert Ready(p, front, b);
    }
    if front == [] {
      assert IdSet(front) == {};
    } else {
      PartialIsCovered(p, seen, front);
      var t :| (IdSet(front), t) in seen && p.model.equal(s, t);
      assert Expanded(p, seen, (IdSet(front), t));
      StepOfEqual(p, s, t, b);
      assert Covered(p, seen, IdSet(front) + {b}, Step(p, t, b).1);
      var u :| (IdSet(front) + {b}, u) in seen && p.model.equal(Step(p, t, b).1, u);
      assert p.model.equal(Step(p, s, b).1, u);
    }
  }

  lemma StepOfEqual<S(!new), I(!new), O(!new)>(p: Problem<S, I, O>, s: S, t: S, b: nat)
    requires Coherent(p.model) && p.model.equal(s, t) && b < |p.ops|
    ensures Step(p, s, b).0 == Step(p, t, b).0
    ensures Step(p, s, b).0 ==> p.model.equal(Step(p, s, b).1, Step(p, t, b).1)
  {
  }

  lemma PartialPrefix<S(!new), I(!new), O(!new)>(p: Problem<S, I, O>, order: seq<nat>, k: nat)
    requires IsPartial(p, order) && k <= |order|
    ensures IsPartial(p, order[..k])
  {
    RunPrefix(p, order, k);
    forall j | 0 <= j < k ensures Ready(p, order[..k][..j], order[..k][j]) {
      assert order[..k][..j] == order[..j];
    }
  }

  lemma {:induction false} RunPrefix<S(!new), I(!new), O(!new)>(p: Problem<S, I, O>, order: seq<nat>, k: nat)
    requires InRange(|p.ops|, order) && k <= |order| && Run(p, order).Some?
    ensures Run(p, order[..k]).Some?
  {
    if k < |order| {
      RunPrefix(p, order[..|order| - 1], k);
      assert order[..|order| - 1][..k] == order[..k];
    } else {
      assert order[..k] == order;
    }
  }

  lemma ClosedRefutes<S(!new), I(!new), O(!new)>(p: Problem<S, I, O>, seen: seq<Config<S>>, order: seq<nat>)
    requires Coherent(p.model) && Closed(p, seen) && IsPartial(p, order)
    ensures |order| < |p.ops|
  {
    DistinctCount(order);
    if |order| >= |p.ops| {
      if order != [] {
        PartialIsCovered(p, seen, order);
        var t :| (IdSet(order), t) in seen;
        forall id | id in IdSet(order) ensures id in AllIds(|p.ops|) {}
        SubsetOfSameSize(IdSet(order), AllIds(|p.ops|));
      }
    }
  }

  /** The search ends at the bottom of the stack: no linearization exists, and every kept
      prefix is as long as any partial linearization through its operation. */
  lemma ExhaustedRefutes<S(!new), I(!new), O(!new)>(p: Problem<S, I, O>, rank: seq<nat>, partial: bool, st: Snapshot<S>, pos: int)
    requires Coherent(p.model)
    requires Inv(p, rank, partial, st, pos) && st.stack == []
    requires forall b: nat | Enabled(p, {}, b) :: rank[b] < pos
    requires |p.ops| > 0
    ensures forall order | IsPartial(p, order) :: |order| < |p.ops|
    ensures partial ==> Maximal(p, st.longest)
  {
    assert st.Order() == [];
    assert st.Order()[..0] == [];
    assert RunsTo(p, st, 0);
    assert st.Done(0) == {};
    assert 0 in AllIds(|p.ops|);
    ExhaustedIsExpanded(p, rank, st.seen, st.Top(), pos);
    forall c | c in st.seen ensures Finished(p, partial, st, c) {
      assert !OnStack(st, c);
    }
    assert Closed(p, st.seen);
    forall order | IsPartial(p, order) ensures |order| < |p.ops| {
      ClosedRefutes(p, st.seen, order);
    }
    if partial {
      forall order, i | IsPartial(p, order) && i in order
        ensures st.longest[i].Some? && |order| <= |st.longest[i].value|
      {
        PartialIsCovered(p, st.seen, order);
        var t :| (IdSet(order), t) in st.seen;
        DistinctCount(order);
        assert Finished(p, partial, st, (IdSet(order), t));
        assert i in IdSet(order);
      }
    }
  }

  /** `longest[i]` exists whenever some partial linearization places `i`, and none is longer. */
  ghost predicate Maximal<S(!new), I(!new), O(!new)>(p: Problem<S, I, O>, longest: seq<Option<seq<nat>>>)
    requires |longest| == |p.ops|
  {
    forall order, i | IsPartial(p, order) && i in order ::
      longest[i].Some? && |order| <= |longest[i].value|
  }

  /** Keeping longer prefixes keeps the invariant. */
  lemma RecordInv<S(!new), I(!new), O(!new)>(p: Problem<S, I, O>, rank: seq<nat>, partial: bool, st: Snapshot<S>, pos: int, longest': seq<Option<seq<nat>>>)
    requires Inv(p, rank, partial, st, pos)
    requires LongestValid(p, longest')
    requires forall i | 0 <= i < |longest'| && st.longest[i].Some? ::
               longest'[i].Some? && |longest'[i].value| >= |st.longest[i].value|
    ensures Inv(p, rank, partial, st.(longest := longest'), pos)
  {
    var st' := st.(longest := longest');
    assert st'.Order() == st.Order();
    assert forall k | 0 <= k <= |st.stack| :: st'.ConfigAt(k) == st.ConfigAt(k);
    assert PathValid(p, st') by {
      forall k | 0 <= k <= |st.stack| ensures RunsTo(p, st', k) {
        assert RunsTo(p, st, k);
        assert st'.ConfigAt(k) == st.ConfigAt(k);
      }
    }
    forall c | c in st'.seen ensures Finished(p, partial, st', c) || OnStack(st', c) {
      if !Finished(p, partial, st, c) {
        var k :| 0 < k <= |st.stack| && c == st.ConfigAt(k);
        assert c == st'.ConfigAt(k);
      }
    }
  }

  // ----- there are finitely many configurations to enter

  ghost function Orders(n: nat, len: nat): set<seq<nat>> {
    if len == 0 then {[]} else set order, b | order in Orders(n, len - 1) && b in AllIds(n) :: order + [b]
  }

  lemma {:induction false} InOrders(n: nat, order: seq<nat>)
    requires InRange(n, order)
    ensures order in Orders(n, |order|)
  {
    if order != [] {
      var front := order[..|order| - 1];
      InOrders(n, front);
      assert order == front + [order[|order| - 1]];
    }
  }

  ghost function OrdersUpTo(n: nat, len: nat): set<seq<nat>> {
    if len == 0 then Orders(n, 0) else OrdersUpTo(n, len - 1) + Orders(n, len)
  }

  lemma {:induction false} InOrdersUpTo(n: nat, len: nat, order: seq<nat>)
    requires InRange(n, order) && |order| <= len
    ensures order in OrdersUpTo(n, len)
  {
    InOrders(n, order);
    if |order| < len {
      InOrdersUpTo(n, len - 1, order);
    }
  }

  ghost predicate Legal<S(!new), I(!new), O(!new)>(p: Problem<S, I, O>, order: seq<nat>) {
    InRange(|p.ops|, order) && Run(p, order).Some?
  }

  ghost function ConfigOf<S(!new), I(!new), O(!new)>(p: Problem<S, I, O>, order: seq<nat>): Config<S>
    requires Legal(p, order)
  {
    (IdSet(order), Run(p, order).value)
  }

  /** Every configuration a legal order without repetition can lead to. */
  ghost function Universe<S(!new), I(!new), O(!new)>(p: Problem<S, I, O>): set<Config<S>> {
    set order | order in OrdersUpTo(|p.ops|, |p.ops|) && Legal(p, order) :: ConfigOf(p, order)
  }

  ghost function Unseen<S(!new), I(!new), O(!new)>(p: Problem<S, I, O>, seen: seq<Config<S>>): set<Config<S>> {
    Universe(p) - set c | c in seen
  }

  lemma TopInUniverse<S(!new), I(!new), O(!new)>(p: Problem<S, I, O>, st: Snapshot<S>)
    requires PathValid(p, st)
    ensures st.Top() in Universe(p)
  {
    var order := st.Order();
    assert order[..|order|] == order;
    assert RunsTo(p, st, |st.stack|);
    DistinctCount(order);
    SubsetBound(IdSet(order), AllIds(|p.ops|));
    InOrdersUpTo(|p.ops|, |p.ops|, order);
    assert Legal(p, order);
    assert st.Top() == ConfigOf(p, order);
  }

  lemma SubsetBound<T>(a: set<T>, b: set<T>)
    requires a <= b
    ensures |a| <= |b|
  {
    assert b == a + (b - a);
  }

  /** Each configuration entered is one fewer left to enter. */
  lemma PushShrinks<S(!new), I(!new), O(!new)>(p: Problem<S, I, O>, st: Snapshot<S>, b: nat)
    requires PathValid(p, st) && b < |p.ops| && PathValid(p, Pushed(p, st, b))
    requires var s := Step(p, st.state, b).1; p.model.equal(s, s) && !Covered(p, st.seen, st.Top().0 + {b}, s)
    ensures Unseen(p, Pushed(p, st, b).seen) < Unseen(p, st.seen)
  {
    var st' := Pushed(p, st, b);
    PushedShape(p, st, b);
    TopInUniverse(p, st');
    var c := st'.Top();
    assert c !in st.seen;
    assert c in Unseen(p, st.seen);
    assert st'.seen == st.seen + [c];
    assert c in st'.seen;
    forall e | e in Unseen(p, st'.seen) ensures e in Unseen(p, st.seen) {
      assert e !in st'.seen;
    }
  }
}
