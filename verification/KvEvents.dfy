/** Event streams of the key/value model. It has a `Partition` but no `PartitionEvent`, so a
    stream is judged whole, as if all its operations were on one key. */
module KvEvents {
  import opened Collections
  import opened Linearizability
  import opened Histories
  import opened KvStore
  import opened Locality
  import opened Events

  type KvEvent = Event<KvInput, KvOutput>

  ghost predicate OnKeys(events: seq<KvEvent>, keys: set<string>) {
    forall k | 0 <= k < |events| && events[k].CallEvent? :: events[k].input.key in keys
  }

  /** The verdict `CheckEvents` gives is the one the store deserves. */
  ghost predicate RightVerdict(events: seq<KvEvent>) {
    EventsLinearizable(KvModel, events) <==> EventsLinearizable(StoreModel, events)
  }

  // ----- one key

  lemma {:induction false} GroupIsAll(history: seq<KvOperation>, key: string)
    requires forall i | 0 <= i < |history| :: history[i].input.key == key
    ensures Group(history, key) == history
  {
    if history != [] { GroupIsAll(history[..|history| - 1], key); }
  }

  /** Operations on one key are a linearizable history of the store exactly when they are one
      of a single value. */
  lemma OneKey(history: seq<KvOperation>, key: string)
    requires forall i | 0 <= i < |history| :: history[i].input.key == key
    ensures Linearizable(OperationsProblem(KvModel, history)) <==> Linearizable(OperationsProblem(StoreModel, history))
  {
    GroupIsAll(history, key);
    if history == [] {
      assert IsLinearization(OperationsProblem(KvModel, history), []);
      assert IsLinearization(OperationsProblem(StoreModel, history), []);
    } else {
      assert IsPartition(history, [key], [history]);
      PartitionIsLocal(history, [key], [history]);
      assert [history][0] == history;
    }
  }

  /** The ids of a complete stream, in some order. */
  lemma {:induction false} SomeNames(events: seq<KvEvent>, n: nat) returns (names: seq<int>)
    requires CompleteEvents(events) && n <= |events|
    ensures Distinct(names) && (forall i | 0 <= i < |names| :: Happens(events, names[i]))
    ensures forall k | 0 <= k < n :: events[k].id in names
  {
    if n == 0 {
      names := [];
    } else {
      names := SomeNames(events, n - 1);
      assert Happens(events, events[n - 1].id);
      if events[n - 1].id !in names { names := names + [events[n - 1].id]; }
    }
  }

  lemma OneKeyEvents(events: seq<KvEvent>, key: string)
    requires CompleteEvents(events) && OnKeys(events, {key})
    ensures RightVerdict(events)
  {
    var names := SomeNames(events, |events|);
    assert IsNumbering(events, names);
    OneKey(OperationsOf(events, names), key);
    AnyNumbering(KvModel, events, names);
    AnyNumbering(StoreModel, events, names);
  }

  // ----- two keys

  /** Put `x` at `a`; then a get at `b` finds `found`. */
  function Crossed(a: string, b: string, found: string): seq<KvEvent> {
    [CallEvent(0, KvInput(1, a, "x"), 0), ReturnEvent(0, KvOutput(""), 0),
     CallEvent(0, KvInput(0, b, ""), 1), ReturnEvent(0, KvOutput(found), 1)]
  }

  lemma CrossedShape(a: string, b: string, found: string)
    ensures var events := Crossed(a, b, found); CompleteEvents(events) && IsNumbering(events, [0, 1])
    ensures var ops := OperationsOf(Crossed(a, b, found), [0, 1]);
            ops == [Operation(0, KvInput(1, a, "x"), 0, KvOutput(""), 1), Operation(0, KvInput(0, b, ""), 2, KvOutput(found), 3)]
  {
    var events := Crossed(a, b, found);
    assert IsCallOf(events, 0, 0) && IsReturnOf(events, 1, 0) && IsCallOf(events, 2, 1) && IsReturnOf(events, 3, 1);
    OnlyAt(events, 0);
    OnlyAt(events, 1);
    OnlyAt(events, 2);
    OnlyAt(events, 3);
  }

  /** The only order real time allows. */
  lemma InTurn<S, I, O>(model: Model<S, I, O>, ops: seq<Operation<I, O>>, order: seq<nat>)
    requires |ops| == 2 && ops[0].ret < ops[1].call && IsLinearization(OperationsProblem(model, ops), order)
    ensures order == [0, 1]
  {
    var p := OperationsProblem(model, ops);
    AllCount(2, order);
    assert 0 in order && 1 in order;
    assert p.before(0, 1);
  }

  lemma RunTwo<S, I, O>(model: Model<S, I, O>, ops: seq<Operation<I, O>>)
    requires |ops| == 2
    ensures var p := OperationsProblem(model, ops);
            var first := model.step(model.init, ops[0].input, ops[0].output);
            Run(p, [0, 1]).Some? <==> first.0 && model.step(first.1, ops[1].input, ops[1].output).0
  {
    var p := OperationsProblem(model, ops);
    assert [0, 1][..1] == [0] && [0][..0] == [];
    assert Run(p, []) == Some(model.init);
    assert Step(p, model.init, 0) == model.step(model.init, ops[0].input, ops[0].output);
  }

  /** Two operations one after the other are linearizable exactly when they run in turn. */
  lemma InTurnExact<S, I, O>(model: Model<S, I, O>, ops: seq<Operation<I, O>>)
    requires |ops| == 2 && ops[0].ret < ops[1].call && ops[0].call <= ops[0].ret && ops[1].call <= ops[1].ret
    ensures Linearizable(OperationsProblem(model, ops)) <==> Run(OperationsProblem(model, ops), [0, 1]).Some?
  {
    var p := OperationsProblem(model, ops);
    if Linearizable(p) {
      var order :| IsLinearization(p, order);
      InTurn(model, ops, order);
    }
    if Run(p, [0, 1]).Some? { assert IsLinearization(p, [0, 1]); }
  }

  lemma CrossedStore(a: string, b: string, found: string)
    requires a != b
    ensures EventsLinearizable(StoreModel, Crossed(a, b, found)) <==> found == ""
  {
    var events := Crossed(a, b, found);
    CrossedShape(a, b, found);
    var ops := OperationsOf(events, [0, 1]);
    AnyNumbering(StoreModel, events, [0, 1]);
    InTurnExact(StoreModel, ops);
    RunTwo(StoreModel, ops);
  }

  lemma CrossedValue(a: string, b: string, found: string)
    ensures EventsLinearizable(KvModel, Crossed(a, b, found)) <==> found == "x"
  {
    var events := Crossed(a, b, found);
    CrossedShape(a, b, found);
    var ops := OperationsOf(events, [0, 1]);
    AnyNumbering(KvModel, events, [0, 1]);
    InTurnExact(KvModel, ops);
    RunTwo(KvModel, ops);
  }

  lemma CrossedKeys(a: string, b: string, found: string)
    ensures OnKeys(Crossed(a, b, found), {a, b})
  {
    var events := Crossed(a, b, found);
    assert events[0].input.key == a && events[2].input.key == b;
  }

  /** With two keys in play both mistakes are made: a history of the store is rejected, and
      one that no store allows, where a key shows what was put at another, is accepted. */
  lemma TwoKeysMistaken(a: string, b: string)
    requires a != b
    ensures var fine := Crossed(a, b, "");
            && CompleteEvents(fine) && OnKeys(fine, {a, b})
            && EventsLinearizable(StoreModel, fine) && !EventsLinearizable(KvModel, fine)
    ensures var wrong := Crossed(a, b, "x");
            && CompleteEvents(wrong) && OnKeys(wrong, {a, b})
            && !EventsLinearizable(StoreModel, wrong) && EventsLinearizable(KvModel, wrong)
  {
    CrossedShape(a, b, "");
    CrossedShape(a, b, "x");
    CrossedKeys(a, b, "");
    CrossedKeys(a, b, "x");
    CrossedStore(a, b, "");
    CrossedStore(a, b, "x");
    CrossedValue(a, b, "");
    CrossedValue(a, b, "x");
  }

  lemma OnlyOne<T>(s: set<T>, a: T)
    requires |s| <= 1 && a in s
    ensures s == {a}
  {
    assert |s - {a}| == 0;
  }

  lemma TwoOf<T>(s: set<T>) returns (a: T, b: T)
    requires |s| >= 2
    ensures a in s && b in s && a != b
  {
    a :| a in s;
    assert |s - {a}| >= 1;
    b :| b in s - {a};
  }

  /** Every stream over these keys gets the right verdict if and only if there is at most one. */
  lemma KvEventsExact(keys: set<string>)
    ensures (forall events | CompleteEvents(events) && OnKeys(events, keys) :: RightVerdict(events)) <==> |keys| <= 1
  {
    if |keys| <= 1 {
      forall events | CompleteEvents(events) && OnKeys(events, keys) ensures RightVerdict(events) {
        var key := if keys == {} then "" else var k :| k in keys; k;
        if keys != {} { OnlyOne(keys, key); }
        OneKeyEvents(events, key);
      }
    } else {
      var a, b := TwoOf(keys);
      TwoKeysMistaken(a, b);
      assert !RightVerdict(Crossed(a, b, ""));
    }
  }
}
