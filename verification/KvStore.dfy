/** The key/value model used with the checker, and the store it stands for. */
module KvStore {
  import opened Collections
  import opened Linearizability
  import opened Histories
  import opened Sorting
  import opened Sealing

  newtype uint8 = x: int | 0 <= x < 256

  /** `op` is 0 for get, 1 for put, anything else for append. */
  datatype KvInput = KvInput(op: uint8, key: string, value: string)
  datatype KvOutput = KvOutput(value: string)

  type KvOperation = Operation<KvInput, KvOutput>

  /** One key's value. */
  function KvStep(state: string, inp: KvInput, out: KvOutput): (bool, string) {
    if inp.op == 0 then (out.value == state, state)
    else if inp.op == 1 then (true, inp.value)
    else (true, state + inp.value)
  }

  const KvModel: Model<string, KvInput, KvOutput> :=
    Model("", KvStep, (s: string, t: string) => s == t)

  /** The whole store: keys never written read as the empty string. */
  function Lookup(store: map<string, string>, key: string): string {
    if key in store then store[key] else ""
  }

  function StoreStep(store: map<string, string>, inp: KvInput, out: KvOutput): (bool, map<string, string>) {
    var current := Lookup(store, inp.key);
    if inp.op == 0 then (out.value == current, store)
    else if inp.op == 1 then (true, store[inp.key := inp.value])
    else (true, store[inp.key := current + inp.value])
  }

  const StoreModel: Model<map<string, string>, KvInput, KvOutput> :=
    Model(map[], StoreStep, (s: map<string, string>, t: map<string, string>) => s == t)

  lemma KvCoherent()
    ensures Coherent(KvModel)
  {
  }

  // ----- what a key's value is

  /** The last put is at `p`, or there is none and `p` is -1. */
  ghost predicate IsLastPut(inputs: seq<KvInput>, p: int) {
    -1 <= p < |inputs| && (p >= 0 ==> inputs[p].op == 1) && forall i | p < i < |inputs| :: inputs[i].op != 1
  }

  function Appended(inputs: seq<KvInput>): string {
    if inputs == [] then ""
    else (if inputs[0].op >= 2 then inputs[0].value else "") + Appended(inputs[1..])
  }

  /** What the put at `p` wrote, followed by everything appended since. */
  function ValueFrom(inputs: seq<KvInput>, p: int): string
    requires -1 <= p < |inputs|
  {
    (if p < 0 then "" else inputs[p].value) + Appended(inputs[p + 1..])
  }

  lemma {:induction false} AppendedNext(inputs: seq<KvInput>, inp: KvInput)
    ensures Appended(inputs + [inp]) == Appended(inputs) + if inp.op >= 2 then inp.value else ""
  {
    if inputs == [] {
      assert [inp][1..] == [];
    } else {
      var first, rest := if inputs[0].op >= 2 then inputs[0].value else "", Appended(inputs[1..]);
      var added := if inp.op >= 2 then inp.value else "";
      assert (inputs + [inp])[1..] == inputs[1..] + [inp];
      AppendedNext(inputs[1..], inp);
      assert first + (rest + added) == (first + rest) + added;
    }
  }

  lemma ValueFromNext(inputs: seq<KvInput>, inp: KvInput, p: int)
    requires -1 <= p < |inputs|
    ensures ValueFrom(inputs + [inp], p) == if inp.op >= 2 then ValueFrom(inputs, p) + inp.value else ValueFrom(inputs, p)
  {
    var put, rest := if p < 0 then "" else inputs[p].value, inputs[p + 1..];
    assert (inputs + [inp])[p + 1..] == rest + [inp];
    AppendedNext(rest, inp);
    if inp.op >= 2 {
      assert put + (Appended(rest) + inp.value) == (put + Appended(rest)) + inp.value;
    } else {
      assert Appended(rest) + "" == Appended(rest);
    }
  }

  /** What an operation leaves, whatever it found. */
  function Left(value: string, inp: KvInput): string {
    if inp.op == 0 then value else if inp.op == 1 then inp.value else value + inp.value
  }

  lemma PutLast(inputs: seq<KvInput>, inp: KvInput)
    ensures ValueFrom(inputs + [inp], |inputs|) == inp.value
  {
    assert (inputs + [inp])[|inputs| + 1..] == [];
  }

  function InputsOf(history: seq<KvOperation>, order: seq<nat>): (inputs: seq<KvInput>)
    requires InRange(|history|, order)
    ensures |inputs| == |order|
  {
    seq(|order|, j requires 0 <= j < |order| => history[order[j]].input)
  }

  /** `v` is what was put last, followed by everything appended since. */
  ghost predicate Written(inputs: seq<KvInput>, v: string) {
    exists p :: IsLastPut(inputs, p) && WrittenFrom(inputs, p, v)
  }

  ghost predicate WrittenFrom(inputs: seq<KvInput>, p: int, v: string)
    requires -1 <= p < |inputs|
  {
    forall seal {:trigger Unsealed(seal)} :: seal == ValueSeal ==> v == ValueFrom(inputs, p)
  }

  lemma NothingWritten()
    ensures Written([], "")
  {
    var none: seq<KvInput> := [];
    assert none[0..] == [];
    assert ValueFrom(none, -1) == "";
    assert IsLastPut(none, -1) && WrittenFrom(none, -1, "");
  }

  lemma WrittenFromNext(inputs: seq<KvInput>, p: int, v: string, inp: KvInput)
    requires -1 <= p < |inputs| && WrittenFrom(inputs, p, v) && inp.op != 1
    ensures WrittenFrom(inputs + [inp], p, Left(v, inp))
  {
    assert Unsealed(ValueSeal);
    ValueFromNext(inputs, inp, p);
  }

  lemma PutWritten(inputs: seq<KvInput>, inp: KvInput)
    ensures WrittenFrom(inputs + [inp], |inputs|, inp.value)
  {
    PutLast(inputs, inp);
  }

  lemma WrittenNext(inputs: seq<KvInput>, v: string, inp: KvInput)
    requires Written(inputs, v)
    ensures Written(inputs + [inp], Left(v, inp))
  {
    var p :| IsLastPut(inputs, p) && WrittenFrom(inputs, p, v);
    if inp.op == 1 {
      PutWritten(inputs, inp);
      assert IsLastPut(inputs + [inp], |inputs|);
    } else {
      WrittenFromNext(inputs, p, v, inp);
      assert IsLastPut(inputs + [inp], p);
    }
  }

  lemma WrittenOnce(inputs: seq<KvInput>, v: string, w: string)
    requires Written(inputs, v)
    ensures Written(inputs, w) <==> w == v
  {
    if Written(inputs, w) {
      var p :| IsLastPut(inputs, p) && WrittenFrom(inputs, p, v);
      var q :| IsLastPut(inputs, q) && WrittenFrom(inputs, q, w);
      assert p == q;
      assert Unsealed(ValueSeal);
    }
  }

  /** The k-th operation in `order`, if it is a get, returned what was there. */
  ghost predicate ReadsRight(history: seq<KvOperation>, order: seq<nat>, k: nat)
    requires InRange(|history|, order) && k < |order|
  {
    history[order[k]].input.op == 0 ==> Written(InputsOf(history, order)[..k], history[order[k]].output.value)
  }

  ghost predicate AllReadRight(history: seq<KvOperation>, order: seq<nat>)
    requires InRange(|history|, order)
  {
    forall k: nat | k < |order| :: ReadsRight(history, order, k)
  }

  lemma AllReadNext(history: seq<KvOperation>, order: seq<nat>)
    requires InRange(|history|, order) && order != []
    ensures var front := order[..|order| - 1];
            AllReadRight(history, order) <==> AllReadRight(history, front) && ReadsRight(history, order, |order| - 1)
  {
    var front := order[..|order| - 1];
    forall k: nat | k < |front| ensures ReadsRight(history, order, k) <==> ReadsRight(history, front, k) {
      assert InputsOf(history, order)[..k] == InputsOf(history, front)[..k];
    }
    if AllReadRight(history, front) && ReadsRight(history, order, |front|) {
      forall k: nat | k < |order| ensures ReadsRight(history, order, k) {
        if k < |front| { assert ReadsRight(history, front, k); }
      }
    }
    if AllReadRight(history, order) {
      forall k: nat | k < |front| ensures ReadsRight(history, front, k) { assert ReadsRight(history, order, k); }
    }
  }

  /** An order of operations on one key is legal if and only if every get returns what was put
      last before it and all that was appended since; it leaves what the whole order wrote. */
  lemma {:induction false} KvMeaning(history: seq<KvOperation>, order: seq<nat>)
    requires InRange(|history|, order)
    ensures var after := Run(OperationsProblem(KvModel, history), order);
            && (after.Some? <==> AllReadRight(history, order))
            && (after.Some? ==> Written(InputsOf(history, order), after.value))
  {
    var inputs := InputsOf(history, order);
    if order == [] {
      assert inputs == [];
      NothingWritten();
    } else {
      var last := |order| - 1;
      KvMeaning(history, order[..last]);
      AllReadNext(history, order);
      assert InputsOf(history, order[..last]) == inputs[..last];
      assert inputs == inputs[..last] + [inputs[last]];
      var before := Run(OperationsProblem(KvModel, history), order[..last]);
      if before.Some? {
        WrittenNext(inputs[..last], before.value, inputs[last]);
        WrittenOnce(inputs[..last], before.value, history[order[last]].output.value);
      }
    }
  }

  // ----- partition by key

  /** The operations on one key, in the order recorded. */
  function Group(history: seq<KvOperation>, key: string): seq<KvOperation> {
    if history == [] then []
    else
      var front, last := history[..|history| - 1], history[|history| - 1];
      if last.input.key == key then Group(front, key) + [last] else Group(front, key)
  }

  /** The groups, one per key that occurs, by increasing key. */
  ghost predicate IsPartition(history: seq<KvOperation>, keys: seq<string>, groups: seq<seq<KvOperation>>) {
    && |groups| == |keys|
    && Distinct(keys)
    && Sorted(keys, StringLess)
    && (forall i | 0 <= i < |history| :: history[i].input.key in keys)
    && (forall k | 0 <= k < |keys| :: groups[k] == Group(history, keys[k]) && groups[k] != [])
  }

  /** `m` holds the non-empty groups. */
  ghost predicate Grouped(history: seq<KvOperation>, m: map<string, seq<KvOperation>>) {
    && (forall k | k in m :: m[k] == Group(history, k) && m[k] != [])
    && (forall j | 0 <= j < |history| :: history[j].input.key in m)
  }

  lemma GroupedNext(history: seq<KvOperation>, op: KvOperation, m: map<string, seq<KvOperation>>)
    requires Grouped(history, m)
    ensures var group := if op.input.key in m then m[op.input.key] else [];
            Grouped(history + [op], m[op.input.key := group + [op]])
  {
    var key := op.input.key;
    assert (history + [op])[..|history|] == history;
    if key !in m {
      NoGroup(history, key);
    }
  }

  lemma {:induction false} NoGroup(history: seq<KvOperation>, key: string)
    requires forall j | 0 <= j < |history| :: history[j].input.key != key
    ensures Group(history, key) == []
  {
    if history != [] {
      NoGroup(history[..|history| - 1], key);
    }
  }

  method GroupByKey(history: seq<KvOperation>) returns (m: map<string, seq<KvOperation>>)
    ensures Grouped(history, m)
  {
    m := map[];
    for i := 0 to |history|
      invariant Grouped(history[..i], m)
    {
      var key := history[i].input.key;
      var group := if key in m then m[key] else [];
      GroupedNext(history[..i], history[i], m);
      assert history[..i + 1] == history[..i] + [history[i]];
      m := m[key := group + [history[i]]];
    }
    assert history[..|history|] == history;
  }

  method SortedKeys(s: set<string>) returns (keys: seq<string>)
    ensures Distinct(keys) && Sorted(keys, StringLess)
    ensures forall k :: k in keys <==> k in s
  {
    var unsorted := ListKeys(s);
    StringOrder();
    keys := Sort(unsorted, StringLess);
    PermutationKeeps(unsorted, keys);
  }

  /** The groups of all keys, by increasing key, are the partition. */
  lemma GroupsArePartition(history: seq<KvOperation>, m: map<string, seq<KvOperation>>, keys: seq<string>, groups: seq<seq<KvOperation>>)
    requires Grouped(history, m) && Distinct(keys) && Sorted(keys, StringLess) && forall k :: k in keys <==> k in m
    requires |groups| == |keys| && forall j | 0 <= j < |keys| :: groups[j] == m[keys[j]]
    ensures IsPartition(history, keys, groups)
  {
    forall k | 0 <= k < |keys| ensures groups[k] == Group(history, keys[k]) && groups[k] != [] {
      assert keys[k] in m;
    }
  }

  method ListGroups(m: map<string, seq<KvOperation>>, keys: seq<string>) returns (groups: seq<seq<KvOperation>>)
    requires forall j | 0 <= j < |keys| :: keys[j] in m
    ensures |groups| == |keys| && forall j | 0 <= j < |keys| :: groups[j] == m[keys[j]]
  {
    groups := [];
    for k := 0 to |keys|
      invariant |groups| == k
      invariant forall j | 0 <= j < k :: groups[j] == m[keys[j]]
    {
      groups := groups + [m[keys[k]]];
    }
  }

  method Partition(history: seq<KvOperation>) returns (groups: seq<seq<KvOperation>>, ghost keys: seq<string>)
    ensures IsPartition(history, keys, groups)
    ensures exists ks :: IsPartition(history, ks, groups)
  {
    var m := GroupByKey(history);
    var sorted := SortedKeys(m.Keys);
    keys := sorted;
    groups := ListGroups(m, sorted);
    GroupsArePartition(history, m, sorted, groups);
  }

  method ListKeys(s: set<string>) returns (keys: seq<string>)
    ensures Distinct(keys)
    ensures forall k :: k in keys <==> k in s
  {
    keys := [];
    var rest := s;
    while rest != {}
      invariant Distinct(keys) && rest <= s
      invariant forall k :: k in keys <==> k in s && k !in rest
      decreases |rest|
    {
      var k :| k in rest;
      keys := keys + [k];
      rest := rest - {k};
    }
  }
}
