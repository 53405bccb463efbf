/** The data path of MapReduce: partitioned map, sort and reduce against the sequential
    program they must agree with. */
module MapReduce {
  import opened Collections
  import opened Sorting

  datatype KeyValue = KeyValue(key: string, value: string)
  datatype File = File(name: string, content: string)

  type MapFn = (string, string) -> seq<KeyValue>
  type ReduceFn = (string, seq<string>) -> string
  type HashFn = string -> nat

  /** Sort by key; values of one key may come out in any order. */
  predicate ByKey(a: KeyValue, b: KeyValue) {
    StringLess(a.key, b.key)
  }

  lemma ByKeyOrder()
    ensures StrictWeakOrder(ByKey)
  {
    StringOrder();
  }

  // ----- what reducing means, without sorting or grouping

  function ValuesOf(kvs: seq<KeyValue>, key: string): seq<string> {
    if kvs == [] then []
    else
      var front, last := kvs[..|kvs| - 1], kvs[|kvs| - 1];
      if last.key == key then ValuesOf(front, key) + [last.value] else ValuesOf(front, key)
  }

  ghost predicate HasKey(kvs: seq<KeyValue>, key: string) {
    exists i :: 0 <= i < |kvs| && kvs[i].key == key
  }

  /** The reduce function does not care about the order of values. */
  ghost predicate OrderInsensitive(reducef: ReduceFn) {
    forall key, a, b :: multiset(a) == multiset(b) ==> reducef(key, a) == reducef(key, b)
  }

  /** `out` has each key of `kvs` exactly once, with its values reduced. */
  ghost predicate IsReduction(reducef: ReduceFn, kvs: seq<KeyValue>, out: seq<KeyValue>) {
    && (forall i, j | 0 <= i < j < |out| :: out[i].key != out[j].key)
    && (forall i | 0 <= i < |out| :: HasKey(kvs, out[i].key) && out[i].value == reducef(out[i].key, ValuesOf(kvs, out[i].key)))
    && (forall i | 0 <= i < |kvs| :: HasKey(out, kvs[i].key))
  }

  // ----- values through concatenation, permutation and grouping

  lemma {:induction false} ValuesConcat(a: seq<KeyValue>, b: seq<KeyValue>, key: string)
    ensures ValuesOf(a + b, key) == ValuesOf(a, key) + ValuesOf(b, key)
  {
    if b == [] {
      assert a + b == a;
    } else {
      assert (a + b)[..|a + b| - 1] == a + b[..|b| - 1];
      ValuesConcat(a, b[..|b| - 1], key);
    }
  }

  lemma {:induction false} ValuesMultiset(a: seq<KeyValue>, key: string, v: string)
    ensures multiset(ValuesOf(a, key))[v] == multiset(a)[KeyValue(key, v)]
  {
    if a != [] {
      var front, last := a[..|a| - 1], a[|a| - 1];
      ValuesMultiset(front, key, v);
      assert a == front + [last];
    }
  }

  /** Sorting does not change the bag of values of a key. */
  lemma ValuesPermute(a: seq<KeyValue>, b: seq<KeyValue>, key: string)
    requires multiset(a) == multiset(b)
    ensures multiset(ValuesOf(a, key)) == multiset(ValuesOf(b, key))
    ensures HasKey(a, key) <==> HasKey(b, key)
  {
    forall v ensures multiset(ValuesOf(a, key))[v] == multiset(ValuesOf(b, key))[v] {
      ValuesMultiset(a, key, v);
      ValuesMultiset(b, key, v);
    }
    if HasKey(a, key) { HasKeyPermutes(a, b, key); }
    if HasKey(b, key) { HasKeyPermutes(b, a, key); }
  }

  lemma HasKeyPermutes(a: seq<KeyValue>, b: seq<KeyValue>, key: string)
    requires multiset(a) == multiset(b) && HasKey(a, key)
    ensures HasKey(b, key)
  {
    var i :| 0 <= i < |a| && a[i].key == key;
    assert a[i] in multiset(a);
    assert a[i] in b;
  }

  lemma ReductionPermutes(reducef: ReduceFn, a: seq<KeyValue>, b: seq<KeyValue>, out: seq<KeyValue>)
    requires OrderInsensitive(reducef) && multiset(a) == multiset(b) && IsReduction(reducef, a, out)
    ensures IsReduction(reducef, b, out)
  {
    forall i | 0 <= i < |out|
      ensures HasKey(b, out[i].key) && out[i].value == reducef(out[i].key, ValuesOf(b, out[i].key))
    {
      ValuesPermute(a, b, out[i].key);
    }
    forall i | 0 <= i < |b| ensures HasKey(out, b[i].key) {
      HasKeyPermutes(b, a, b[i].key);
      var j :| 0 <= j < |a| && a[j].key == b[i].key;
    }
  }

  // ----- the grouping loop shared by worker and sequential program

  /** All entries of `kvs[i..j]` have one key, and it occurs nowhere else. */
  ghost predicate IsRun(kvs: seq<KeyValue>, i: nat, j: nat)
    requires i < j <= |kvs|
  {
    && (forall k | i <= k < j :: kvs[k].key == kvs[i].key)
    && (forall k | 0 <= k < i || j <= k < |kvs| :: kvs[k].key != kvs[i].key)
  }

  function Values(kvs: seq<KeyValue>): (values: seq<string>)
    ensures |values| == |kvs|
  {
    seq(|kvs|, k requires 0 <= k < |kvs| => kvs[k].value)
  }

  lemma {:induction false} NoValues(kvs: seq<KeyValue>, key: string)
    requires forall k | 0 <= k < |kvs| :: kvs[k].key != key
    ensures ValuesOf(kvs, key) == []
  {
    if kvs != [] { NoValues(kvs[..|kvs| - 1], key); }
  }

  lemma {:induction false} AllValues(kvs: seq<KeyValue>, key: string)
    requires forall k | 0 <= k < |kvs| :: kvs[k].key == key
    ensures ValuesOf(kvs, key) == Values(kvs)
  {
    if kvs != [] {
      AllValues(kvs[..|kvs| - 1], key);
      assert Values(kvs) == Values(kvs[..|kvs| - 1]) + [kvs[|kvs| - 1].value];
    }
  }

  lemma RunValues(kvs: seq<KeyValue>, i: nat, j: nat)
    requires i < j <= |kvs| && IsRun(kvs, i, j)
    ensures ValuesOf(kvs, kvs[i].key) == Values(kvs[i..j])
  {
    OneRunValues(kvs[..i], kvs[i..j], kvs[j..], kvs[i].key);
    Split(kvs, i, j);
  }

  lemma Split(kvs: seq<KeyValue>, i: nat, j: nat)
    requires i <= j <= |kvs|
    ensures kvs[..i] + kvs[i..j] + kvs[j..] == kvs
  {
  }

  lemma OneRunValues(a: seq<KeyValue>, b: seq<KeyValue>, c: seq<KeyValue>, key: string)
    requires forall k | 0 <= k < |a| :: a[k].key != key
    requires forall k | 0 <= k < |b| :: b[k].key == key
    requires forall k | 0 <= k < |c| :: c[k].key != key
    ensures ValuesOf(a + b + c, key) == Values(b)
  {
    ValuesConcat(a + b, c, key);
    ValuesConcat(a, b, key);
    NoValues(a, key);
    NoValues(c, key);
    AllValues(b, key);
  }

  lemma SortedRun(kvs: seq<KeyValue>, i: nat, j: nat)
    requires Sorted(kvs, ByKey) && i < j <= |kvs|
    requires forall k | i <= k < j :: kvs[k].key == kvs[i].key
    requires j < |kvs| ==> kvs[j].key != kvs[i].key
    requires forall k | 0 <= k < i :: kvs[k].key != kvs[i].key
    ensures IsRun(kvs, i, j)
  {
    forall k | j <= k < |kvs| ensures kvs[k].key != kvs[i].key {
      if kvs[k].key == kvs[i].key && k > j {
        assert !ByKey(kvs[k], kvs[j]) && !ByKey(kvs[j], kvs[i]);
        StringLessTotal(kvs[j].key, kvs[i].key);
      }
    }
  }

  /** `out` is the reduction of `kvs[..i]`, whose keys do not occur later. */
  ghost predicate ReducedUpTo(reducef: ReduceFn, kvs: seq<KeyValue>, i: nat, out: seq<KeyValue>)
    requires i <= |kvs|
  {
    && (forall k, l | 0 <= k < i <= l < |kvs| :: kvs[k].key != kvs[l].key)
    && (forall k, l | 0 <= k < l < |out| :: out[k].key != out[l].key)
    && (forall k | 0 <= k < |out| ::
          HasKey(kvs[..i], out[k].key) && out[k].value == reducef(out[k].key, ValuesOf(kvs, out[k].key)))
    && (forall k | 0 <= k < i :: HasKey(out, kvs[k].key))
  }

  lemma NextRun(reducef: ReduceFn, kvs: seq<KeyValue>, i: nat, j: nat, out: seq<KeyValue>)
    requires i < j <= |kvs| && IsRun(kvs, i, j) && ReducedUpTo(reducef, kvs, i, out)
    ensures ReducedUpTo(reducef, kvs, j, out + [KeyValue(kvs[i].key, reducef(kvs[i].key, Values(kvs[i..j])))])
  {
    var line := KeyValue(kvs[i].key, reducef(kvs[i].key, Values(kvs[i..j])));
    RunValues(kvs, i, j);
    forall k | 0 <= k < |out| ensures HasKey(kvs[..j], out[k].key) && out[k].key != line.key {
      var m :| 0 <= m < i && kvs[..i][m].key == out[k].key;
      assert kvs[..j][m] == kvs[m];
    }
    assert kvs[..j][i].key == line.key;
    forall k | 0 <= k < j ensures HasKey(out + [line], kvs[k].key) {
      HasKeyEither(out, [line], kvs[k].key);
      assert [line][0].key == line.key;
    }
  }

  /** The next key is not less than those written. */
  lemma SortedNext(reducef: ReduceFn, kvs: seq<KeyValue>, i: nat, out: seq<KeyValue>, line: KeyValue)
    requires Sorted(kvs, ByKey) && i < |kvs| && ReducedUpTo(reducef, kvs, i, out) && Sorted(out, ByKey) && line.key == kvs[i].key
    ensures Sorted(out + [line], ByKey)
  {
    forall k | 0 <= k < |out| ensures !ByKey(line, out[k]) {
      assert HasKey(kvs[..i], out[k].key);
      var m :| 0 <= m < i && kvs[..i][m].key == out[k].key;
      assert !ByKey(kvs[i], kvs[m]);
    }
  }

  ghost predicate WrittenUpTo(reducef: ReduceFn, kvs: seq<KeyValue>, i: nat, out: seq<KeyValue>)
    requires i <= |kvs|
  {
    ReducedUpTo(reducef, kvs, i, out) && Sorted(out, ByKey)
  }

  lemma NextLine(reducef: ReduceFn, kvs: seq<KeyValue>, i: nat, j: nat, out: seq<KeyValue>, line: KeyValue)
    requires Sorted(kvs, ByKey) && i < j <= |kvs| && WrittenUpTo(reducef, kvs, i, out)
    requires forall k | i <= k < j :: kvs[k].key == kvs[i].key
    requires j < |kvs| ==> kvs[j].key != kvs[i].key
    requires line == KeyValue(kvs[i].key, reducef(kvs[i].key, Values(kvs[i..j])))
    ensures WrittenUpTo(reducef, kvs, j, out + [line])
  {
    SortedRun(kvs, i, j);
    NextRun(reducef, kvs, i, j, out);
    SortedNext(reducef, kvs, i, out, line);
  }

  method ReduceSorted(reducef: ReduceFn, kvs: seq<KeyValue>) returns (out: seq<KeyValue>)
    requires Sorted(kvs, ByKey)
    ensures IsReduction(reducef, kvs, out) && Sorted(out, ByKey)
  {
    out := [];
    var i := 0;
    while i < |kvs|
      invariant 0 <= i <= |kvs|
      invariant WrittenUpTo(reducef, kvs, i, out)
    {
      var j := i + 1;
      while j < |kvs| && kvs[j].key == kvs[i].key
        invariant i < j <= |kvs|
        invariant forall k | i <= k < j :: kvs[k].key == kvs[i].key
      {
        j := j + 1;
      }
      var values := [];
      for k := i to j
        invariant values == Values(kvs[i..k])
      {
        values := values + [kvs[k].value];
      }
      var line := KeyValue(kvs[i].key, reducef(kvs[i].key, values));
      NextLine(reducef, kvs, i, j, out, line);
      out := out + [line];
      i := j;
    }
    assert kvs[..|kvs|] == kvs;
  }

  // ----- the sequential program

  function Mapped(mapf: MapFn, files: seq<File>): seq<KeyValue> {
    if files == [] then []
    else
      var front, last := files[..|files| - 1], files[|files| - 1];
      Mapped(mapf, front) + mapf(last.name, last.content)
  }

  method Sequential(mapf: MapFn, reducef: ReduceFn, files: seq<File>) returns (out: seq<KeyValue>)
    requires OrderInsensitive(reducef)
    ensures IsReduction(reducef, Mapped(mapf, files), out) && Sorted(out, ByKey)
  {
    var intermediate := [];
    for i := 0 to |files|
      invariant intermediate == Mapped(mapf, files[..i])
    {
      assert files[..i + 1][..i] == files[..i];
      intermediate := intermediate + mapf(files[i].name, files[i].content);
    }
    assert files[..|files|] == files;
    out := SortAndReduce(reducef, intermediate);
  }

  method SortAndReduce(reducef: ReduceFn, kvs: seq<KeyValue>) returns (out: seq<KeyValue>)
    requires OrderInsensitive(reducef)
    ensures IsReduction(reducef, kvs, out) && Sorted(out, ByKey)
  {
    ByKeyOrder();
    var sorted := Sort(kvs, ByKey);
    out := ReduceSorted(reducef, sorted);
    ReductionPermutes(reducef, sorted, kvs, out);
  }

  // ----- the distributed run

  /** The pairs a map task sends to reduce task `r`, in the order produced. */
  function Bucket(ihash: HashFn, nReduce: nat, kvs: seq<KeyValue>, r: nat): seq<KeyValue>
    requires nReduce > 0
  {
    if kvs == [] then []
    else
      var front, last := kvs[..|kvs| - 1], kvs[|kvs| - 1];
      var rest := Bucket(ihash, nReduce, front, r);
      if ihash(last.key) % nReduce == r then rest + [last] else rest
  }

  /** Only the buckets that hold something exist. */
  method GroupByReducer(ihash: HashFn, nReduce: nat, kvs: seq<KeyValue>) returns (groups: map<nat, seq<KeyValue>>)
    requires nReduce > 0
    ensures forall r: nat :: Bucket(ihash, nReduce, kvs, r) == if r in groups then groups[r] else []
    ensures forall r | r in groups :: r < nReduce && groups[r] != []
  {
    groups := map[];
    for i := 0 to |kvs|
      invariant forall r: nat :: Bucket(ihash, nReduce, kvs[..i], r) == if r in groups then groups[r] else []
      invariant forall r | r in groups :: r < nReduce && groups[r] != []
    {
      assert kvs[..i + 1][..i] == kvs[..i];
      var number := ihash(kvs[i].key) % nReduce;
      var before := if number in groups then groups[number] else [];
      groups := groups[number := before + [kvs[i]]];
    }
    assert kvs[..|kvs|] == kvs;
  }

  /** A map task leaves one file per reduce task; `None` stands for the empty file name. */
  method MapTask(mapf: MapFn, ihash: HashFn, nReduce: nat, file: File) returns (outputs: seq<Option<seq<KeyValue>>>)
    requires nReduce > 0
    ensures |outputs| == nReduce
    ensures forall r | 0 <= r < nReduce ::
              Contents(outputs[r]) == Bucket(ihash, nReduce, mapf(file.name, file.content), r)
    ensures forall r | 0 <= r < nReduce ::
              outputs[r].None? <==> Bucket(ihash, nReduce, mapf(file.name, file.content), r) == []
  {
    var kvs := mapf(file.name, file.content);
    var groups := GroupByReducer(ihash, nReduce, kvs);
    outputs := [];
    for r := 0 to nReduce
      invariant |outputs| == r
      invariant forall k | 0 <= k < r :: Contents(outputs[k]) == Bucket(ihash, nReduce, kvs, k)
      invariant forall k | 0 <= k < r :: outputs[k].None? <==> Bucket(ihash, nReduce, kvs, k) == []
    {
      outputs := outputs + [if r in groups then Some(groups[r]) else None];
    }
  }

  function Contents(file: Option<seq<KeyValue>>): seq<KeyValue> {
    if file.Some? then file.value else []
  }

  function Gathered(inputs: seq<Option<seq<KeyValue>>>): seq<KeyValue> {
    if inputs == [] then []
    else Gathered(inputs[..|inputs| - 1]) + Contents(inputs[|inputs| - 1])
  }

  method ReduceTask(reducef: ReduceFn, inputs: seq<Option<seq<KeyValue>>>) returns (out: seq<KeyValue>)
    requires OrderInsensitive(reducef)
    ensures IsReduction(reducef, Gathered(inputs), out) && Sorted(out, ByKey)
  {
    var kvs := [];
    for m := 0 to |inputs|
      invariant kvs == Gathered(inputs[..m])
    {
      assert inputs[..m + 1][..m] == inputs[..m];
      if inputs[m].Some? {
        kvs := kvs + inputs[m].value;
      }
    }
    assert inputs[..|inputs|] == inputs;
    out := SortAndReduce(reducef, kvs);
  }

  // ----- partitioning and gathering lose nothing

  lemma {:induction false} BucketConcat(ihash: HashFn, nReduce: nat, a: seq<KeyValue>, b: seq<KeyValue>, r: nat)
    requires nReduce > 0
    ensures Bucket(ihash, nReduce, a + b, r) == Bucket(ihash, nReduce, a, r) + Bucket(ihash, nReduce, b, r)
  {
    if b == [] {
      assert a + b == a;
    } else {
      assert (a + b)[..|a + b| - 1] == a + b[..|b| - 1];
      BucketConcat(ihash, nReduce, a, b[..|b| - 1], r);
    }
  }

  lemma {:induction false} BucketKeys(ihash: HashFn, nReduce: nat, kvs: seq<KeyValue>, r: nat, i: nat)
    requires nReduce > 0 && i < |Bucket(ihash, nReduce, kvs, r)|
    ensures ihash(Bucket(ihash, nReduce, kvs, r)[i].key) % nReduce == r
    ensures HasKey(kvs, Bucket(ihash, nReduce, kvs, r)[i].key)
  {
    var front := kvs[..|kvs| - 1];
    if i < |Bucket(ihash, nReduce, front, r)| {
      BucketKeys(ihash, nReduce, front, r, i);
      var key := Bucket(ihash, nReduce, front, r)[i].key;
      var j :| 0 <= j < |front| && front[j].key == key;
      assert kvs[j].key == key;
    }
  }

  /** All values of a key are in the bucket the key hashes to. */
  lemma {:induction false} BucketValues(ihash: HashFn, nReduce: nat, kvs: seq<KeyValue>, r: nat, key: string)
    requires nReduce > 0 && ihash(key) % nReduce == r
    ensures ValuesOf(Bucket(ihash, nReduce, kvs, r), key) == ValuesOf(kvs, key)
  {
    if kvs != [] {
      BucketValues(ihash, nReduce, kvs[..|kvs| - 1], r, key);
      var rest, last := Bucket(ihash, nReduce, kvs[..|kvs| - 1], r), kvs[|kvs| - 1];
      assert (rest + [last])[..|rest|] == rest;
    }
  }

  lemma {:induction false} HasValues(kvs: seq<KeyValue>, key: string)
    ensures HasKey(kvs, key) <==> ValuesOf(kvs, key) != []
  {
    if kvs != [] {
      var front := kvs[..|kvs| - 1];
      HasValues(front, key);
      assert forall i | 0 <= i < |front| :: front[i] == kvs[i];
    }
  }

  function Column(outputs: seq<seq<Option<seq<KeyValue>>>>, r: nat): (column: seq<Option<seq<KeyValue>>>)
    requires forall m | 0 <= m < |outputs| :: r < |outputs[m]|
    ensures |column| == |outputs|
  {
    seq(|outputs|, m requires 0 <= m < |outputs| => outputs[m][r])
  }

  /** `outputs` is what the map tasks of `files` left behind. */
  ghost predicate MapsDone(mapf: MapFn, ihash: HashFn, nReduce: nat, files: seq<File>,
                           outputs: seq<seq<Option<seq<KeyValue>>>>)
    requires nReduce > 0
  {
    && |outputs| == |files|
    && (forall m | 0 <= m < |files| :: |outputs[m]| == nReduce)
    && (forall m, r | 0 <= m < |files| && 0 <= r < nReduce ::
          Contents(outputs[m][r]) == Bucket(ihash, nReduce, mapf(files[m].name, files[m].content), r))
  }

  /** `column` holds what each map task has for reduce task `r`. */
  ghost predicate IsColumn(mapf: MapFn, ihash: HashFn, nReduce: nat, files: seq<File>, column: seq<Option<seq<KeyValue>>>, r: nat)
    requires nReduce > 0
  {
    && |column| == |files|
    && forall m | 0 <= m < |files| ::
         Contents(column[m]) == Bucket(ihash, nReduce, mapf(files[m].name, files[m].content), r)
  }

  lemma {:induction false} ColumnIsBucket(mapf: MapFn, ihash: HashFn, nReduce: nat, files: seq<File>,
                                          column: seq<Option<seq<KeyValue>>>, r: nat)
    requires nReduce > 0 && IsColumn(mapf, ihash, nReduce, files, column, r)
    ensures Gathered(column) == Bucket(ihash, nReduce, Mapped(mapf, files), r)
  {
    if files != [] {
      var n := |files| - 1;
      ColumnIsBucket(mapf, ihash, nReduce, files[..n], column[..n], r);
      BucketConcat(ihash, nReduce, Mapped(mapf, files[..n]), mapf(files[n].name, files[n].content), r);
    }
  }

  lemma GatheredIsBucket(mapf: MapFn, ihash: HashFn, nReduce: nat, files: seq<File>,
                         outputs: seq<seq<Option<seq<KeyValue>>>>, r: nat)
    requires nReduce > 0 && r < nReduce && MapsDone(mapf, ihash, nReduce, files, outputs)
    ensures Gathered(Column(outputs, r)) == Bucket(ihash, nReduce, Mapped(mapf, files), r)
  {
    ColumnIsBucket(mapf, ihash, nReduce, files, Column(outputs, r), r);
  }

  // ----- the reduce outputs together are one reduction of everything

  function Flatten(outs: seq<seq<KeyValue>>): seq<KeyValue> {
    if outs == [] then [] else Flatten(outs[..|outs| - 1]) + outs[|outs| - 1]
  }

  /** What the first `n` reduce tasks wrote covers exactly the keys that hash below `n`. */
  ghost predicate CoversBelow(reducef: ReduceFn, ihash: HashFn, nReduce: nat, kvs: seq<KeyValue>, out: seq<KeyValue>, n: nat)
    requires nReduce > 0
  {
    && (forall i, j | 0 <= i < j < |out| :: out[i].key != out[j].key)
    && (forall i | 0 <= i < |out| ::
          && ihash(out[i].key) % nReduce < n
          && HasKey(kvs, out[i].key) && out[i].value == reducef(out[i].key, ValuesOf(kvs, out[i].key)))
    && (forall i | 0 <= i < |kvs| :: ihash(kvs[i].key) % nReduce < n ==> HasKey(out, kvs[i].key))
  }

  lemma BucketReduction(reducef: ReduceFn, ihash: HashFn, nReduce: nat, kvs: seq<KeyValue>, r: nat, out: seq<KeyValue>, i: nat)
    requires nReduce > 0 && IsReduction(reducef, Bucket(ihash, nReduce, kvs, r), out) && i < |out|
    ensures ihash(out[i].key) % nReduce == r
    ensures HasKey(kvs, out[i].key) && out[i].value == reducef(out[i].key, ValuesOf(kvs, out[i].key))
  {
    var bucket := Bucket(ihash, nReduce, kvs, r);
    assert HasKey(bucket, out[i].key);
    var j :| 0 <= j < |bucket| && bucket[j].key == out[i].key;
    BucketKeys(ihash, nReduce, kvs, r, j);
    BucketValues(ihash, nReduce, kvs, r, out[i].key);
  }

  lemma BucketCovered(reducef: ReduceFn, ihash: HashFn, nReduce: nat, kvs: seq<KeyValue>, r: nat, out: seq<KeyValue>, i: nat)
    requires nReduce > 0 && IsReduction(reducef, Bucket(ihash, nReduce, kvs, r), out)
    requires i < |kvs| && ihash(kvs[i].key) % nReduce == r
    ensures HasKey(out, kvs[i].key)
  {
    var bucket := Bucket(ihash, nReduce, kvs, r);
    BucketValues(ihash, nReduce, kvs, r, kvs[i].key);
    HasValues(kvs, kvs[i].key);
    HasValues(bucket, kvs[i].key);
    var j :| 0 <= j < |bucket| && bucket[j].key == kvs[i].key;
  }

  lemma HasKeyEither(a: seq<KeyValue>, b: seq<KeyValue>, key: string)
    ensures HasKey(a + b, key) <==> HasKey(a, key) || HasKey(b, key)
  {
    if HasKey(a, key) {
      var i :| 0 <= i < |a| && a[i].key == key;
      assert (a + b)[i].key == key;
    }
    if HasKey(b, key) {
      var i :| 0 <= i < |b| && b[i].key == key;
      assert (a + b)[|a| + i].key == key;
    }
  }

  lemma NextCovers(reducef: ReduceFn, ihash: HashFn, nReduce: nat, kvs: seq<KeyValue>, a: seq<KeyValue>, n: nat, b: seq<KeyValue>)
    requires nReduce > 0 && CoversBelow(reducef, ihash, nReduce, kvs, a, n)
    requires IsReduction(reducef, Bucket(ihash, nReduce, kvs, n), b)
    ensures CoversBelow(reducef, ihash, nReduce, kvs, a + b, n + 1)
  {
    forall i | 0 <= i < |b|
      ensures ihash(b[i].key) % nReduce == n
      ensures HasKey(kvs, b[i].key) && b[i].value == reducef(b[i].key, ValuesOf(kvs, b[i].key))
    {
      BucketReduction(reducef, ihash, nReduce, kvs, n, b, i);
    }
    forall i | 0 <= i < |kvs| && ihash(kvs[i].key) % nReduce < n + 1 ensures HasKey(a + b, kvs[i].key) {
      HasKeyEither(a, b, kvs[i].key);
      if ihash(kvs[i].key) % nReduce == n { BucketCovered(reducef, ihash, nReduce, kvs, n, b, i); }
    }
  }

  lemma {:induction false} AllCovered(reducef: ReduceFn, ihash: HashFn, nReduce: nat, kvs: seq<KeyValue>, outs: seq<seq<KeyValue>>)
    requires nReduce > 0
    requires forall r | 0 <= r < |outs| :: IsReduction(reducef, Bucket(ihash, nReduce, kvs, r), outs[r])
    ensures CoversBelow(reducef, ihash, nReduce, kvs, Flatten(outs), |outs|)
  {
    if outs != [] {
      var n := |outs| - 1;
      AllCovered(reducef, ihash, nReduce, kvs, outs[..n]);
      NextCovers(reducef, ihash, nReduce, kvs, Flatten(outs[..n]), n, outs[n]);
    }
  }

  /** Each key is reduced by exactly one reduce task, with all of its values. */
  lemma PartitionedReduction(reducef: ReduceFn, ihash: HashFn, nReduce: nat, kvs: seq<KeyValue>, outs: seq<seq<KeyValue>>)
    requires nReduce > 0 && |outs| == nReduce
    requires forall r | 0 <= r < nReduce :: IsReduction(reducef, Bucket(ihash, nReduce, kvs, r), outs[r])
    ensures IsReduction(reducef, kvs, Flatten(outs))
  {
    AllCovered(reducef, ihash, nReduce, kvs, outs);
  }

  // ----- equal outputs

  lemma {:induction false} DistinctCount(out: seq<KeyValue>, x: KeyValue)
    requires forall i, j | 0 <= i < j < |out| :: out[i].key != out[j].key
    ensures multiset(out)[x] == if x in out then 1 else 0
  {
    if out != [] {
      var front, last := out[..|out| - 1], out[|out| - 1];
      DistinctCount(front, x);
      assert out == front + [last];
    }
  }

  lemma ReductionContains(reducef: ReduceFn, kvs: seq<KeyValue>, a: seq<KeyValue>, b: seq<KeyValue>, x: KeyValue)
    requires IsReduction(reducef, kvs, a) && IsReduction(reducef, kvs, b) && x in a
    ensures x in b
  {
    var i :| 0 <= i < |a| && a[i] == x;
    var j :| 0 <= j < |kvs| && kvs[j].key == a[i].key;
    var k :| 0 <= k < |b| && b[k].key == kvs[j].key;
    assert b[k] == x;
  }

  /** What to write is determined up to order. */
  lemma ReductionUnique(reducef: ReduceFn, kvs: seq<KeyValue>, a: seq<KeyValue>, b: seq<KeyValue>)
    requires IsReduction(reducef, kvs, a) && IsReduction(reducef, kvs, b)
    ensures multiset(a) == multiset(b)
  {
    forall x ensures multiset(a)[x] == multiset(b)[x] {
      DistinctCount(a, x);
      DistinctCount(b, x);
      if x in a { ReductionContains(reducef, kvs, a, b, x); }
      if x in b { ReductionContains(reducef, kvs, b, a, x); }
    }
  }

  /** So in the order of keys there is only one reduction. */
  lemma SortedReductionUnique(reducef: ReduceFn, kvs: seq<KeyValue>, a: seq<KeyValue>, b: seq<KeyValue>)
    requires IsReduction(reducef, kvs, a) && IsReduction(reducef, kvs, b) && Sorted(a, ByKey) && Sorted(b, ByKey)
    ensures a == b
  {
    ReductionUnique(reducef, kvs, a, b);
    SameInOrder(a, b);
  }

  lemma {:induction false} SameInOrder(a: seq<KeyValue>, b: seq<KeyValue>)
    requires multiset(a) == multiset(b) && Sorted(a, ByKey) && Sorted(b, ByKey)
    requires forall i, j | 0 <= i < j < |a| :: a[i].key != a[j].key
    ensures a == b
  {
    assert |a| == |multiset(a)| == |multiset(b)| == |b|;
    if a != [] {
      var last := |a| - 1;
      SameLast(a, b);
      WithoutLast(a);
      WithoutLast(b);
      SameInOrder(a[..last], b[..last]);
    }
  }

  lemma WithoutLast(s: seq<KeyValue>)
    requires s != []
    ensures multiset(s[..|s| - 1]) == multiset(s) - multiset{s[|s| - 1]} && s == s[..|s| - 1] + [s[|s| - 1]]
  {
    assert s == s[..|s| - 1] + [s[|s| - 1]];
  }

  lemma SameLast(a: seq<KeyValue>, b: seq<KeyValue>)
    requires multiset(a) == multiset(b) && Sorted(a, ByKey) && Sorted(b, ByKey) && a != [] && |b| == |a|
    requires forall i, j | 0 <= i < j < |a| :: a[i].key != a[j].key
    ensures a[|a| - 1] == b[|b| - 1]
  {
    var x, y := a[|a| - 1], b[|b| - 1];
    assert x in multiset(b) && y in multiset(a);
    LastIsGreatest(a, y);
    LastIsGreatest(b, x);
    StringLessTotal(x.key, y.key);
    var i :| 0 <= i < |a| && a[i] == y;
  }

  lemma LastIsGreatest(s: seq<KeyValue>, x: KeyValue)
    requires Sorted(s, ByKey) && x in s
    ensures !ByKey(s[|s| - 1], x)
  {
    ByKeyOrder();
    var i :| 0 <= i < |s| && s[i] == x;
  }

  function Line(kv: KeyValue): string {
    kv.key + " " + kv.value + "\n"
  }

  function FirstSpace(line: string): (i: nat)
    ensures i <= |line| && ' ' !in line[..i] && (i < |line| ==> line[i] == ' ')
  {
    if line == "" || line[0] == ' ' then 0 else 1 + FirstSpace(line[1..])
  }

  /** A line read back at its first space: the key is what comes before it and the value the
      rest without the line's end. */
  lemma LineRoundTrip(kv: KeyValue)
    requires ' ' !in kv.key
    ensures var line, i := Line(kv), FirstSpace(Line(kv));
            i + 1 < |line| && KeyValue(line[..i], line[i + 1..|line| - 1]) == kv && line[|line| - 1] == '\n'
  {
    var line, i := Line(kv), FirstSpace(Line(kv));
    assert line[|kv.key|] == ' ';
    assert forall j | 0 <= j < |kv.key| :: line[j] == kv.key[j] != ' ';
    assert forall j | 0 <= j < i :: line[..i][j] == line[j] != ' ';
    assert i == |kv.key|;
  }

  function Lines(out: seq<KeyValue>): seq<string> {
    if out == [] then [] else Lines(out[..|out| - 1]) + [Line(out[|out| - 1])]
  }

  lemma {:induction false} LinesConcat(a: seq<KeyValue>, b: seq<KeyValue>)
    ensures Lines(a + b) == Lines(a) + Lines(b)
  {
    if b == [] {
      assert a + b == a;
    } else {
      assert (a + b)[..|a + b| - 1] == a + b[..|b| - 1];
      LinesConcat(a, b[..|b| - 1]);
    }
  }

  lemma Without(s: seq<KeyValue>, j: nat) returns (a: seq<KeyValue>, b: seq<KeyValue>)
    requires j < |s|
    ensures s == a + [s[j]] + b && multiset(s) == multiset(a + b) + multiset{s[j]}
  {
    a, b := s[..j], s[j + 1..];
    assert s == a + [s[j]] + b;
  }

  lemma LinesAround(a: seq<KeyValue>, x: KeyValue, b: seq<KeyValue>)
    ensures multiset(Lines(a + [x] + b)) == multiset(Lines(a + b)) + multiset{Line(x)}
  {
    LinesConcat(a + [x], b);
    LinesConcat(a, b);
    assert (a + [x])[..|a|] == a;
  }

  lemma {:induction false} LinesPermute(a: seq<KeyValue>, b: seq<KeyValue>)
    requires multiset(a) == multiset(b)
    ensures multiset(Lines(a)) == multiset(Lines(b))
    decreases |a|
  {
    if a == [] {
      assert |multiset(b)| == 0;
    } else {
      assert a[0] in multiset(b);
      var j :| 0 <= j < |b| && b[j] == a[0];
      var a1, a2 := Without(a, 0);
      var b1, b2 := Without(b, j);
      assert multiset(a1 + a2) == multiset(a) - multiset{a[0]};
      LinesPermute(a1 + a2, b1 + b2);
      LinesAround(a1, a[0], a2);
      LinesAround(b1, a[0], b2);
    }
  }

  method RunMaps(mapf: MapFn, ihash: HashFn, nReduce: nat, files: seq<File>)
    returns (outputs: seq<seq<Option<seq<KeyValue>>>>)
    requires nReduce > 0
    ensures MapsDone(mapf, ihash, nReduce, files, outputs)
  {
    outputs := [];
    for m := 0 to |files|
      invariant MapsDone(mapf, ihash, nReduce, files[..m], outputs)
    {
      var output := MapTask(mapf, ihash, nReduce, files[m]);
      outputs := outputs + [output];
    }
    assert files[..|files|] == files;
  }

  /** Output files that reduce the buckets hold, together, the lines of any reduction of
      everything. */
  lemma BucketLines(reducef: ReduceFn, ihash: HashFn, nReduce: nat, kvs: seq<KeyValue>, outs: seq<seq<KeyValue>>, out: seq<KeyValue>)
    requires nReduce > 0 && |outs| == nReduce && IsReduction(reducef, kvs, out)
    requires forall r | 0 <= r < nReduce :: IsReduction(reducef, Bucket(ihash, nReduce, kvs, r), outs[r])
    ensures IsReduction(reducef, kvs, Flatten(outs))
    ensures multiset(Lines(Flatten(outs))) == multiset(Lines(out))
  {
    PartitionedReduction(reducef, ihash, nReduce, kvs, outs);
    ReductionUnique(reducef, kvs, Flatten(outs), out);
    LinesPermute(Flatten(outs), out);
  }

  /** Whatever the order and the number of attempts: once every map task has left its
      buckets and every reduce task has reduced its column, the output files together
      hold exactly the lines that the sequential program writes. */
  lemma SameLines(mapf: MapFn, reducef: ReduceFn, ihash: HashFn, nReduce: nat, files: seq<File>,
                  outputs: seq<seq<Option<seq<KeyValue>>>>, outs: seq<seq<KeyValue>>, out: seq<KeyValue>)
    requires nReduce > 0 && MapsDone(mapf, ihash, nReduce, files, outputs) && |outs| == nReduce
    requires forall r | 0 <= r < nReduce :: IsReduction(reducef, Gathered(Column(outputs, r)), outs[r])
    requires IsReduction(reducef, Mapped(mapf, files), out)
    ensures IsReduction(reducef, Mapped(mapf, files), Flatten(outs))
    ensures multiset(Lines(Flatten(outs))) == multiset(Lines(out))
  {
    var kvs := Mapped(mapf, files);
    forall r | 0 <= r < nReduce ensures IsReduction(reducef, Bucket(ihash, nReduce, kvs, r), outs[r]) {
      GatheredIsBucket(mapf, ihash, nReduce, files, outputs, r);
    }
    BucketLines(reducef, ihash, nReduce, kvs, outs, out);
  }

  method RunReduces(reducef: ReduceFn, nReduce: nat, outputs: seq<seq<Option<seq<KeyValue>>>>) returns (outs: seq<seq<KeyValue>>)
    requires OrderInsensitive(reducef)
    requires forall m | 0 <= m < |outputs| :: |outputs[m]| == nReduce
    ensures |outs| == nReduce
    ensures forall r | 0 <= r < nReduce :: IsReduction(reducef, Gathered(Column(outputs, r)), outs[r])
  {
    outs := [];
    for r := 0 to nReduce
      invariant |outs| == r
      invariant forall k | 0 <= k < r :: IsReduction(reducef, Gathered(Column(outputs, k)), outs[k])
    {
      var reduced := ReduceTask(reducef, Column(outputs, r));
      outs := outs + [reduced];
    }
  }

  /** A distributed run beside a sequential one. */
  method RunBoth(mapf: MapFn, reducef: ReduceFn, ihash: HashFn, nReduce: nat, files: seq<File>)
    returns (outs: seq<seq<KeyValue>>, out: seq<KeyValue>)
    requires nReduce > 0 && OrderInsensitive(reducef)
    ensures |outs| == nReduce && IsReduction(reducef, Mapped(mapf, files), Flatten(outs))
    ensures multiset(Lines(Flatten(outs))) == multiset(Lines(out))
  {
    out := Sequential(mapf, reducef, files);
    var outputs := RunMaps(mapf, ihash, nReduce, files);
    outs := RunReduces(reducef, nReduce, outputs);
    SameLines(mapf, reducef, ihash, nReduce, files, outputs, outs, out);
  }
}
