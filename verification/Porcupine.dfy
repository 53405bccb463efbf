/** The checker's entry points: from recorded operations to a verdict. */
module Porcupine {
  import opened Collections
  import opened Linearizability
  import opened Histories
  import opened Entries
  import opened Parallel
  import opened KvStore
  import opened Locality

  /** Entries for each partition. */
  method MakeAll<I(!new), O(!new)>(partitions: seq<seq<Operation<I, O>>>) returns (l: seq<seq<Entry<I, O>>>)
    requires forall i | 0 <= i < |partitions| :: Timely(partitions[i])
    ensures |l| == |partitions|
    ensures forall i | 0 <= i < |l| :: EntriesOf(partitions[i], l[i]) && WellFormed(l[i])
  {
    l := [];
    for i := 0 to |partitions|
      invariant |l| == i
      invariant forall j | 0 <= j < i :: EntriesOf(partitions[j], l[j]) && WellFormed(l[j])
    {
      var h := MakeEntries(partitions[i]);
      l := l + [h];
    }
  }

  /** A model's partition does what a partition must: the whole is linearizable exactly when
      the parts are. */
  ghost predicate Splits<S, I, O>(model: Model<S, I, O>, partitions: seq<seq<Operation<I, O>>>, linearizable: bool) {
    linearizable <==> forall i | 0 <= i < |partitions| :: Linearizable(OperationsProblem(model, partitions[i]))
  }

  /** Which parts are linearizable. */
  ghost function PartsTruth<S(!new), I(!new), O(!new)>(model: Model<S, I, O>, partitions: seq<seq<Operation<I, O>>>): (lin: seq<bool>)
    ensures |lin| == |partitions|
    ensures forall i | 0 <= i < |partitions| :: lin[i] == Linearizable(OperationsProblem(model, partitions[i]))
  {
    seq(|partitions|, i requires 0 <= i < |partitions| => Linearizable(OperationsProblem(model, partitions[i])))
  }

  /** Check the parts of a history that has been partitioned. */
  method CheckPartitions<S(!new), I(!new), O(!new)>(
      model: Model<S, I, O>, partitions: seq<seq<Operation<I, O>>>, verbose: bool, timer: nat -> bool, late: nat -> nat -> bool,
      ghost linearizable: bool)
    returns (result: CheckResult, ghost heard: set<nat>, ghost timedOut: bool)
    requires Coherent(model) && (partitions == [] ==> timer(0))
    requires forall i | 0 <= i < |partitions| :: Timely(partitions[i])
    requires Splits(model, partitions, linearizable)
    ensures Answers(result, PartsTruth(model, partitions), verbose, timer, heard, timedOut)
    ensures result == Ok ==> linearizable
    ensures result == Illegal ==> !linearizable
    ensures NoTimeout(timer) ==> result != Unknown
    ensures partitions == [] ==> result == Unknown
  {
    var l := MakeAll(partitions);
    var longest;
    result, longest, heard, timedOut := CheckParallel(model, l, verbose, timer, late);
    forall i | 0 <= i < |l|
      ensures Truth(model, l)[i] == Linearizable(OperationsProblem(model, partitions[i]))
    {
      SameOperations(model, partitions[i], l[i]);
    }
    assert Truth(model, l) == PartsTruth(model, partitions);
  }

  /** `CheckOperations` for a model without a partition function: the history is its only
      part. */
  method CheckOperations<S(!new), I(!new), O(!new)>(model: Model<S, I, O>, history: seq<Operation<I, O>>) returns (ok: bool)
    requires Coherent(model) && Timely(history)
    ensures ok <==> Linearizable(OperationsProblem(model, history))
  {
    var timer, late := (c: nat) => false, (i: nat) => (t: nat) => false;
    ghost var linearizable := Linearizable(OperationsProblem(model, history));
    assert [history][0] == history;
    var result, _, _ := CheckPartitions(model, [history], false, timer, late, linearizable);
    ok := result == Ok;
  }

  /** The keys that occur, each once. */
  ghost predicate KeysOf(history: seq<KvOperation>, keys: seq<string>) {
    && Distinct(keys)
    && (forall i | 0 <= i < |history| :: history[i].input.key in keys)
    && (forall k | 0 <= k < |keys| :: Group(history, keys[k]) != [])
  }

  /** On which keys the operations are linearizable by themselves. */
  ghost function KeysTruth(history: seq<KvOperation>, keys: seq<string>): (lin: seq<bool>)
    ensures |lin| == |keys|
    ensures forall k | 0 <= k < |keys| :: lin[k] == Linearizable(OperationsProblem(KvModel, Group(history, keys[k])))
  {
    seq(|keys|, k requires 0 <= k < |keys| => Linearizable(OperationsProblem(KvModel, Group(history, keys[k]))))
  }

  lemma GroupsOfKeys(history: seq<KvOperation>, keys: seq<string>, groups: seq<seq<KvOperation>>)
    requires IsPartition(history, keys, groups) && Timely(history)
    ensures KeysOf(history, keys) && PartsTruth(KvModel, groups) == KeysTruth(history, keys)
    ensures forall k | 0 <= k < |groups| :: Timely(groups[k])
    ensures groups == [] <==> history == []
  {
    forall k | 0 <= k < |groups| ensures Timely(groups[k]) {
      IndicesOfGroup(history, keys[k]);
    }
    if history != [] {
      assert history[0].input.key in keys;
    } else if keys != [] {
      NothingGrouped(keys[0]);
    }
  }

  lemma NothingGrouped(key: string)
    ensures Group([], key) == []
  {
  }

  /** `CheckOperationsTimeout` for the key/value model: the per-key verdicts add up to a
      verdict on the whole store. */
  method CheckKvTimeout(history: seq<KvOperation>, verbose: bool, timer: nat -> bool, late: nat -> nat -> bool)
    returns (result: CheckResult, ghost keys: seq<string>, ghost heard: set<nat>, ghost timedOut: bool)
    requires (history == [] ==> timer(0)) && Timely(history)
    ensures KeysOf(history, keys) && Answers(result, KeysTruth(history, keys), verbose, timer, heard, timedOut)
    ensures result == Ok ==> Linearizable(OperationsProblem(StoreModel, history))
    ensures result == Illegal ==> !Linearizable(OperationsProblem(StoreModel, history))
    ensures NoTimeout(timer) ==> result != Unknown
    ensures history == [] ==> result == Unknown
  {
    var groups;
    groups, keys := Partition(history);
    PartitionIsLocal(history, keys, groups);
    KvCoherent();
    GroupsOfKeys(history, keys, groups);
    result, heard, timedOut :=
      CheckPartitions(KvModel, groups, verbose, timer, late, Linearizable(OperationsProblem(StoreModel, history)));
  }

  /** `CheckOperations` for the key/value model decides linearizability of the store; with no
      operations there is no partition to wait for and no timeout, and it does not return. */
  method CheckKvOperations(history: seq<KvOperation>) returns (ok: bool)
    requires history != [] && Timely(history)
    ensures ok <==> Linearizable(OperationsProblem(StoreModel, history))
  {
    var result, _, _, _ := CheckKvTimeout(history, false, (c: nat) => false, (i: nat) => (t: nat) => false);
    ok := result == Ok;
  }
}
