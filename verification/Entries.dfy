/** Turning recorded operations into the time-ordered entries the search works on. */
module Entries {
  import opened Collections
  import opened Linearizability
  import opened Histories
  import opened Sorting

  /** By time; at equal times calls come before returns. */
  predicate Less<I, O>(a: Entry<I, O>, b: Entry<I, O>) {
    if a.time != b.time then a.time < b.time else a.Call? && b.Return?
  }

  function CallOf<I, O>(ops: seq<Operation<I, O>>, id: nat): Entry<I, O>
    requires id < |ops|
  {
    Call(id, ops[id].input, ops[id].call, ops[id].clientId)
  }

  function ReturnOf<I, O>(ops: seq<Operation<I, O>>, id: nat): Entry<I, O>
    requires id < |ops|
  {
    Return(id, ops[id].output, ops[id].ret, ops[id].clientId)
  }

  ghost predicate Timely<I, O>(ops: seq<Operation<I, O>>) {
    forall i | 0 <= i < |ops| :: ops[i].call <= ops[i].ret
  }

  /** Exactly the calls and returns of the operations, in order of time. */
  ghost predicate EntriesOf<I, O>(ops: seq<Operation<I, O>>, h: seq<Entry<I, O>>) {
    && |h| == 2 * |ops|
    && Distinct(h)
    && Sorted(h, Less)
    && (forall k | 0 <= k < |h| :: h[k].id < |ops| && (h[k] == CallOf(ops, h[k].id) || h[k] == ReturnOf(ops, h[k].id)))
    && (forall id: nat | id < |ops| :: CallOf(ops, id) in h && ReturnOf(ops, id) in h)
  }

  /** Entry `k` of the unsorted list: the operations' calls and returns alternate. */
  function Alternating<I, O>(ops: seq<Operation<I, O>>, k: nat): Entry<I, O>
    requires k < 2 * |ops|
  {
    if k % 2 == 0 then CallOf(ops, k / 2) else ReturnOf(ops, k / 2)
  }

  method ListEntries<I, O>(ops: seq<Operation<I, O>>) returns (entries: seq<Entry<I, O>>)
    ensures |entries| == 2 * |ops|
    ensures forall k | 0 <= k < |entries| :: entries[k] == Alternating(ops, k)
  {
    entries := [];
    for id := 0 to |ops|
      invariant |entries| == 2 * id
      invariant forall k | 0 <= k < |entries| :: entries[k] == Alternating(ops, k)
    {
      entries := entries + [CallOf(ops, id)];
      entries := entries + [ReturnOf(ops, id)];
    }
  }

  method MakeEntries<I(!new), O(!new)>(ops: seq<Operation<I, O>>) returns (h: seq<Entry<I, O>>)
    ensures EntriesOf(ops, h)
    ensures WellFormed(h) <==> Timely(ops)
  {
    var entries := ListEntries(ops);
    h := Sort(entries, Less);
    SortedEntries(ops, entries, h);
    if Timely(ops) { EntriesWellFormed(ops, h); }
    if WellFormed(h) { WellFormedTimely(ops, h); }
  }

  lemma SortedEntries<I, O>(ops: seq<Operation<I, O>>, entries: seq<Entry<I, O>>, h: seq<Entry<I, O>>)
    requires |entries| == 2 * |ops|
    requires forall k | 0 <= k < |entries| :: entries[k] == Alternating(ops, k)
    requires Sorted(h, Less) && multiset(h) == multiset(entries)
    ensures EntriesOf(ops, h)
  {
    assert Distinct(entries) by {
      forall j, k | 0 <= j < k < |entries| ensures entries[j] != entries[k] {
        assert entries[j] == Alternating(ops, j) && entries[k] == Alternating(ops, k);
      }
    }
    PermutationKeeps(entries, h);
    forall k | 0 <= k < |h|
      ensures h[k].id < |ops| && (h[k] == CallOf(ops, h[k].id) || h[k] == ReturnOf(ops, h[k].id))
    {
      assert h[k] in entries;
      var j :| 0 <= j < |entries| && entries[j] == h[k];
      assert h[k] == Alternating(ops, j);
    }
    forall id: nat | id < |ops| ensures CallOf(ops, id) in h && ReturnOf(ops, id) in h {
      assert entries[2 * id] == Alternating(ops, 2 * id) && entries[2 * id + 1] == Alternating(ops, 2 * id + 1);
      assert CallOf(ops, id) in entries && ReturnOf(ops, id) in entries;
    }
  }

  lemma EntriesWellFormed<I(!new), O(!new)>(ops: seq<Operation<I, O>>, h: seq<Entry<I, O>>)
    requires EntriesOf(ops, h) && Timely(ops)
    ensures WellFormed(h)
  {
    forall j, k | 0 <= j < k < |h| && h[j].id == h[k].id ensures h[j].Call? && h[k].Return? {
      assert h[j] != h[k] && !Less(h[k], h[j]);
    }
    forall id: nat | id < |h| / 2 ensures Complete(h, id) {
      assert CallOf(ops, id) in h && ReturnOf(ops, id) in h;
      var c :| 0 <= c < |h| && h[c] == CallOf(ops, id);
      var r :| 0 <= r < |h| && h[r] == ReturnOf(ops, id);
      assert IsCall(h, c, id) && IsReturn(h, r, id);
    }
  }

  /** An operation recorded as returning before its call spoils the history. */
  lemma WellFormedTimely<I(!new), O(!new)>(ops: seq<Operation<I, O>>, h: seq<Entry<I, O>>)
    requires EntriesOf(ops, h) && WellFormed(h)
    ensures Timely(ops)
  {
    forall i | 0 <= i < |ops| ensures ops[i].call <= ops[i].ret { CallsFirst(ops, h, i); }
  }

  lemma CallsFirst<I(!new), O(!new)>(ops: seq<Operation<I, O>>, h: seq<Entry<I, O>>, i: nat)
    requires EntriesOf(ops, h) && WellFormed(h) && i < |ops|
    ensures ops[i].call <= ops[i].ret
  {
    EntryAt(ops, h, i);
    var c, r := CallPos(h, i), ReturnPos(h, i);
    Positions(h, c);
    assert !Less(h[r], h[c]);
  }

  lemma EntryAt<I(!new), O(!new)>(ops: seq<Operation<I, O>>, h: seq<Entry<I, O>>, id: nat)
    requires EntriesOf(ops, h) && WellFormed(h) && id < |ops|
    ensures id < Count(h) && h[CallPos(h, id)] == CallOf(ops, id) && h[ReturnPos(h, id)] == ReturnOf(ops, id)
  {
    assert IsCall(h, CallPos(h, id), id) && IsReturn(h, ReturnPos(h, id), id);
  }

  lemma SameOrder<I(!new), O(!new)>(ops: seq<Operation<I, O>>, h: seq<Entry<I, O>>, a: nat, b: nat)
    requires EntriesOf(ops, h) && WellFormed(h) && a < |ops| && b < |ops|
    ensures a < Count(h) && b < Count(h) && (ReturnPos(h, a) < CallPos(h, b) <==> ops[a].ret < ops[b].call)
  {
    EntryAt(ops, h, a);
    EntryAt(ops, h, b);
    var r, c := ReturnPos(h, a), CallPos(h, b);
    if r < c { assert !Less(h[c], h[r]); } else { assert !Less(h[r], h[c]); }
  }

  /** The order of the entries is exactly the real-time order of the recorded operations, so
      the sorted history poses the same problem. */
  lemma SameOperations<S(!new), I(!new), O(!new)>(m: Model<S, I, O>, ops: seq<Operation<I, O>>, h: seq<Entry<I, O>>)
    requires EntriesOf(ops, h) && WellFormed(h)
    ensures SameProblem(ProblemOf(m, h), OperationsProblem(m, ops))
    ensures Linearizable(ProblemOf(m, h)) <==> Linearizable(OperationsProblem(m, ops))
  {
    var p, q := ProblemOf(m, h), OperationsProblem(m, ops);
    forall id: nat | id < |ops| ensures p.ops[id] == q.ops[id] { EntryAt(ops, h, id); }
    assert p.ops == q.ops;
    forall a: nat, b: nat | a < |p.ops| && b < |p.ops| ensures p.before(a, b) == q.before(a, b) {
      SameOrder(ops, h, a, b);
    }
    SameLinearizations(p, q);
  }
}
