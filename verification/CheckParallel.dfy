/** One worker per partition and a collector that folds their results.

    Two views. `Cluster` is a state machine whose steps are a worker finishing, the collector
    receiving a result, the timeout firing and the final draining: its runs are all the
    interleavings. `CheckParallel` is the collector itself, with the results arriving in an
    arbitrary order. */
module Parallel {
  import opened Collections
  import opened Linearizability
  import opened Histories
  import opened Checker
  import opened Search

  datatype CheckResult = Unknown | Ok | Illegal

  // ----- one worker

  /** What is kept for one partition: legal prefixes, and, when the worker was left to finish
      and rejected, the longest ones. */
  ghost predicate Report<S(!new), I(!new), O(!new)>(
      model: Model<S, I, O>, h: seq<Entry<I, O>>, computeInfo: bool, longest: seq<Option<seq<nat>>>, finished: bool)
    requires WellFormed(h)
  {
    var p := ProblemOf(model, h);
    && LongestValid(p, longest)
    && (computeInfo && finished && !Linearizable(p) ==> Maximal(p, longest))
  }

  ghost predicate NoneSet(looks: seq<bool>) {
    forall t | 0 <= t < |looks| :: !looks[t]
  }

  /** A worker may return this, its looks at the kill flag having found `looks`. */
  ghost predicate Returns<S(!new), I(!new), O(!new)>(
      model: Model<S, I, O>, h: seq<Entry<I, O>>, computeInfo: bool, looks: seq<bool>, ok: bool, longest: seq<Option<seq<nat>>>)
    requires WellFormed(h)
  {
    && (ok ==> Linearizable(ProblemOf(model, h)))
    && (!ok && NoneSet(looks) ==> !Linearizable(ProblemOf(model, h)))
    && Report(model, h, computeInfo, longest, ok || NoneSet(looks))
  }

  /** The search promises it, whatever it finds the flag to be at each look. */
  method Work<S(!new), I(!new), O(!new)>(model: Model<S, I, O>, h: seq<Entry<I, O>>, computeInfo: bool, kill: nat -> bool)
    returns (ok: bool, longest: seq<Option<seq<nat>>>, ghost looks: seq<bool>)
    requires Coherent(model) && WellFormed(h)
    ensures Returns(model, h, computeInfo, looks, ok, longest)
    ensures forall t | 0 <= t < |looks| :: looks[t] == kill(t)
  {
    ghost var loads;
    ok, longest, loads := CheckSingle(model, h, computeInfo, kill);
    looks := seq(loads, t requires 0 <= t < loads => kill(t));
    assert NoneSet(looks) ==> Quiet(kill, loads) by {
      if NoneSet(looks) {
        forall t: nat | t < loads ensures !kill(t) { assert looks[t] == kill(t); }
      }
    }
  }

  method RunWorker<S(!new), I(!new), O(!new)>(model: Model<S, I, O>, h: seq<Entry<I, O>>, computeInfo: bool)
    returns (ok: bool, longest: seq<Option<seq<nat>>>)
    requires Coherent(model) && WellFormed(h)
    ensures ok <==> Linearizable(ProblemOf(model, h))
    ensures Report(model, h, computeInfo, longest, true)
  {
    ghost var looks;
    ok, longest, looks := Work(model, h, computeInfo, (t: nat) => false);
  }

  /** Which partitions are linearizable. */
  ghost function Truth<S(!new), I(!new), O(!new)>(model: Model<S, I, O>, history: seq<seq<Entry<I, O>>>): (lin: seq<bool>)
    requires forall i | 0 <= i < |history| :: WellFormed(history[i])
    ensures |lin| == |history|
    ensures forall i | 0 <= i < |history| :: lin[i] == Linearizable(ProblemOf(model, history[i]))
  {
    seq(|history|, i requires 0 <= i < |history| => Linearizable(ProblemOf(model, history[i])))
  }

  // ----- every interleaving

  /** A worker at work has looked at the kill flag and found `looks`. A result waits in the
      channel from `Sent` until it is received. */
  datatype Worker = Running(looks: seq<bool>) | Sent(ok: bool) | Received(ok: bool, folded: bool)

  datatype Cluster = Cluster(workers: seq<Worker>, kill: bool, ok: bool, timedOut: bool, count: nat, collecting: bool)

  ghost predicate Init(n: nat, s: Cluster) {
    && |s.workers| == n
    && (forall i | 0 <= i < n :: s.workers[i] == Running([]))
    && !s.kill && s.ok && !s.timedOut && s.count == 0 && s.collecting
  }

  /** A worker looks at the kill flag. */
  ghost predicate Look(s: Cluster, s': Cluster, i: nat) {
    && i < |s.workers|
    && s.workers[i].Running?
    && s' == s.(workers := s.workers[i := Running(s.workers[i].looks + [s.kill])])
  }

  /** A worker stops with a result that the search may return after these looks. */
  ghost predicate Finish<S(!new), I(!new), O(!new)>(
      model: Model<S, I, O>, history: seq<seq<Entry<I, O>>>, computeInfo: bool, s: Cluster, s': Cluster, i: nat, ok: bool,
      longest: seq<Option<seq<nat>>>)
  {
    && i < |s.workers| == |history|
    && s.workers[i].Running?
    && WellFormed(history[i])
    && Returns(model, history[i], computeInfo, s.workers[i].looks, ok, longest)
    && s' == s.(workers := s.workers[i := Sent(ok)])
  }

  /** The collector folds one result in. */
  ghost predicate Receive(computeInfo: bool, s: Cluster, s': Cluster, i: nat) {
    && i < |s.workers|
    && s.collecting
    && s.workers[i].Sent?
    && var ok, count := s.ok && s.workers[i].ok, s.count + 1;
       var stop := !ok && !computeInfo;
       s' == s.(workers := s.workers[i := Received(s.workers[i].ok, true)], ok := ok, count := count,
                kill := s.kill || stop, collecting := !stop && count < |s.workers|)
  }

  ghost predicate Timeout(s: Cluster, s': Cluster) {
    s.collecting && s' == s.(timedOut := true, kill := true, collecting := false)
  }

  /** After the loop the remaining results are received but not folded. */
  ghost predicate Drain(computeInfo: bool, s: Cluster, s': Cluster, i: nat) {
    && i < |s.workers|
    && !s.collecting && computeInfo && s.count < |s.workers|
    && s.workers[i].Sent?
    && s' == s.(workers := s.workers[i := Received(s.workers[i].ok, false)], count := s.count + 1)
  }

  ghost predicate Next<S(!new), I(!new), O(!new)>(
      model: Model<S, I, O>, history: seq<seq<Entry<I, O>>>, computeInfo: bool, s: Cluster, s': Cluster)
  {
    || (exists i :: Look(s, s', i))
    || (exists i, ok, longest :: Finish(model, history, computeInfo, s, s', i, ok, longest))
    || (exists i :: Receive(computeInfo, s, s', i))
    || Timeout(s, s')
    || (exists i :: Drain(computeInfo, s, s', i))
  }

  ghost predicate IsRun<S(!new), I(!new), O(!new)>(
      model: Model<S, I, O>, history: seq<seq<Entry<I, O>>>, computeInfo: bool, run: seq<Cluster>)
  {
    && run != []
    && Init(|history|, run[0])
    && forall k | 0 <= k < |run| - 1 :: Next(model, history, computeInfo, run[k], run[k + 1])
  }

  function Verdict(s: Cluster): CheckResult {
    if !s.ok then Illegal else if s.timedOut then Unknown else Ok
  }

  ghost predicate Folded(s: Cluster, i: nat) {
    i < |s.workers| && s.workers[i].Received? && s.workers[i].folded
  }

  ghost function FoldedSet(s: Cluster): set<nat> {
    set i: nat | i < |s.workers| && Folded(s, i)
  }

  /** The flag is set only on leaving the loop, so no worker saw it set while it was not. */
  ghost predicate LooksOk(s: Cluster) {
    !s.kill ==> forall i | 0 <= i < |s.workers| && s.workers[i].Running? :: NoneSet(s.workers[i].looks)
  }

  /** Of those folded in, only `last` is not linearizable. */
  ghost predicate OnlyBadFolded(lin: seq<bool>, s: Cluster, last: nat) {
    last < |lin| && Folded(s, last) && forall i: nat | i < |lin| && Folded(s, i) :: lin[i] <==> i != last
  }

  ghost predicate ClusterInv(lin: seq<bool>, computeInfo: bool, s: Cluster) {
    && |s.workers| == |lin|
    && LooksOk(s)
    && (s.kill ==> !s.collecting)
    && (s.collecting ==> !s.timedOut && s.count == |FoldedSet(s)|)
    && (forall i | 0 <= i < |lin| && s.workers[i].Sent? :: s.workers[i].ok ==> lin[i])
    && (forall i | 0 <= i < |lin| && s.workers[i].Sent? :: s.collecting && !s.workers[i].ok ==> !lin[i])
    && (forall i | 0 <= i < |lin| && Folded(s, i) :: s.workers[i].ok == lin[i])
    && (s.ok <==> forall i | 0 <= i < |lin| && Folded(s, i) :: s.workers[i].ok)
    && (!s.collecting && !s.timedOut && (s.ok || computeInfo) ==> |FoldedSet(s)| == |lin|)
    && (s.collecting ==> s.ok || computeInfo)
    && (!s.ok && !computeInfo ==> !s.timedOut && exists last :: OnlyBadFolded(lin, s, last))
  }

  lemma InitKeeps(lin: seq<bool>, computeInfo: bool, s: Cluster)
    requires Init(|lin|, s)
    ensures ClusterInv(lin, computeInfo, s)
  {
    assert FoldedSet(s) == {};
  }

  /** One worker moved, and was not and is not folded. */
  lemma SameFolded(s: Cluster, s': Cluster, i: nat)
    requires i < |s.workers| == |s'.workers| && s'.workers == s.workers[i := s'.workers[i]]
    requires !Folded(s, i) && !Folded(s', i)
    ensures FoldedSet(s') == FoldedSet(s) && forall j: nat :: Folded(s', j) <==> Folded(s, j)
    ensures forall lin, last | OnlyBadFolded(lin, s, last) :: OnlyBadFolded(lin, s', last)
  {
    assert forall j: nat :: Folded(s', j) <==> Folded(s, j);
  }

  lemma LookKeeps(lin: seq<bool>, computeInfo: bool, s: Cluster, s': Cluster, i: nat)
    requires ClusterInv(lin, computeInfo, s) && Look(s, s', i)
    ensures ClusterInv(lin, computeInfo, s')
  {
    SameFolded(s, s', i);
  }

  /** A result sent while the flag is not set is the truth. */
  lemma SentIsTrue<S(!new), I(!new), O(!new)>(
      model: Model<S, I, O>, history: seq<seq<Entry<I, O>>>, computeInfo: bool, s: Cluster, s': Cluster, i: nat, ok: bool,
      longest: seq<Option<seq<nat>>>)
    requires forall j | 0 <= j < |history| :: WellFormed(history[j])
    requires LooksOk(s) && Finish(model, history, computeInfo, s, s', i, ok, longest)
    ensures ok ==> Truth(model, history)[i]
    ensures !ok && !s.kill ==> !Truth(model, history)[i]
  {
  }

  lemma FinishKeeps(lin: seq<bool>, computeInfo: bool, s: Cluster, s': Cluster, i: nat, ok: bool)
    requires ClusterInv(lin, computeInfo, s) && i < |s.workers| && s.workers[i].Running?
    requires (ok ==> lin[i]) && (!ok && !s.kill ==> !lin[i])
    requires s' == s.(workers := s.workers[i := Sent(ok)])
    ensures ClusterInv(lin, computeInfo, s')
  {
    SameFolded(s, s', i);
  }

  lemma ReceiveKeeps(lin: seq<bool>, computeInfo: bool, s: Cluster, s': Cluster, i: nat)
    requires ClusterInv(lin, computeInfo, s) && Receive(computeInfo, s, s', i)
    ensures ClusterInv(lin, computeInfo, s')
  {
    assert forall j: nat :: Folded(s', j) <==> Folded(s, j) || j == i;
    assert FoldedSet(s') == FoldedSet(s) + {i};
    assert i !in FoldedSet(s);
    FoldedBound(s');
    if !s'.ok && !computeInfo { assert OnlyBadFolded(lin, s', i); }
  }

  lemma FoldedBound(s: Cluster)
    ensures |FoldedSet(s)| <= |s.workers|
  {
    assert FoldedSet(s) <= AllIds(|s.workers|);
    SubsetBound(FoldedSet(s), AllIds(|s.workers|));
  }

  lemma DrainKeeps(lin: seq<bool>, computeInfo: bool, s: Cluster, s': Cluster, i: nat)
    requires ClusterInv(lin, computeInfo, s) && Drain(computeInfo, s, s', i)
    ensures ClusterInv(lin, computeInfo, s')
  {
    SameFolded(s, s', i);
  }

  lemma TimeoutKeeps(lin: seq<bool>, computeInfo: bool, s: Cluster, s': Cluster)
    requires ClusterInv(lin, computeInfo, s) && Timeout(s, s')
    ensures ClusterInv(lin, computeInfo, s')
  {
    assert forall j: nat :: Folded(s', j) <==> Folded(s, j);
    assert FoldedSet(s') == FoldedSet(s);
  }

  lemma NextKeeps<S(!new), I(!new), O(!new)>(
      model: Model<S, I, O>, history: seq<seq<Entry<I, O>>>, computeInfo: bool, s: Cluster, s': Cluster)
    requires forall i | 0 <= i < |history| :: WellFormed(history[i])
    requires ClusterInv(Truth(model, history), computeInfo, s) && Next(model, history, computeInfo, s, s')
    ensures ClusterInv(Truth(model, history), computeInfo, s')
  {
    var lin := Truth(model, history);
    if i :| Look(s, s', i) {
      LookKeeps(lin, computeInfo, s, s', i);
    } else if i, ok, longest :| Finish(model, history, computeInfo, s, s', i, ok, longest) {
      SentIsTrue(model, history, computeInfo, s, s', i, ok, longest);
      FinishKeeps(lin, computeInfo, s, s', i, ok);
    } else if i :| Receive(computeInfo, s, s', i) {
      ReceiveKeeps(lin, computeInfo, s, s', i);
    } else if Timeout(s, s') {
      TimeoutKeeps(lin, computeInfo, s, s');
    } else {
      var i :| Drain(computeInfo, s, s', i);
      DrainKeeps(lin, computeInfo, s, s', i);
    }
  }

  lemma {:induction false} RunKeeps<S(!new), I(!new), O(!new)>(
      model: Model<S, I, O>, history: seq<seq<Entry<I, O>>>, computeInfo: bool, run: seq<Cluster>, k: nat)
    requires forall i | 0 <= i < |history| :: WellFormed(history[i])
    requires IsRun(model, history, computeInfo, run) && k < |run|
    ensures ClusterInv(Truth(model, history), computeInfo, run[k])
  {
    if k == 0 {
      InitKeeps(Truth(model, history), computeInfo, run[0]);
    } else {
      RunKeeps(model, history, computeInfo, run, k - 1);
      assert Next(model, history, computeInfo, run[k - 1], run[k - 1 + 1]);
      NextKeeps(model, history, computeInfo, run[k - 1], run[k]);
    }
  }

  /** The verdict to give on the partitions in `heard`. */
  ghost predicate RightVerdict(result: CheckResult, lin: seq<bool>, heard: set<nat>, timedOut: bool) {
    && (result == Illegal <==> exists i: nat | i < |lin| && i in heard :: !lin[i])
    && (result == Unknown <==> timedOut && forall i: nat | i < |lin| && i in heard :: lin[i])
  }

  lemma AllFolded(lin: seq<bool>, computeInfo: bool, s: Cluster)
    requires ClusterInv(lin, computeInfo, s) && !s.collecting && !s.timedOut && (computeInfo || s.ok)
    ensures FoldedSet(s) == AllIds(|lin|)
  {
    assert FoldedSet(s) <= AllIds(|lin|);
    SubsetOfSameSize(FoldedSet(s), AllIds(|lin|));
  }

  lemma VerdictOfFolded(lin: seq<bool>, computeInfo: bool, s: Cluster)
    requires ClusterInv(lin, computeInfo, s)
    ensures RightVerdict(Verdict(s), lin, FoldedSet(s), s.timedOut)
  {
    if s.ok {
      forall i: nat | i < |lin| && i in FoldedSet(s) ensures lin[i] { assert Folded(s, i); }
    } else {
      var i :| 0 <= i < |lin| && Folded(s, i) && !s.workers[i].ok;
      assert i in FoldedSet(s) && !lin[i];
    }
  }

  lemma VerdictOfCluster(lin: seq<bool>, computeInfo: bool, s: Cluster)
    requires ClusterInv(lin, computeInfo, s) && !s.collecting
    ensures RightVerdict(Verdict(s), lin, FoldedSet(s), s.timedOut)
    ensures Verdict(s) == Ok ==> forall i | 0 <= i < |lin| :: lin[i]
    ensures !s.timedOut && (computeInfo || Verdict(s) == Ok) ==> FoldedSet(s) == AllIds(|lin|)
    ensures !computeInfo && Verdict(s) == Illegal ==> !s.timedOut && exists last :: OnlyBadFolded(lin, s, last)
  {
    VerdictOfFolded(lin, computeInfo, s);
    if !s.timedOut && (computeInfo || s.ok) { AllFolded(lin, computeInfo, s); }
    if Verdict(s) == Ok {
      forall i | 0 <= i < |lin| ensures lin[i] { assert i in FoldedSet(s); }
    }
  }

  /** Whatever the interleaving, once the collector has left its loop: Illegal is answered
      exactly when a partition heard in time is not linearizable, Unknown exactly after a
      timeout with all those heard linearizable. Ok means every partition is; without a
      timeout all were heard, unless one that is not ended the loop early. */
  lemma VerdictIsTrue<S(!new), I(!new), O(!new)>(
      model: Model<S, I, O>, history: seq<seq<Entry<I, O>>>, computeInfo: bool, run: seq<Cluster>, k: nat)
    requires forall i | 0 <= i < |history| :: WellFormed(history[i])
    requires IsRun(model, history, computeInfo, run) && k < |run| && !run[k].collecting
    ensures RightVerdict(Verdict(run[k]), Truth(model, history), FoldedSet(run[k]), run[k].timedOut)
    ensures Verdict(run[k]) == Ok ==> forall i | 0 <= i < |history| :: Linearizable(ProblemOf(model, history[i]))
    ensures !run[k].timedOut && (computeInfo || Verdict(run[k]) == Ok) ==> FoldedSet(run[k]) == AllIds(|history|)
    ensures !computeInfo && Verdict(run[k]) == Illegal ==>
              !run[k].timedOut && exists last :: OnlyBadFolded(Truth(model, history), run[k], last)
  {
    RunKeeps(model, history, computeInfo, run, k);
    VerdictOfCluster(Truth(model, history), computeInfo, run[k]);
  }

  // ----- the collector

  ghost predicate Reported<S(!new), I(!new), O(!new)>(
      model: Model<S, I, O>, history: seq<seq<Entry<I, O>>>, computeInfo: bool, longest: seq<seq<Option<seq<nat>>>>, i: int, finished: bool)
    requires 0 <= i < |history| == |longest|
  {
    WellFormed(history[i]) && Report(model, history[i], computeInfo, longest[i], finished)
  }

  /** What the collector answers having heard the partitions in `heard`: a timeout is found
      before the next result and not before, without one all are heard, unless one that is
      not linearizable ends the loop early. */
  ghost predicate Answers(
      result: CheckResult, lin: seq<bool>, computeInfo: bool, timer: nat -> bool, heard: set<nat>, timedOut: bool)
  {
    && heard <= AllIds(|lin|)
    && RightVerdict(result, lin, heard, timedOut)
    && FirstFound(timer, |heard|, timedOut)
    && (!timedOut && (computeInfo || result == Ok) ==> heard == AllIds(|lin|))
    && (!computeInfo && result == Illegal ==> !timedOut && LastBad(lin, AllIds(|lin|) - heard))
  }

  ghost predicate AllReported<S(!new), I(!new), O(!new)>(
      model: Model<S, I, O>, history: seq<seq<Entry<I, O>>>, computeInfo: bool, longest: seq<seq<Option<seq<nat>>>>, waiting: set<nat>)
  {
    && |longest| == |history|
    && forall i | 0 <= i < |history| && i !in waiting :: Reported(model, history, computeInfo, longest, i, true)
  }

  ghost predicate NoTimeout(timer: nat -> bool) {
    forall c :: !timer(c)
  }

  /** All but one of those not waited for are linearizable, as when the first that is not ends
      the loop. */
  ghost predicate LastBad(lin: seq<bool>, waiting: set<nat>) {
    exists last :: OnlyBad(lin, waiting, last)
  }

  ghost predicate OnlyBad(lin: seq<bool>, waiting: set<nat>, last: nat) {
    && last < |lin| && last !in waiting
    && forall i: nat | i < |lin| && i !in waiting :: lin[i] <==> i != last
  }

  ghost predicate AllGood(lin: seq<bool>, waiting: set<nat>) {
    forall i: nat | i < |lin| && i !in waiting :: lin[i]
  }

  ghost predicate FirstFound(timer: nat -> bool, count: nat, found: bool) {
    (forall c: nat | c < count :: !timer(c)) && (found ==> timer(count))
  }

  lemma NextFound(timer: nat -> bool, count: nat)
    requires FirstFound(timer, count, false)
    ensures if timer(count) then FirstFound(timer, count, true) else FirstFound(timer, count + 1, false)
  {
  }

  /** `ok` is the conjunction of the results received so far. */
  ghost predicate Tallied(lin: seq<bool>, waiting: set<nat>, count: nat, ok: bool) {
    && waiting <= AllIds(|lin|) && count + |waiting| == |lin|
    && (ok <==> AllGood(lin, waiting))
  }

  lemma TalliedNext(lin: seq<bool>, waiting: set<nat>, count: nat, ok: bool, i: nat)
    requires Tallied(lin, waiting, count, ok) && i in waiting
    ensures Tallied(lin, waiting - {i}, count + 1, ok && lin[i])
    ensures ok && !lin[i] ==> LastBad(lin, waiting - {i})
  {
    if ok && !lin[i] { assert OnlyBad(lin, waiting - {i}, i); }
  }

  lemma ReportCarries<S(!new), I(!new), O(!new)>(
      model: Model<S, I, O>, history: seq<seq<Entry<I, O>>>, computeInfo: bool,
      before: seq<seq<Option<seq<nat>>>>, after: seq<seq<Option<seq<nat>>>>, i: int)
    requires 0 <= i < |history| == |before| == |after| && after[i] == before[i]
    requires Reported(model, history, computeInfo, before, i, true)
    ensures Reported(model, history, computeInfo, after, i, true) && Reported(model, history, computeInfo, after, i, false)
  {
  }

  /** One result is received. */
  method Hear<S(!new), I(!new), O(!new)>(
      model: Model<S, I, O>, history: seq<seq<Entry<I, O>>>, computeInfo: bool, waiting: set<nat>, i: nat,
      longest: seq<seq<Option<seq<nat>>>>)
    returns (ok: bool, longest': seq<seq<Option<seq<nat>>>>)
    requires Coherent(model) && i < |history|
    requires forall j | 0 <= j < |history| :: WellFormed(history[j])
    requires AllReported(model, history, computeInfo, longest, waiting)
    ensures ok == Truth(model, history)[i]
    ensures AllReported(model, history, computeInfo, longest', waiting - {i})
  {
    var l;
    ok, l := RunWorker(model, history[i], computeInfo);
    longest' := longest[i := l];
    forall j | 0 <= j < |history| && j !in waiting - {i} ensures Reported(model, history, computeInfo, longest', j, true) {
      if j != i { ReportCarries(model, history, computeInfo, longest, longest', j); }
    }
  }

  /** The loop that folds the results in. Results arrive in any order; `timer(c)` is whether,
      with `c` results received, the timeout is found before the next one. The kill flag is
      stored only on leaving this loop, so no worker heard here was killed. */
  method Collect<S(!new), I(!new), O(!new)>(
      model: Model<S, I, O>, history: seq<seq<Entry<I, O>>>, computeInfo: bool, timer: nat -> bool)
    returns (ok: bool, timedOut: bool, count: nat, waiting: set<nat>, longest: seq<seq<Option<seq<nat>>>>)
    requires Coherent(model) && (history == [] ==> timer(0))
    requires forall i | 0 <= i < |history| :: WellFormed(history[i])
    ensures Tallied(Truth(model, history), waiting, count, ok) && AllReported(model, history, computeInfo, longest, waiting)
    ensures FirstFound(timer, count, timedOut)
    ensures !timedOut && (ok || computeInfo) ==> waiting == {}
    ensures !ok && !computeInfo ==> !timedOut && LastBad(Truth(model, history), waiting)
    ensures history == [] ==> timedOut
  {
    ghost var lin := Truth(model, history);
    count, ok, timedOut := 0, true, false;
    waiting := AllIds(|history|);
    longest := seq(|history|, _ => []);
    while true
      invariant Tallied(lin, waiting, count, ok) && (ok || computeInfo)
      invariant waiting == {} ==> history == []
      invariant AllReported(model, history, computeInfo, longest, waiting)
      invariant FirstFound(timer, count, false)
      decreases |waiting|
    {
      NextFound(timer, count);
      if timer(count) {
        timedOut := true;
        break;
      }
      var i :| i in waiting;
      TalliedNext(lin, waiting, count, ok, i);
      var result;
      result, longest := Hear(model, history, computeInfo, waiting, i, longest);
      waiting := waiting - {i};
      count := count + 1;
      ok := ok && result;
      if !ok && !computeInfo {
        break;
      }
      if count >= |history| {
        break;
      }
    }
  }

  /** Wait for the workers not heard yet. The flag may be set by now: `late(i)` is what worker
      `i` sees of it. */
  method WaitForRest<S(!new), I(!new), O(!new)>(
      model: Model<S, I, O>, history: seq<seq<Entry<I, O>>>, computeInfo: bool, late: nat -> nat -> bool,
      waiting: set<nat>, longest: seq<seq<Option<seq<nat>>>>)
    returns (longest': seq<seq<Option<seq<nat>>>>)
    requires Coherent(model)
    requires forall i | 0 <= i < |history| :: WellFormed(history[i])
    requires waiting <= AllIds(|history|) && |longest| == |history|
    ensures |longest'| == |longest|
    ensures forall i | 0 <= i < |history| && i !in waiting :: longest'[i] == longest[i]
    ensures forall i | i in waiting :: Reported(model, history, computeInfo, longest', i, false)
  {
    longest' := longest;
    var rest := waiting;
    while rest != {}
      invariant rest <= waiting && |longest'| == |longest|
      invariant forall i | 0 <= i < |history| && i !in waiting :: longest'[i] == longest[i]
      invariant forall i | i in waiting && i !in rest :: Reported(model, history, computeInfo, longest', i, false)
      decreases |rest|
    {
      var i :| i in rest;
      var _, l, _ := Work(model, history[i], computeInfo, late(i));
      rest := rest - {i};
      longest' := longest'[i := l];
    }
  }

  /** What the loop leaves, in terms of the partitions heard. */
  lemma Heard(
      result: CheckResult, lin: seq<bool>, computeInfo: bool, timer: nat -> bool, waiting: set<nat>, count: nat, ok: bool,
      timedOut: bool)
    requires Tallied(lin, waiting, count, ok)
    requires FirstFound(timer, count, timedOut)
    requires !timedOut && (ok || computeInfo) ==> waiting == {}
    requires !ok && !computeInfo ==> !timedOut && LastBad(lin, waiting)
    requires result == if !ok then Illegal else if timedOut then Unknown else Ok
    ensures Answers(result, lin, computeInfo, timer, AllIds(|lin|) - waiting, timedOut)
  {
    HeardSet(|lin|, waiting, count);
    HeardVerdict(result, lin, waiting, ok, timedOut);
  }

  lemma HeardSet(n: nat, waiting: set<nat>, count: nat)
    requires waiting <= AllIds(n) && count + |waiting| == n
    ensures var heard := AllIds(n) - waiting;
            |heard| == count && AllIds(n) - heard == waiting && forall i: nat | i < n :: i in heard <==> i !in waiting
  {
    assert AllIds(n) == (AllIds(n) - waiting) + waiting;
  }

  lemma HeardVerdict(result: CheckResult, lin: seq<bool>, waiting: set<nat>, ok: bool, timedOut: bool)
    requires ok <==> AllGood(lin, waiting)
    requires result == if !ok then Illegal else if timedOut then Unknown else Ok
    ensures RightVerdict(result, lin, AllIds(|lin|) - waiting, timedOut)
  {
    var heard := AllIds(|lin|) - waiting;
    if !ok {
      var i: nat :| i < |lin| && i !in waiting && !lin[i];
      assert i in heard;
    }
  }

  method CheckParallel<S(!new), I(!new), O(!new)>(
      model: Model<S, I, O>, history: seq<seq<Entry<I, O>>>, computeInfo: bool, timer: nat -> bool, late: nat -> nat -> bool)
    returns (result: CheckResult, longest: seq<seq<Option<seq<nat>>>>, ghost heard: set<nat>, ghost timedOut: bool)
    requires Coherent(model) && (history == [] ==> timer(0))
    requires forall i | 0 <= i < |history| :: WellFormed(history[i])
    ensures Answers(result, Truth(model, history), computeInfo, timer, heard, timedOut)
    ensures result == Ok ==> forall i | 0 <= i < |history| :: Truth(model, history)[i]
    ensures result == Illegal ==> exists i :: 0 <= i < |history| && !Truth(model, history)[i]
    ensures NoTimeout(timer) ==> result != Unknown
    ensures history == [] ==> result == Unknown
    ensures |longest| == |history|
    ensures computeInfo ==> forall i | 0 <= i < |history| :: Reported(model, history, computeInfo, longest, i, false)
    ensures computeInfo && NoTimeout(timer) ==> forall i | 0 <= i < |history| :: Reported(model, history, computeInfo, longest, i, true)
  {
    var ok, late', count, waiting;
    ok, late', count, waiting, longest := Collect(model, history, computeInfo, timer);
    timedOut, heard := late', AllIds(|history|) - waiting;
    if computeInfo {
      ghost var before := longest;
      longest := WaitForRest(model, history, computeInfo, late, waiting, longest);
      forall i | 0 <= i < |history| && i !in waiting
        ensures Reported(model, history, computeInfo, longest, i, true)
        ensures Reported(model, history, computeInfo, longest, i, false)
      {
        ReportCarries(model, history, computeInfo, before, longest, i);
      }
    }
    result := if !ok then Illegal else if late' then Unknown else Ok;
    Heard(result, Truth(model, history), computeInfo, timer, waiting, count, ok, late');
  }
}
