/** No job gets lost: in every interleaving a job that is still owed is somewhere in the
    coordinator, each intermediate job in exactly one place, again exactly when job names do not
    collide. And when the coordinator stops: never without a retry. */
module JobConservation {
  import opened JobIds
  import opened JobGraph
  import opened JobSafety

  // ----- tasks for workers

  /** A task that has not been reported waits, is in the channel, or is being watched. */
  ghost predicate Held(s: State, job: Job) {
    job in s.waiting || job in s.queue || job in s.watching
  }

  /** Intermediate jobs are not handed out, and the final job once at most. */
  ghost predicate IssuesOk(s: State) {
    && (forall i | 0 <= i < |s.watching| :: !s.watching[i].PseudoJob?)
    && (s.finished <==> WasIssued(s, DoneJob))
    && (forall i, j | 0 <= i < j < |s.issued| :: !(s.issued[i].job.DoneJob? && s.issued[j].job.DoneJob?))
  }

  ghost predicate AllHeld(g: Graph, s: State) {
    forall job | InGraph(g, job) && !job.PseudoJob? && job !in s.closed :: Held(s, job)
  }

  lemma InitialHeld(g: Graph)
    ensures AllHeld(g, Initial(g))
  {
    forall job | InGraph(g, job) && !job.PseudoJob? ensures job in Submitted(g) {
      SubmittedContains(g, job);
    }
  }

  lemma SubmittedContains(g: Graph, job: Job)
    requires InGraph(g, job)
    ensures job in Submitted(g)
  {
    match job
    case MapJob(m) => assert MapJobs(|g.files|)[m] == job;
    case PseudoJob(m, r) => PseudoJobsContain(g, g.nReduce, m, r);
    case ReduceJob(r) => assert Deps(g, DoneJob)[r] == job;
    case DoneJob =>
  }

  lemma TakeHeld(g: Graph, s: State, job: Job)
    requires s.queue != [] && Held(s, job) && !job.PseudoJob? && !AfterTake(g, s).stopped
    ensures Held(AfterTake(g, s), job)
  {
    var s' := AfterTake(g, s);
    if job in s.queue && job != s.queue[0] {
      var k :| 0 <= k < |s.queue| && s.queue[k] == job;
      assert s'.queue[k - 1] == job;
    }
  }

  /** No step loses a task that is still owed. */
  lemma NextHeld(g: Graph, s: State, e: Event, job: Job)
    requires Enabled(g, s, e) && !Do(g, s, e).stopped && !job.PseudoJob?
    requires job !in s.closed ==> Held(s, job)
    ensures job !in Do(g, s, e).closed ==> Held(Do(g, s, e), job)
  {
    if job !in Do(g, s, e).closed {
      match e
      case Enqueue(i) => if job in s.waiting && job != s.waiting[i] { RemoveKeepsOthers(s.waiting, i, job); }
      case Take => TakeHeld(g, s, job);
      case TimeOut(i) => if job in s.watching && job != s.watching[i] { RemoveKeepsOthers(s.watching, i, job); }
      case WatchEnds(i) => if job in s.watching && job != s.watching[i] { RemoveKeepsOthers(s.watching, i, job); }
      case Store(_) =>
      case Send(_) =>
      case Finish(_) =>
    }
  }

  lemma NextAllHeld(g: Graph, s: State, e: Event)
    requires Enabled(g, s, e) && !Do(g, s, e).stopped && AllHeld(g, s)
    ensures AllHeld(g, Do(g, s, e))
  {
    forall job | InGraph(g, job) && !job.PseudoJob? && job !in Do(g, s, e).closed ensures Held(Do(g, s, e), job) {
      NextHeld(g, s, e, job);
    }
  }

  lemma RetryWaits(s: State, i: nat)
    requires i < |s.watching|
    ensures s.watching[i] in AfterTimeOut(s, i).waiting && s.waiting <= AfterTimeOut(s, i).waiting
  {
    assert AfterTimeOut(s, i).waiting[|s.waiting|] == s.watching[i];
  }

  lemma TakeIssues(g: Graph, s: State)
    requires s.queue != [] && IssuesOk(s) && !AfterTake(g, s).stopped
    ensures IssuesOk(AfterTake(g, s))
  {
    var s' := AfterTake(g, s);
    if !s.queue[0].PseudoJob? {
      assert s'.issued[|s.issued|].job == s.queue[0];
      if WasIssued(s, DoneJob) { IssuedStays(s, s', DoneJob); }
      assert forall i | 0 <= i < |s.issued| && s.issued[i].job.DoneJob? :: WasIssued(s, DoneJob);
    }
  }

  lemma NextIssues(g: Graph, s: State, e: Event)
    requires Enabled(g, s, e) && !Do(g, s, e).stopped && IssuesOk(s)
    ensures IssuesOk(Do(g, s, e))
  {
    if e.Take? { TakeIssues(g, s); }
  }

  lemma RunStep(g: Graph, run: seq<State>, n: nat) returns (e: Event)
    requires IsRun(g, run) && 0 < n < |run|
    ensures !run[n - 1].stopped && Enabled(g, run[n - 1], e) && run[n] == Do(g, run[n - 1], e)
  {
    assert Next(g, run[n - 1], run[n - 1 + 1]);
    e :| Enabled(g, run[n - 1], e) && run[n] == Do(g, run[n - 1], e);
  }

  /** In every run, until the coordinator stops: every map, reduce and final job that is not
      done waits, is in the channel or is being watched. */
  lemma {:induction false} NothingLost(g: Graph, run: seq<State>, n: nat)
    requires IsRun(g, run) && n < |run| && !run[n].stopped
    ensures AllHeld(g, run[n]) && IssuesOk(run[n])
  {
    if n == 0 {
      InitialHeld(g);
    } else {
      var e := RunStep(g, run, n);
      NothingLost(g, run, n - 1);
      NextKeepsAll(g, run[n - 1], e);
    }
  }

  lemma NextKeepsAll(g: Graph, s: State, e: Event)
    requires Enabled(g, s, e) && !Do(g, s, e).stopped && AllHeld(g, s) && IssuesOk(s)
    ensures AllHeld(g, Do(g, s, e)) && IssuesOk(Do(g, s, e))
  {
    NextIssues(g, s, e);
    NextAllHeld(g, s, e);
  }

  // ----- where a job is

  ghost predicate Runs(s: State, job: Job) {
    Id(job) in s.jobs && s.jobs[Id(job)] == job
  }

  function One(b: bool): nat {
    if b then 1 else 0
  }

  /** How often a job is submitted, on its way into the map of running jobs, running, or done. */
  ghost function Places(s: State, job: Job): nat {
    multiset(s.waiting)[job] + multiset(s.storing)[job] + One(Runs(s, job)) + One(job in s.closed)
  }

  lemma Removed(jobs: seq<Job>, i: nat)
    requires i < |jobs|
    ensures multiset(RemoveAt(jobs, i)) == multiset(jobs) - multiset{jobs[i]}
  {
    assert jobs == jobs[..i] + [jobs[i]] + jobs[i + 1..];
  }

  /** A running job of this name that is about to be overwritten by another. */
  ghost predicate Displaces(s: State, e: Event, job: Job) {
    e.Store? && e.i < |s.storing| && s.storing[e.i] != job && Id(s.storing[e.i]) == Id(job) && Runs(s, job)
  }

  ghost predicate Retries(s: State, e: Event, job: Job) {
    e.TimeOut? && e.i < |s.watching| && s.watching[e.i] == job
  }

  ghost predicate JobsOk(g: Graph, s: State) {
    && AllInGraph(g, s.storing)
    && forall id | id in s.jobs :: InGraph(g, s.jobs[id]) && Id(s.jobs[id]) == id
  }

  lemma RunJobs(g: Graph, run: seq<State>, n: nat)
    requires IsRun(g, run) && n < |run|
    ensures JobsOk(g, run[n])
  {
    RunInv(g, run, n);
  }

  lemma EnqueuePlaces(s: State, i: nat, job: Job)
    requires i < |s.waiting|
    ensures Places(AfterEnqueue(s, i), job) == Places(s, job)
  {
    Removed(s.waiting, i);
    assert multiset(s.storing + [s.waiting[i]]) == multiset(s.storing) + multiset{s.waiting[i]};
  }

  lemma StorePlaces(s: State, i: nat, job: Job)
    requires i < |s.storing| && Places(s, job) <= 1
    ensures Places(AfterStore(s, i), job) == Places(s, job) - One(Displaces(s, Store(i), job))
  {
    Removed(s.storing, i);
    assert s.storing[i] in multiset(s.storing);
  }

  /** The job under `id` is ended. */
  ghost predicate Ends(s: State, s': State, id: string) {
    && id in s.jobs && s.jobs[id] !in s.closed
    && s'.jobs == s.jobs - {id} && s'.closed == s.closed + {s.jobs[id]}
    && s'.waiting == s.waiting && s'.storing == s.storing
  }

  ghost predicate Unmoved(s: State, s': State) {
    s'.jobs == s.jobs && s'.closed == s.closed && s'.waiting == s.waiting && s'.storing == s.storing
  }

  lemma FinishEnds(s: State, i: nat)
    requires i < |s.pending| && !AfterFinish(s, i).stopped && !s.stopped
    ensures Unmoved(s, AfterFinish(s, i)) || Ends(s, AfterFinish(s, i), Id(Reported(s.pending[i])))
  {
  }

  lemma EndsRuns(g: Graph, s: State, s': State, id: string, job: Job)
    requires JobsOk(g, s) && Ends(s, s', id)
    ensures Runs(s, s.jobs[id]) && (Runs(s', job) <==> Runs(s, job) && job != s.jobs[id])
  {
  }

  lemma EndsPlaces(g: Graph, s: State, s': State, id: string, job: Job)
    requires JobsOk(g, s) && Ends(s, s', id)
    ensures Places(s', job) == Places(s, job)
  {
    EndsRuns(g, s, s', id, job);
  }

  lemma UnmovedPlaces(s: State, s': State, job: Job)
    requires Unmoved(s, s')
    ensures Places(s', job) == Places(s, job)
  {
  }

  lemma FinishPlaces(g: Graph, s: State, i: nat, job: Job)
    requires JobsOk(g, s) && i < |s.pending| && !AfterFinish(s, i).stopped && !s.stopped
    ensures Places(AfterFinish(s, i), job) == Places(s, job)
  {
    var s' := AfterFinish(s, i);
    FinishEnds(s, i);
    if Unmoved(s, s') { UnmovedPlaces(s, s', job); } else { EndsPlaces(g, s, s', Id(Reported(s.pending[i])), job); }
  }

  lemma TimeOutPlaces(s: State, i: nat, job: Job)
    requires i < |s.watching| && s.watching[i] != job
    ensures Places(AfterTimeOut(s, i), job) == Places(s, job)
  {
    assert multiset(s.waiting + [s.watching[i]]) == multiset(s.waiting) + multiset{s.watching[i]};
  }

  lemma OtherUnmoved(g: Graph, s: State, e: Event)
    requires Enabled(g, s, e) && (e.Take? || e.WatchEnds? || e.Send?)
    ensures Unmoved(s, Do(g, s, e))
  {
  }

  /** A step moves a job from one place to the next, unless it is retried, or overwritten. */
  lemma NextPlaces(g: Graph, s: State, e: Event, job: Job)
    requires JobsOk(g, s) && Enabled(g, s, e) && !Do(g, s, e).stopped && !Retries(s, e, job) && Places(s, job) <= 1
    ensures Places(Do(g, s, e), job) == Places(s, job) - One(Displaces(s, e, job))
  {
    match e
    case Enqueue(i) => EnqueuePlaces(s, i, job);
    case Store(i) => StorePlaces(s, i, job);
    case TimeOut(i) => TimeOutPlaces(s, i, job);
    case Finish(i) => FinishPlaces(g, s, i, job);
    case _ =>
      OtherUnmoved(g, s, e);
      UnmovedPlaces(s, Do(g, s, e), job);
  }

  // ----- at the start every job is submitted once

  lemma {:induction false} PseudoOnce(g: Graph, n: nat, job: Job)
    ensures multiset(PseudoJobs(g, n))[job] == One(job.PseudoJob? && job.m < |g.files| && job.r < n)
  {
    if n > 0 {
      PseudoOnce(g, n - 1, job);
      var before, deps := PseudoJobs(g, n - 1), Deps(g, ReduceJob(n - 1));
      DepsOnce(g, ReduceJob(n - 1), job);
      CountBoth(before, deps, job);
    }
  }

  lemma CountBoth(a: seq<Job>, b: seq<Job>, job: Job)
    ensures multiset(a + b)[job] == multiset(a)[job] + multiset(b)[job]
  {
  }

  lemma DepsOnce(g: Graph, of: Job, job: Job)
    ensures multiset(Deps(g, of))[job] == One(job in Deps(g, of))
    ensures of.ReduceJob? ==> (job in Deps(g, of) <==> job.PseudoJob? && job.m < |g.files| && job.r == of.r)
    ensures of.DoneJob? ==> (job in Deps(g, of) <==> job.ReduceJob? && job.r < g.nReduce)
  {
    var deps := Deps(g, of);
    OnceEach(deps, job);
    match of
    case ReduceJob(r) => if job.PseudoJob? && job.m < |g.files| && job.r == r { assert deps[job.m] == job; }
    case DoneJob => if job.ReduceJob? && job.r < g.nReduce { assert deps[job.r] == job; }
    case MapJob(_) =>
    case PseudoJob(_, _) =>
  }

  lemma {:induction false} OnceEach(jobs: seq<Job>, job: Job)
    requires forall i, j | 0 <= i < j < |jobs| :: jobs[i] != jobs[j]
    ensures multiset(jobs)[job] == One(job in jobs)
  {
    if jobs != [] {
      var front := jobs[..|jobs| - 1];
      assert jobs == front + [jobs[|jobs| - 1]];
      OnceEach(front, job);
    }
  }

  lemma InitialPlaces(g: Graph, job: Job)
    ensures Places(Initial(g), job) == One(InGraph(g, job))
  {
    var maps := MapJobs(|g.files|);
    OnceEach(maps, job);
    if job.MapJob? && job.m < |g.files| { assert maps[job.m] == job; }
    PseudoOnce(g, g.nReduce, job);
    DepsOnce(g, DoneJob, job);
    assert multiset(Submitted(g))
        == multiset(maps) + multiset(PseudoJobs(g, g.nReduce)) + multiset(Deps(g, DoneJob)) + multiset{DoneJob};
  }

  // ----- intermediate jobs, in every run

  /** Another job of this name is running or done. */
  ghost predicate Displaced(g: Graph, s: State, job: Job) {
    exists other :: DisplacedBy(g, s, job, other)
  }

  ghost predicate DisplacedBy(g: Graph, s: State, job: Job, other: Job) {
    InGraph(g, other) && other != job && Id(other) == Id(job) && (Runs(s, other) || other in s.closed)
  }

  lemma StoreDisplaced(g: Graph, s: State, i: nat, job: Job, other: Job)
    requires JobsOk(g, s) && i < |s.storing| && DisplacedBy(g, s, job, other)
    ensures Displaced(g, AfterStore(s, i), job) || Runs(AfterStore(s, i), job)
  {
    var stored := s.storing[i];
    assert Runs(AfterStore(s, i), stored);
    if Id(stored) == Id(job) {
      if stored != job { assert DisplacedBy(g, AfterStore(s, i), job, stored); }
    } else {
      assert DisplacedBy(g, AfterStore(s, i), job, other);
    }
  }

  lemma EndsDisplaced(g: Graph, s: State, s': State, id: string, job: Job, other: Job)
    requires JobsOk(g, s) && Ends(s, s', id) && DisplacedBy(g, s, job, other)
    ensures DisplacedBy(g, s', job, other)
  {
    EndsRuns(g, s, s', id, other);
  }

  lemma UnmovedDisplaced(g: Graph, s: State, s': State, job: Job, other: Job)
    requires s'.jobs == s.jobs && s'.closed == s.closed && DisplacedBy(g, s, job, other)
    ensures DisplacedBy(g, s', job, other)
  {
  }

  lemma NextDisplacedBy(g: Graph, s: State, e: Event, job: Job, other: Job)
    requires JobsOk(g, s) && Enabled(g, s, e) && !Do(g, s, e).stopped && DisplacedBy(g, s, job, other)
    ensures Displaced(g, Do(g, s, e), job) || Runs(Do(g, s, e), job)
  {
    match e
    case Store(i) => StoreDisplaced(g, s, i, job, other);
    case Finish(i) =>
      FinishEnds(s, i);
      if Unmoved(s, Do(g, s, e)) {
        UnmovedDisplaced(g, s, Do(g, s, e), job, other);
      } else {
        EndsDisplaced(g, s, Do(g, s, e), Id(Reported(s.pending[i])), job, other);
      }
    case _ => UnmovedDisplaced(g, s, Do(g, s, e), job, other);
  }

  lemma NextDisplaced(g: Graph, s: State, e: Event, job: Job)
    requires JobsOk(g, s) && Enabled(g, s, e) && !Do(g, s, e).stopped
    requires Displaced(g, s, job) || Displaces(s, e, job)
    ensures Displaced(g, Do(g, s, e), job) || Runs(Do(g, s, e), job)
  {
    if Displaces(s, e, job) {
      assert DisplacedBy(g, AfterStore(s, e.i), job, s.storing[e.i]);
    } else {
      var other :| DisplacedBy(g, s, job, other);
      NextDisplacedBy(g, s, e, job, other);
    }
  }

  /** An intermediate job is submitted, on its way into the map, running, or done, in just one
      of these places, unless another job of its name has taken its place. */
  ghost predicate InPlace(g: Graph, s: State, job: Job) {
    Places(s, job) <= 1 && (Places(s, job) == 1 || Displaced(g, s, job))
  }

  lemma PseudoStep(g: Graph, s: State, e: Event, job: Job)
    requires JobsOk(g, s) && IssuesOk(s) && Enabled(g, s, e) && !Do(g, s, e).stopped && job.PseudoJob? && InPlace(g, s, job)
    ensures InPlace(g, Do(g, s, e), job)
  {
    NextPlaces(g, s, e, job);
    if Displaced(g, s, job) || Displaces(s, e, job) { NextDisplaced(g, s, e, job); }
  }

  lemma InitialInPlace(g: Graph, job: Job)
    requires InGraph(g, job)
    ensures InPlace(g, Initial(g), job)
  {
    InitialPlaces(g, job);
  }

  lemma PseudoAfter(g: Graph, run: seq<State>, n: nat, s': State, e: Event, job: Job)
    requires IsRun(g, run) && n < |run| && Enabled(g, run[n], e) && s' == Do(g, run[n], e) && !s'.stopped
    requires job.PseudoJob? && InPlace(g, run[n], job)
    ensures InPlace(g, s', job)
  {
    RunJobs(g, run, n);
    NothingLost(g, run, n);
    PseudoStep(g, run[n], e, job);
  }

  /** In every run, until the coordinator stops. */
  lemma {:induction false} PseudoPlaces(g: Graph, run: seq<State>, n: nat, job: Job)
    requires IsRun(g, run) && n < |run| && !run[n].stopped && job.PseudoJob? && InGraph(g, job)
    ensures InPlace(g, run[n], job)
  {
    if n == 0 {
      InitialInPlace(g, job);
    } else {
      var e := RunStep(g, run, n);
      PseudoPlaces(g, run, n - 1, job);
      PseudoAfter(g, run, n - 1, run[n], e, job);
    }
  }

  /** What must hold of an intermediate job that is not done. */
  ghost predicate StillOwed(s: State, job: Job) {
    job in s.waiting || job in s.storing || Runs(s, job)
  }

  ghost predicate PseudoOwed(g: Graph, s: State) {
    forall job: Job | job.PseudoJob? && InGraph(g, job) && job !in s.closed :: StillOwed(s, job)
  }

  lemma SmallOwed(g: Graph, run: seq<State>, n: nat)
    requires IsRun(g, run) && n < |run| && !run[n].stopped && PairKeysDistinct(|g.files|, g.nReduce)
    ensures PseudoOwed(g, run[n])
  {
    forall job: Job | job.PseudoJob? && InGraph(g, job) && job !in run[n].closed ensures StillOwed(run[n], job) {
      PseudoPlaces(g, run, n, job);
      if Displaced(g, run[n], job) {
        var other :| DisplacedBy(g, run[n], job, other);
        SameId(g, other, job);
      }
    }
  }

  /** A job submitted as the i-th enters the channel and the map of running jobs. */
  lemma EnterJob(g: Graph, run: seq<State>, job: Job) returns (run': seq<State>)
    requires IsRun(g, run) && job in run[|run| - 1].waiting && Deps(g, job) == []
    requires var s := run[|run| - 1]; !s.stopped && s.storing == [] && |s.queue| < QUEUE_SIZE
    ensures IsRun(g, run')
    ensures var s, s' := run[|run| - 1], run'[|run'| - 1];
            && multiset(s'.waiting) == multiset(s.waiting) - multiset{job}
            && s' == s.(waiting := s'.waiting, queue := s.queue + [job], jobs := s.jobs[Id(job) := job])
  {
    var s := run[|run| - 1];
    var i := WaitingIndex(s, job);
    run' := Extend(g, run, Enqueue(i));
    Removed(s.waiting, i);
    assert AfterEnqueue(s, i).storing == [job];
    run' := Extend(g, run', Store(0));
    assert RemoveAt([job], 0) == [];
  }

  /** Two jobs of one name entered one after the other: the first is gone. */
  lemma SecondOverwrites(g: Graph, s0: State, s1: State, s2: State, first: Job, second: Job)
    requires multiset(s0.waiting)[first] == 1 && multiset(s1.waiting) == multiset(s0.waiting) - multiset{first}
    requires multiset(s2.waiting) == multiset(s1.waiting) - multiset{second} && s2.storing == []
    requires Id(first) in s2.jobs && s2.jobs[Id(first)] == second != first
    ensures !StillOwed(s2, first)
  {
    assert first !in multiset(s2.waiting);
  }

  /** From twelve files and eleven reduce tasks on, an intermediate job can be overwritten. */
  lemma Overwritten(g: Graph) returns (run: seq<State>)
    requires |g.files| > 11 && g.nReduce > 10
    ensures IsRun(g, run) && !run[|run| - 1].stopped && !PseudoOwed(g, run[|run| - 1])
  {
    var first, second := PseudoJob(11, 0), PseudoJob(1, 10);
    run := [Initial(g)];
    SubmittedContains(g, first);
    SubmittedContains(g, second);
    run := EnterJob(g, run, first);
    var s1 := run[|run| - 1];
    assert second in multiset(s1.waiting);
    run := EnterJob(g, run, second);
    Collision();
    InitialPlaces(g, first);
    SecondOverwrites(g, Initial(g), s1, run[|run| - 1], first, second);
  }

  /** Every run keeps every intermediate job if and only if names do not collide. */
  lemma PseudoOwedIff(g: Graph)
    ensures (forall run: seq<State>, n: nat | IsRun(g, run) && n < |run| && !run[n].stopped :: PseudoOwed(g, run[n]))
            <==> g.nReduce <= 10 || |g.files| <= 11
  {
    PairKeysDistinctIff(|g.files|, g.nReduce);
    if g.nReduce <= 10 || |g.files| <= 11 {
      forall run: seq<State>, n: nat | IsRun(g, run) && n < |run| && !run[n].stopped ensures PseudoOwed(g, run[n]) {
        SmallOwed(g, run, n);
      }
    } else {
      var run := Overwritten(g);
      assert !PseudoOwed(g, run[|run| - 1]);
    }
  }

  // ----- without retries

  ghost predicate QuietNext(g: Graph, s: State, s': State) {
    exists e: Event :: Enabled(g, s, e) && !e.TimeOut? && s' == Do(g, s, e)
  }

  /** A run in which no job times out. */
  ghost predicate IsQuietRun(g: Graph, run: seq<State>) {
    && run != [] && run[0] == Initial(g)
    && forall i | 0 <= i < |run| - 1 :: QuietNext(g, run[i], run[i + 1])
  }

  lemma QuietIsRun(g: Graph, run: seq<State>)
    requires IsQuietRun(g, run)
    ensures IsRun(g, run)
  {
    forall i | 0 <= i < |run| - 1 ensures Next(g, run[i], run[i + 1]) {
      assert QuietNext(g, run[i], run[i + 1]);
    }
  }

  /** The final job has been submitted, is in the channel, or was handed out. */
  ghost function DonePlaces(s: State): nat {
    multiset(s.waiting)[DoneJob] + multiset(s.queue)[DoneJob] + One(s.finished)
  }

  lemma EnqueueDone(s: State, i: nat)
    requires i < |s.waiting|
    ensures DonePlaces(AfterEnqueue(s, i)) == DonePlaces(s)
  {
    Removed(s.waiting, i);
    assert multiset(s.queue + [s.waiting[i]]) == multiset(s.queue) + multiset{s.waiting[i]};
  }

  lemma TakeDone(g: Graph, s: State)
    requires s.queue != [] && !s.stopped && DonePlaces(s) == 1
    ensures DonePlaces(AfterTake(g, s)) == 1 && !AfterTake(g, s).stopped
  {
    assert s.queue == [s.queue[0]] + s.queue[1..];
    assert multiset(s.queue) == multiset{s.queue[0]} + multiset(s.queue[1..]);
  }

  lemma NextDone(g: Graph, s: State, e: Event)
    requires Enabled(g, s, e) && !e.TimeOut? && DonePlaces(s) == 1
    ensures e.Take? ==> !Do(g, s, e).stopped
    ensures DonePlaces(Do(g, s, e)) == 1
  {
    if e.Enqueue? {
      EnqueueDone(s, e.i);
    } else if e.Take? {
      TakeDone(g, s);
    }
  }

  /** A report never ends a job twice, however often it is sent. */
  lemma FinishGoesOn(g: Graph, s: State, i: nat)
    requires JobsOk(g, s) && !s.stopped && i < |s.pending|
    requires forall job | InGraph(g, job) :: Places(s, job) <= 1
    ensures !AfterFinish(s, i).stopped
  {
    var reported := Reported(s.pending[i]);
    if Id(reported) in s.jobs {
      var job := s.jobs[Id(reported)];
      assert Id(job) == Id(reported) && InGraph(g, job);
      SameNames(job, reported);
      assert Places(s, job) <= 1;
    }
  }

  /** The coordinator goes on, and every job but an overwritten one is in just one place. */
  ghost predicate InOnePlace(g: Graph, s: State) {
    && !s.stopped && DonePlaces(s) == 1
    && forall job | InGraph(g, job) :: Places(s, job) <= 1 && (!job.PseudoJob? ==> Places(s, job) == 1)
  }

  lemma NextQuiet(g: Graph, s: State, e: Event)
    requires JobsOk(g, s) && Enabled(g, s, e) && !e.TimeOut? && InOnePlace(g, s)
    ensures InOnePlace(g, Do(g, s, e))
  {
    NextDone(g, s, e);
    if e.Finish? { FinishGoesOn(g, s, e.i); }
    forall job | InGraph(g, job)
      ensures Places(Do(g, s, e), job) <= 1 && (!job.PseudoJob? ==> Places(Do(g, s, e), job) == 1)
    {
      NextPlaces(g, s, e, job);
      if !job.PseudoJob? && Displaces(s, e, job) { OwnId(job, s.storing[e.i]); }
    }
  }

  lemma InitialOnePlace(g: Graph)
    ensures InOnePlace(g, Initial(g))
  {
    forall job | InGraph(g, job) ensures Places(Initial(g), job) == 1 { InitialPlaces(g, job); }
    InitialDone(g);
  }

  /** Without a retry the coordinator never stops, however often workers report. */
  lemma {:induction false} NeverStops(g: Graph, run: seq<State>, n: nat)
    requires IsQuietRun(g, run) && n < |run|
    ensures InOnePlace(g, run[n])
  {
    if n == 0 {
      InitialOnePlace(g);
    } else {
      NeverStops(g, run, n - 1);
      QuietIsRun(g, run);
      RunJobs(g, run, n - 1);
      assert QuietNext(g, run[n - 1], run[n - 1 + 1]);
      var e: Event :| Enabled(g, run[n - 1], e) && !e.TimeOut? && run[n] == Do(g, run[n - 1], e);
      NextQuiet(g, run[n - 1], e);
    }
  }

  lemma InitialDone(g: Graph)
    ensures DonePlaces(Initial(g)) == 1
  {
    InitialPlaces(g, DoneJob);
  }

  // ----- with a retry

  /** A job without dependencies, reported by `report`. */
  ghost predicate CanRetry(g: Graph, job: Job, report: Report) {
    InGraph(g, job) && Deps(g, job) == [] && Reported(report) == job && !report.BucketReport?
  }

  ghost predicate Idle(s: State) {
    !s.stopped && s.storing == [] && s.queue == [] && s.pending == []
  }

  /** The job is handed out; nothing else has happened. */
  lemma HandOut(g: Graph, job: Job, report: Report) returns (run: seq<State>)
    requires CanRetry(g, job, report)
    ensures IsRun(g, run)
    ensures var s := run[|run| - 1];
            Idle(s) && s.closed == {} && WasIssued(s, job) && s.watching == [job] && Runs(s, job)
  {
    run := [Initial(g)];
    SubmittedContains(g, job);
    run := EnterJob(g, run, job);
    var s := run[|run| - 1];
    assert s.queue == [job];
    run := Extend(g, run, Take);
    assert run[|run| - 1].issued[0].job == job;
  }

  /** It times out and waits again. */
  lemma RetryFirst(g: Graph, run: seq<State>, job: Job) returns (run': seq<State>)
    requires IsRun(g, run)
    requires var s := run[|run| - 1]; Idle(s) && s.closed == {} && WasIssued(s, job) && s.watching == [job] && Runs(s, job)
    ensures IsRun(g, run')
    ensures var s := run'[|run'| - 1]; Idle(s) && s.closed == {} && WasIssued(s, job) && job in s.waiting && Runs(s, job)
  {
    run' := Extend(g, run, TimeOut(0));
    RetryWaits(run[|run| - 1], 0);
  }

  /** A report on the job, sent and acted upon. */
  lemma SendAndFinish(g: Graph, run: seq<State>, job: Job, report: Report) returns (run': seq<State>)
    requires IsRun(g, run) && CanRetry(g, job, report)
    requires var s := run[|run| - 1]; !s.stopped && s.pending == [] && WasIssued(s, job) && Runs(s, job)
    ensures IsRun(g, run')
    ensures var s, s' := run[|run| - 1], run'[|run'| - 1];
            if job in s.closed then s'.stopped
            else s' == s.(sent := s'.sent, jobs := s'.jobs, outputs := s'.outputs, closed := s.closed + {job})
  {
    var s := run[|run| - 1];
    assert MaySend(g, s, report);
    run' := Extend(g, run, Send(report));
    assert run'[|run'| - 1].pending == [report];
    run' := Extend(g, run', Finish(0));
    assert RemoveAt([report], 0) == [];
  }

  /** It is entered again. */
  lemma EnterAgain(g: Graph, run: seq<State>, job: Job) returns (run': seq<State>)
    requires IsRun(g, run) && Deps(g, job) == []
    requires var s := run[|run| - 1]; Idle(s) && WasIssued(s, job) && job in s.waiting
    ensures IsRun(g, run')
    ensures var s, s' := run[|run| - 1], run'[|run'| - 1];
            !s'.stopped && s'.pending == [] && s'.closed == s.closed && WasIssued(s', job) && Runs(s', job)
  {
    run' := EnterJob(g, run, job);
  }

  /** With nothing to do, the final job handed out twice. */
  lemma DoneAgain(g: Graph) returns (run: seq<State>)
    requires Deps(g, DoneJob) == []
    ensures IsRun(g, run) && run[|run| - 1].stopped
  {
    run := [Initial(g)];
    run := EnterJob(g, run, DoneJob);
    assert run[|run| - 1].queue == [DoneJob];
    run := Extend(g, run, Take);
    var s := run[|run| - 1];
    assert s.watching == [DoneJob] && s.queue == [];
    run := Extend(g, run, TimeOut(0));
    RetryWaits(s, 0);
    run := EnterJob(g, run, DoneJob);
    assert run[|run| - 1].queue == [DoneJob];
    run := Extend(g, run, Take);
  }

  /** On every graph a single retry can stop the coordinator: a job is reported once, entered
      again by the retry, and reported again. */
  lemma RetryMayStop(g: Graph) returns (run: seq<State>)
    ensures IsRun(g, run) && run[|run| - 1].stopped
  {
    if g.files == [] && g.nReduce == 0 {
      run := DoneAgain(g);
    } else {
      var job, report := if g.files != [] then MapJob(0) else ReduceJob(0), if g.files != [] then MapReport(0) else ReduceReport(0);
      run := HandOut(g, job, report);
      run := RetryFirst(g, run, job);
      run := SendAndFinish(g, run, job, report);
      run := EnterAgain(g, run, job);
      run := SendAndFinish(g, run, job, report);
    }
  }
}
