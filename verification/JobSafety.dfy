/** In every interleaving, with any retries, a task is handed out only after what it
    depends on was reported: exactly when job names do not collide. */
module JobSafety {
  import opened JobIds
  import opened JobGraph

  // ----- names identify jobs

  /** Equal ids have equal types and equal keys. */
  lemma SameNames(a: Job, b: Job)
    requires Id(a) == Id(b)
    ensures JobType(a) == JobType(b) && JobKey(a) == JobKey(b)
  {
    assert Id(a)[0] == JobType(a)[0] && Id(b)[0] == JobType(b)[0];
    assert JobType(a) == JobType(b);
    ConcatSplits(JobType(a), JobKey(a), JobType(b), JobKey(b));
  }

  /** The id of any job but an intermediate one is its own. */
  lemma OwnId(a: Job, b: Job)
    requires Id(a) == Id(b) && !a.PseudoJob?
    ensures a == b
  {
    SameNames(a, b);
    match a
    case MapJob(m) => ItoaInjective(m, b.m);
    case ReduceJob(r) => ItoaInjective(r, b.r);
    case DoneJob =>
  }

  lemma SameId(g: Graph, a: Job, b: Job)
    requires PairKeysDistinct(|g.files|, g.nReduce) && InGraph(g, a) && InGraph(g, b) && Id(a) == Id(b)
    ensures a == b
  {
    if a.PseudoJob? { SameNames(a, b); } else { OwnId(a, b); }
  }

  // ----- the invariant

  ghost predicate AllInGraph(g: Graph, jobs: seq<Job>) {
    forall i | 0 <= i < |jobs| :: InGraph(g, jobs[i])
  }

  /** The output of a job came with a report that names it. */
  ghost predicate OutputReported(s: State, job: Job)
    requires job in s.outputs
  {
    exists i :: 0 <= i < |s.sent| && Id(Reported(s.sent[i])) == Id(job) && Output(s.sent[i]) == s.outputs[job]
  }

  ghost predicate SentOk(g: Graph, s: State) {
    forall i | 0 <= i < |s.sent| :: InGraph(g, Reported(s.sent[i])) && MaySend(g, s, s.sent[i])
  }

  ghost predicate QueuesOk(g: Graph, s: State) {
    && AllInGraph(g, s.waiting) && AllInGraph(g, s.storing) && AllInGraph(g, s.queue) && AllInGraph(g, s.watching)
    && (forall i | 0 <= i < |s.queue| :: Ready(g, s, s.queue[i]))
    && (forall id | id in s.jobs :: InGraph(g, s.jobs[id]) && Id(s.jobs[id]) == id)
  }

  ghost predicate ReportsOk(g: Graph, s: State) {
    && (forall job | job in s.closed :: job in s.outputs)
    && (forall job | job in s.outputs :: OutputReported(s, job))
    && (forall i | 0 <= i < |s.pending| :: s.pending[i] in s.sent)
    && SentOk(g, s)
    && (forall i | 0 <= i < |s.issued| :: InGraph(g, s.issued[i].job))
  }

  /** Some report under the key of (m, r) gave this name. */
  ghost predicate KeyReported(s: State, m: nat, r: nat, name: string) {
    exists k :: 0 <= k < |s.sent| && s.sent[k].BucketReport? && PairKey(s.sent[k].m, s.sent[k].r) == PairKey(m, r)
                && s.sent[k].output == name
  }

  /** What a task's inputs come from, whether or not keys collide. */
  ghost predicate InputsFrom(g: Graph, s: State, task: Task) {
    match task.job
    case MapJob(m) => m < |g.files| && task.filenames == [g.files[m]]
    case PseudoJob(_, _) => false
    case ReduceJob(r) =>
      && |task.filenames| == |g.files|
      && forall m: nat | m < |g.files| :: KeyReported(s, m, r, task.filenames[m])
    case DoneJob => forall r: nat | r < g.nReduce :: ReduceReport(r) in s.sent
  }

  ghost predicate Sound(g: Graph, s: State) {
    forall i | 0 <= i < |s.issued| :: InputsFrom(g, s, s.issued[i])
  }

  ghost predicate IssuedBefore(issued: seq<Task>, i: int, job: Job) {
    exists j :: 0 <= j < i && j < |issued| && issued[j].job == job
  }

  /** A map task whose key for some reduce task is the key of (m, r) comes before. */
  ghost predicate KeyBefore(g: Graph, issued: seq<Task>, i: int, m: nat, r: nat) {
    exists m': nat, r': nat ::
      m' < |g.files| && r' < g.nReduce && PairKey(m', r') == PairKey(m, r) && IssuedBefore(issued, i, MapJob(m'))
  }

  /** Map tasks come before each reduce task, and the reduce tasks before the final job. */
  ghost predicate ComesAfter(g: Graph, issued: seq<Task>, i: int)
    requires 0 <= i < |issued|
  {
    match issued[i].job
    case ReduceJob(r) => forall m: nat | m < |g.files| :: KeyBefore(g, issued, i, m, r)
    case DoneJob => forall r: nat | r < g.nReduce :: IssuedBefore(issued, i, ReduceJob(r))
    case MapJob(_) => true
    case PseudoJob(_, _) => true
  }

  ghost predicate InOrder(g: Graph, issued: seq<Task>) {
    forall i | 0 <= i < |issued| :: ComesAfter(g, issued, i)
  }

  ghost predicate Inv(g: Graph, s: State) {
    QueuesOk(g, s) && ReportsOk(g, s) && Sound(g, s) && InOrder(g, s.issued)
  }

  /** With distinct keys the inputs come from the very tasks depended on. */
  lemma SoundIsSafe(g: Graph, s: State)
    requires Inv(g, s) && PairKeysDistinct(|g.files|, g.nReduce)
    ensures Safe(g, s)
  {
    forall i | 0 <= i < |s.issued| ensures InputsReported(g, s, s.issued[i]) {
      var task := s.issued[i];
      assert InputsFrom(g, s, task);
      if task.job.ReduceJob? {
        forall m: nat | m < |g.files| ensures BucketReport(m, task.job.r, task.filenames[m]) in s.sent {
          assert KeyReported(s, m, task.job.r, task.filenames[m]);
          var k :| 0 <= k < |s.sent| && s.sent[k].BucketReport? && s.sent[k].output == task.filenames[m]
                   && PairKey(s.sent[k].m, s.sent[k].r) == PairKey(m, task.job.r);
          assert InGraph(g, Reported(s.sent[k])) && InGraph(g, task.job);
          assert s.sent[k] == BucketReport(m, task.job.r, task.filenames[m]);
        }
      }
    }
  }

  lemma RemoveKeepsAll(g: Graph, jobs: seq<Job>, i: nat)
    requires i < |jobs| && AllInGraph(g, jobs)
    ensures AllInGraph(g, RemoveAt(jobs, i))
  {
  }

  lemma {:induction false} PseudoJobsInGraph(g: Graph, n: nat)
    requires n <= g.nReduce
    ensures AllInGraph(g, PseudoJobs(g, n))
  {
    if n > 0 { PseudoJobsInGraph(g, n - 1); }
  }

  lemma InitialInv(g: Graph)
    ensures Inv(g, Initial(g))
  {
    PseudoJobsInGraph(g, g.nReduce);
  }

  lemma MaySendGrows(g: Graph, s: State, s': State, report: Report)
    requires MaySend(g, s, report) && s.issued <= s'.issued
    ensures MaySend(g, s', report)
  {
    var job := if report.ReduceReport? then ReduceJob(report.r) else MapJob(report.m);
    var i :| 0 <= i < |s.issued| && s.issued[i].job == job;
    assert s'.issued[i].job == job;
  }

  lemma SentOkGrows(g: Graph, s: State, s': State)
    requires SentOk(g, s) && s.sent == s'.sent && s.issued <= s'.issued
    ensures SentOk(g, s')
  {
    forall i | 0 <= i < |s'.sent| ensures MaySend(g, s', s'.sent[i]) { MaySendGrows(g, s, s', s.sent[i]); }
  }

  lemma EnqueueInv(g: Graph, s: State, i: nat)
    requires Inv(g, s) && Enabled(g, s, Enqueue(i))
    ensures Inv(g, AfterEnqueue(s, i))
  {
    var s' := AfterEnqueue(s, i);
    RemoveKeepsAll(g, s.waiting, i);
    forall k | 0 <= k < |s'.queue| ensures Ready(g, s', s'.queue[k]) {
      assert Ready(g, s, s'.queue[k]);
    }
    SameRest(g, s, s');
  }

  lemma SoundGrows(g: Graph, s: State, s': State)
    requires Sound(g, s) && s'.issued == s.issued && s.sent <= s'.sent
    ensures Sound(g, s')
  {
    forall i | 0 <= i < |s'.issued| ensures InputsFrom(g, s', s'.issued[i]) {
      InputsGrow(g, s, s', s.issued[i]);
    }
  }

  lemma InputsGrow(g: Graph, s: State, s': State, task: Task)
    requires InputsFrom(g, s, task) && s.sent <= s'.sent
    ensures InputsFrom(g, s', task)
  {
    assert forall report | report in s.sent :: report in s'.sent;
    if task.job.ReduceJob? {
      forall m: nat | m < |g.files| ensures KeyReported(s', m, task.job.r, task.filenames[m]) {
        assert KeyReported(s, m, task.job.r, task.filenames[m]);
        var k :| 0 <= k < |s.sent| && s.sent[k].BucketReport? && s.sent[k].output == task.filenames[m]
                 && PairKey(s.sent[k].m, s.sent[k].r) == PairKey(m, task.job.r);
        assert s'.sent[k] == s.sent[k];
      }
    }
  }

  lemma StoreInv(g: Graph, s: State, i: nat)
    requires Inv(g, s) && Enabled(g, s, Store(i))
    ensures Inv(g, AfterStore(s, i))
  {
    var s' := AfterStore(s, i);
    RemoveKeepsAll(g, s.storing, i);
    SameRest(g, s, s');
  }

  /** Parts of the invariant that depend only on reports, outputs and issued tasks. */
  lemma SameRest(g: Graph, s: State, s': State)
    requires Inv(g, s) && s'.closed == s.closed && s'.outputs == s.outputs && s'.sent == s.sent && s'.issued == s.issued
    ensures forall job | job in s'.outputs :: OutputReported(s', job)
    ensures forall job :: Ready(g, s', job) <==> Ready(g, s, job)
    ensures Sound(g, s') && SentOk(g, s')
  {
    forall job | job in s'.outputs ensures OutputReported(s', job) { assert OutputReported(s, job); }
    SoundGrows(g, s, s');
    SentOkGrows(g, s, s');
  }

  lemma TimeOutInv(g: Graph, s: State, i: nat)
    requires Inv(g, s) && Enabled(g, s, TimeOut(i))
    ensures Inv(g, AfterTimeOut(s, i))
  {
    RemoveKeepsAll(g, s.watching, i);
    SameRest(g, s, AfterTimeOut(s, i));
  }

  lemma WatchEndsInv(g: Graph, s: State, i: nat)
    requires Inv(g, s) && Enabled(g, s, WatchEnds(i))
    ensures Inv(g, s.(watching := RemoveAt(s.watching, i)))
  {
    RemoveKeepsAll(g, s.watching, i);
    SameRest(g, s, s.(watching := RemoveAt(s.watching, i)));
  }

  lemma SendInv(g: Graph, s: State, report: Report)
    requires Inv(g, s) && Enabled(g, s, Send(report))
    ensures Inv(g, Do(g, s, Send(report)))
  {
    var s' := Do(g, s, Send(report));
    assert InGraph(g, Reported(report));
    forall i | 0 <= i < |s'.sent| ensures MaySend(g, s', s'.sent[i]) { MaySendGrows(g, s, s', s'.sent[i]); }
    forall job | job in s'.outputs ensures OutputReported(s', job) {
      assert OutputReported(s, job);
      var i :| 0 <= i < |s.sent| && Id(Reported(s.sent[i])) == Id(job) && Output(s.sent[i]) == s.outputs[job];
      assert s'.sent[i] == s.sent[i];
    }
    forall i | 0 <= i < |s'.queue| ensures Ready(g, s', s'.queue[i]) { assert Ready(g, s, s.queue[i]); }
    SoundGrows(g, s, s');
  }

  lemma FinishedOutput(g: Graph, s: State, i: nat, job: Job)
    requires ReportsOk(g, s) && Enabled(g, s, Finish(i)) && job in AfterFinish(s, i).outputs
    requires forall id | id in s.jobs :: Id(s.jobs[id]) == id
    ensures OutputReported(AfterFinish(s, i), job)
  {
    var report, s' := s.pending[i], AfterFinish(s, i);
    var id := Id(Reported(report));
    if id in s.jobs && job == s.jobs[id] {
      var k :| 0 <= k < |s.sent| && s.sent[k] == report;
      assert s'.sent[k] == report && s'.outputs[job] == Output(report);
    } else {
      assert OutputReported(s, job);
    }
  }

  lemma FinishedQueues(g: Graph, s: State, i: nat)
    requires QueuesOk(g, s) && Enabled(g, s, Finish(i))
    ensures QueuesOk(g, AfterFinish(s, i))
  {
    var s' := AfterFinish(s, i);
    forall k | 0 <= k < |s'.queue| ensures Ready(g, s', s'.queue[k]) { assert Ready(g, s, s.queue[k]); }
  }

  lemma FinishedReports(g: Graph, s: State, i: nat)
    requires QueuesOk(g, s) && ReportsOk(g, s) && Enabled(g, s, Finish(i))
    ensures ReportsOk(g, AfterFinish(s, i))
  {
    var s' := AfterFinish(s, i);
    forall job | job in s'.outputs ensures OutputReported(s', job) { FinishedOutput(g, s, i, job); }
    StillPending(s, i);
    SentOkGrows(g, s, s');
  }

  lemma StillPending(s: State, i: nat)
    requires i < |s.pending| && forall k | 0 <= k < |s.pending| :: s.pending[k] in s.sent
    ensures forall k | 0 <= k < |RemoveAt(s.pending, i)| :: RemoveAt(s.pending, i)[k] in s.sent
  {
  }

  lemma FinishInv(g: Graph, s: State, i: nat)
    requires Inv(g, s) && Enabled(g, s, Finish(i))
    ensures Inv(g, AfterFinish(s, i))
  {
    FinishedReports(g, s, i);
    FinishedQueues(g, s, i);
    SoundGrows(g, s, AfterFinish(s, i));
  }

  // ----- handing out

  /** The output of a closed job came from a report under its id. */
  lemma ReportedById(g: Graph, s: State, job: Job) returns (k: nat)
    requires ReportsOk(g, s) && job in s.closed
    ensures k < |s.sent| && Id(Reported(s.sent[k])) == Id(job) && Output(s.sent[k]) == s.outputs[job]
  {
    assert OutputReported(s, job);
    k :| 0 <= k < |s.sent| && Id(Reported(s.sent[k])) == Id(job) && Output(s.sent[k]) == s.outputs[job];
  }

  lemma ReduceInputs(g: Graph, s: State, r: nat)
    requires ReportsOk(g, s) && r < g.nReduce && Ready(g, s, ReduceJob(r))
    ensures InputsFrom(g, s, Task(ReduceJob(r), Filenames(g, s, ReduceJob(r))))
  {
    var names := Filenames(g, s, ReduceJob(r));
    forall m: nat | m < |g.files| ensures KeyReported(s, m, r, names[m]) {
      assert Deps(g, ReduceJob(r))[m] == PseudoJob(m, r);
      var k := ReportedById(g, s, PseudoJob(m, r));
      SameNames(PseudoJob(m, r), Reported(s.sent[k]));
    }
  }

  lemma ReduceReported(g: Graph, s: State, r: nat)
    requires ReportsOk(g, s) && ReduceJob(r) in s.closed
    ensures ReduceReport(r) in s.sent
  {
    var k := ReportedById(g, s, ReduceJob(r));
    OwnId(ReduceJob(r), Reported(s.sent[k]));
    assert s.sent[k] == ReduceReport(r);
  }

  lemma DoneInputs(g: Graph, s: State)
    requires ReportsOk(g, s) && Ready(g, s, DoneJob)
    ensures InputsFrom(g, s, Task(DoneJob, Filenames(g, s, DoneJob)))
  {
    forall r: nat | r < g.nReduce ensures ReduceReport(r) in s.sent {
      assert Deps(g, DoneJob)[r] == ReduceJob(r);
      ReduceReported(g, s, r);
    }
  }

  lemma TaskInputs(g: Graph, s: State, job: Job)
    requires ReportsOk(g, s) && InGraph(g, job) && Ready(g, s, job) && !job.PseudoJob?
    ensures InputsFrom(g, s, Task(job, Filenames(g, s, job)))
  {
    match job
    case MapJob(m) => RoundTrip(m);
    case ReduceJob(r) => ReduceInputs(g, s, r);
    case DoneJob => DoneInputs(g, s);
  }

  lemma TakeSound(g: Graph, s: State)
    requires Inv(g, s) && Enabled(g, s, Take)
    ensures Sound(g, AfterTake(g, s))
  {
    var s' := AfterTake(g, s);
    forall i | 0 <= i < |s'.issued| ensures InputsFrom(g, s', s'.issued[i]) {
      if i < |s.issued| {
        InputsGrow(g, s, s', s.issued[i]);
      } else {
        assert Ready(g, s, s.queue[0]);
        TaskInputs(g, s, s.queue[0]);
        InputsGrow(g, s, s', s'.issued[i]);
      }
    }
  }

  lemma TakenQueues(g: Graph, s: State)
    requires QueuesOk(g, s) && Enabled(g, s, Take)
    ensures QueuesOk(g, AfterTake(g, s))
  {
    var s' := AfterTake(g, s);
    forall k | 0 <= k < |s'.queue| ensures Ready(g, s', s'.queue[k]) { assert Ready(g, s, s.queue[k + 1]); }
  }

  lemma TakenReports(g: Graph, s: State)
    requires QueuesOk(g, s) && ReportsOk(g, s) && Enabled(g, s, Take)
    ensures ReportsOk(g, AfterTake(g, s))
  {
    var s' := AfterTake(g, s);
    SentOkGrows(g, s, s');
    forall job | job in s'.outputs ensures OutputReported(s', job) { assert OutputReported(s, job); }
  }

  lemma BeforeGrows(issued: seq<Task>, task: Task, i: int, job: Job)
    requires IssuedBefore(issued, i, job) && i <= |issued|
    ensures IssuedBefore(issued + [task], i, job)
  {
    var j :| 0 <= j < i && j < |issued| && issued[j].job == job;
    assert (issued + [task])[j].job == job;
  }

  lemma AfterGrows(g: Graph, issued: seq<Task>, task: Task, i: int)
    requires 0 <= i < |issued| && ComesAfter(g, issued, i)
    ensures ComesAfter(g, issued + [task], i)
  {
    var job := issued[i].job;
    if job.ReduceJob? {
      forall m: nat | m < |g.files| ensures KeyBefore(g, issued + [task], i, m, job.r) {
        assert KeyBefore(g, issued, i, m, job.r);
        var m': nat, r': nat :| m' < |g.files| && r' < g.nReduce && PairKey(m', r') == PairKey(m, job.r)
                                && IssuedBefore(issued, i, MapJob(m'));
        BeforeGrows(issued, task, i, MapJob(m'));
      }
    } else if job.DoneJob? {
      forall r: nat | r < g.nReduce ensures IssuedBefore(issued + [task], i, ReduceJob(r)) {
        BeforeGrows(issued, task, i, ReduceJob(r));
      }
    }
  }

  lemma OrderGrows(g: Graph, issued: seq<Task>, task: Task)
    requires InOrder(g, issued) && ComesAfter(g, issued + [task], |issued|)
    ensures InOrder(g, issued + [task])
  {
    forall i | 0 <= i < |issued| + 1 ensures ComesAfter(g, issued + [task], i) {
      if i < |issued| { AfterGrows(g, issued, task, i); }
    }
  }

  lemma IssuedEarlier(s: State, task: Task, job: Job)
    requires WasIssued(s, job)
    ensures IssuedBefore(s.issued + [task], |s.issued|, job)
  {
    var j :| 0 <= j < |s.issued| && s.issued[j].job == job;
    assert (s.issued + [task])[j].job == job;
  }

  /** What a task depends on was reported, so it had been handed out. */
  lemma TaskComesAfter(g: Graph, s: State, task: Task)
    requires ReportsOk(g, s) && InputsFrom(g, s, task)
    ensures ComesAfter(g, s.issued + [task], |s.issued|)
  {
    var i := |s.issued|;
    match task.job
    case MapJob(_) =>
    case ReduceJob(r) =>
      forall m: nat | m < |g.files| ensures KeyBefore(g, s.issued + [task], i, m, r) {
        assert KeyReported(s, m, r, task.filenames[m]);
        var k :| 0 <= k < |s.sent| && s.sent[k].BucketReport? && s.sent[k].output == task.filenames[m]
                 && PairKey(s.sent[k].m, s.sent[k].r) == PairKey(m, r);
        assert InGraph(g, Reported(s.sent[k])) && MaySend(g, s, s.sent[k]);
        IssuedEarlier(s, task, MapJob(s.sent[k].m));
      }
    case DoneJob =>
      forall r: nat | r < g.nReduce ensures IssuedBefore(s.issued + [task], i, ReduceJob(r)) {
        var k :| 0 <= k < |s.sent| && s.sent[k] == ReduceReport(r);
        assert MaySend(g, s, s.sent[k]);
        IssuedEarlier(s, task, ReduceJob(r));
      }
  }

  lemma TakeOrder(g: Graph, s: State)
    requires Inv(g, s) && Enabled(g, s, Take)
    ensures InOrder(g, AfterTake(g, s).issued)
  {
    var job := s.queue[0];
    if !job.PseudoJob? {
      var task := Task(job, Filenames(g, s, job));
      assert Ready(g, s, job);
      TaskInputs(g, s, job);
      TaskComesAfter(g, s, task);
      OrderGrows(g, s.issued, task);
    }
  }

  lemma TakeInv(g: Graph, s: State)
    requires Inv(g, s) && Enabled(g, s, Take)
    ensures Inv(g, AfterTake(g, s))
  {
    TakenQueues(g, s);
    TakenReports(g, s);
    TakeSound(g, s);
    TakeOrder(g, s);
  }

  /** Every step keeps the invariant, on every graph. */
  lemma NextInv(g: Graph, s: State, e: Event)
    requires Inv(g, s) && Enabled(g, s, e)
    ensures Inv(g, Do(g, s, e))
  {
    match e
    case Enqueue(i) => EnqueueInv(g, s, i);
    case Store(i) => StoreInv(g, s, i);
    case Take => TakeInv(g, s);
    case TimeOut(i) => TimeOutInv(g, s, i);
    case WatchEnds(i) => WatchEndsInv(g, s, i);
    case Send(report) => SendInv(g, s, report);
    case Finish(i) => FinishInv(g, s, i);
  }

  lemma {:induction false} RunInv(g: Graph, run: seq<State>, n: nat)
    requires IsRun(g, run) && n < |run|
    ensures Inv(g, run[n])
  {
    if n == 0 {
      InitialInv(g);
    } else {
      RunInv(g, run, n - 1);
      assert Next(g, run[n - 1], run[n]);
      var e :| Enabled(g, run[n - 1], e) && run[n] == Do(g, run[n - 1], e);
      NextInv(g, run[n - 1], e);
    }
  }

  /** Names never collide: every task handed out has its inputs reported. */
  lemma DependenciesRespected(g: Graph, run: seq<State>, n: nat)
    requires IsRun(g, run) && n < |run| && (g.nReduce <= 10 || |g.files| <= 11)
    ensures Safe(g, run[n])
  {
    PairKeysDistinctIff(|g.files|, g.nReduce);
    RunInv(g, run, n);
    SoundIsSafe(g, run[n]);
  }

  /** On every graph: where a reduce task that was handed out is to find the bucket of map
      task `m`, it is given nothing or the file of a pair with the same key, whose map task
      was handed out earlier; with distinct keys that pair is its own. */
  lemma ReduceReadsItsBuckets(g: Graph, run: seq<State>, n: nat, i: nat, m: nat) returns (m': nat, r': nat)
    requires IsRun(g, run) && n < |run|
    requires i < |run[n].issued| && run[n].issued[i].job.ReduceJob? && m < |g.files|
    ensures m' < |g.files| && r' < g.nReduce && PairKey(m', r') == PairKey(m, run[n].issued[i].job.r)
    ensures WasIssued(run[n], MapJob(m')) && KeyBefore(g, run[n].issued, i, m, run[n].issued[i].job.r)
    ensures |run[n].issued[i].filenames| == |g.files| && run[n].issued[i].filenames[m] in {"", BucketFile(m', r')}
    ensures g.nReduce <= 10 || |g.files| <= 11 ==>
              m' == m && r' == run[n].issued[i].job.r && IssuedBefore(run[n].issued, i, MapJob(m))
  {
    RunInv(g, run, n);
    var s, task := run[n], run[n].issued[i];
    assert InputsFrom(g, s, task) && ComesAfter(g, s.issued, i) && InGraph(g, task.job);
    assert KeyReported(s, m, task.job.r, task.filenames[m]);
    var k :| 0 <= k < |s.sent| && s.sent[k].BucketReport? && s.sent[k].output == task.filenames[m]
             && PairKey(s.sent[k].m, s.sent[k].r) == PairKey(m, task.job.r);
    assert InGraph(g, Reported(s.sent[k])) && MaySend(g, s, s.sent[k]);
    m', r' := s.sent[k].m, s.sent[k].r;
    if g.nReduce <= 10 || |g.files| <= 11 {
      PairKeysDistinctIff(|g.files|, g.nReduce);
      OnlyItself(g, s.issued, i, m, task.job.r);
    }
  }

  lemma OnlyItself(g: Graph, issued: seq<Task>, i: int, m: nat, r: nat)
    requires PairKeysDistinct(|g.files|, g.nReduce) && m < |g.files| && r < g.nReduce && KeyBefore(g, issued, i, m, r)
    ensures IssuedBefore(issued, i, MapJob(m))
  {
    var m': nat, r': nat :| m' < |g.files| && r' < g.nReduce && PairKey(m', r') == PairKey(m, r)
                            && IssuedBefore(issued, i, MapJob(m'));
    assert m' == m;
  }

  /** On every graph the final job is handed out after every reduce task, each having
      reported. */
  lemma DoneComesLast(g: Graph, run: seq<State>, n: nat, i: nat, r: nat)
    requires IsRun(g, run) && n < |run|
    requires i < |run[n].issued| && run[n].issued[i].job.DoneJob? && r < g.nReduce
    ensures IssuedBefore(run[n].issued, i, ReduceJob(r)) && ReduceReport(r) in run[n].sent
  {
    RunInv(g, run, n);
    assert ComesAfter(g, run[n].issued, i) && InputsFrom(g, run[n], run[n].issued[i]);
  }

  // ----- with colliding names a reduce task starts too early

  lemma Extend(g: Graph, run: seq<State>, e: Event) returns (run': seq<State>)
    requires IsRun(g, run) && Enabled(g, run[|run| - 1], e)
    ensures IsRun(g, run') && run'[|run'| - 1] == Do(g, run[|run| - 1], e)
  {
    run' := run + [Do(g, run[|run| - 1], e)];
    forall i | 0 <= i < |run'| - 1 ensures Next(g, run'[i], run'[i + 1]) {
      if i < |run| - 1 {
        assert run'[i] == run[i] && run'[i + 1] == run[i + 1];
      } else {
        assert run'[i] == run[|run| - 1];
      }
    }
  }

  /** Map tasks below `a` are handed out, intermediate jobs of reduce task 0 are entered
      below `b` and ended below `c`, and map task 11 has not reported to reduce task 0. */
  ghost predicate Stage(g: Graph, s: State, a: nat, b: nat, c: nat) {
    && !s.stopped && s.queue == []
    && (forall k | 0 <= k < a :: WasIssued(s, MapJob(k)))
    && (forall k | a <= k < |g.files| :: MapJob(k) in s.waiting)
    && (forall k | b <= k < |g.files| :: PseudoJob(k, 0) in s.waiting)
    && (forall k | 0 <= k < c :: PseudoJob(k, 0) in s.closed)
    && (forall k | c <= k < |g.files| :: PseudoJob(k, 0) !in s.closed)
    && ReduceJob(0) in s.waiting
    && Unreported(s)
  }

  ghost predicate Unreported(s: State) {
    forall output :: BucketReport(11, 0, output) !in s.sent
  }

  lemma RemoveKeepsOthers(jobs: seq<Job>, i: nat, job: Job)
    requires i < |jobs| && job in jobs && job != jobs[i]
    ensures job in RemoveAt(jobs, i)
  {
    var k :| 0 <= k < |jobs| && jobs[k] == job;
    if k < i {
      assert RemoveAt(jobs, i)[k] == job;
    } else {
      assert RemoveAt(jobs, i)[k - 1] == job;
    }
  }

  lemma {:induction false} PseudoJobsContain(g: Graph, n: nat, m: nat, r: nat)
    requires m < |g.files| && r < n
    ensures PseudoJob(m, r) in PseudoJobs(g, n)
  {
    if r < n - 1 {
      PseudoJobsContain(g, n - 1, m, r);
    } else {
      assert Deps(g, ReduceJob(r))[m] == PseudoJob(m, r);
    }
  }

  lemma StageStart(g: Graph)
    requires g.nReduce > 0
    ensures Stage(g, Initial(g), 0, 0, 0)
  {
    forall m | 0 <= m < |g.files| ensures MapJob(m) in Submitted(g) && PseudoJob(m, 0) in Submitted(g) {
      assert MapJobs(|g.files|)[m] == MapJob(m);
      PseudoJobsContain(g, g.nReduce, m, 0);
    }
    assert Deps(g, DoneJob)[0] == ReduceJob(0);
  }

  lemma IssuedStays(s: State, s': State, job: Job)
    requires WasIssued(s, job) && s.issued <= s'.issued
    ensures WasIssued(s', job)
  {
    var i :| 0 <= i < |s.issued| && s.issued[i].job == job;
    assert s'.issued[i].job == job;
  }

  lemma WaitingIndex(s: State, job: Job) returns (i: nat)
    requires job in s.waiting
    ensures i < |s.waiting| && s.waiting[i] == job
  {
    i :| 0 <= i < |s.waiting| && s.waiting[i] == job;
  }

  /** Hand out map task `a`. */
  lemma MapStep(g: Graph, run: seq<State>, a: nat) returns (run': seq<State>)
    requires IsRun(g, run) && a < |g.files| && Stage(g, run[|run| - 1], a, 0, 0)
    ensures IsRun(g, run') && Stage(g, run'[|run'| - 1], a + 1, 0, 0)
  {
    var s := run[|run| - 1];
    var i := WaitingIndex(s, MapJob(a));
    run' := Extend(g, run, Enqueue(i));
    run' := Extend(g, run', Take);
    MapStage(g, s, i, a);
  }

  lemma MapStage(g: Graph, s: State, i: nat, a: nat)
    requires Stage(g, s, a, 0, 0) && a < |g.files| && i < |s.waiting| && s.waiting[i] == MapJob(a)
    ensures Stage(g, AfterTake(g, AfterEnqueue(s, i)), a + 1, 0, 0)
  {
    var s' := AfterTake(g, AfterEnqueue(s, i));
    assert s'.issued[|s.issued|].job == MapJob(a);
    forall k | 0 <= k < a ensures WasIssued(s', MapJob(k)) { IssuedStays(s, s', MapJob(k)); }
    WaitingKept(s, i);
  }

  /** Taking one job out of the waiting ones leaves the others. */
  lemma WaitingKept(s: State, i: nat)
    requires i < |s.waiting|
    ensures forall job | job in s.waiting && job != s.waiting[i] :: job in RemoveAt(s.waiting, i)
  {
    forall job | job in s.waiting && job != s.waiting[i] ensures job in RemoveAt(s.waiting, i) {
      RemoveKeepsOthers(s.waiting, i, job);
    }
  }

  lemma {:induction false} MapStages(g: Graph, a: nat) returns (run: seq<State>)
    requires a <= |g.files| && g.nReduce > 0
    ensures IsRun(g, run) && Stage(g, run[|run| - 1], a, 0, 0)
  {
    if a == 0 {
      run := [Initial(g)];
      StageStart(g);
    } else {
      run := MapStages(g, a - 1);
      run := MapStep(g, run, a - 1);
    }
  }

  /** Enter intermediate job `b` of reduce task 0. */
  lemma PseudoStep(g: Graph, run: seq<State>, b: nat) returns (run': seq<State>)
    requires IsRun(g, run) && b < |g.files| && Stage(g, run[|run| - 1], |g.files|, b, b)
    ensures IsRun(g, run') && Stage(g, run'[|run'| - 1], |g.files|, b + 1, b)
    ensures run'[|run'| - 1].jobs == run[|run| - 1].jobs[Id(PseudoJob(b, 0)) := PseudoJob(b, 0)]
  {
    var s := run[|run| - 1];
    var i := WaitingIndex(s, PseudoJob(b, 0));
    run' := Extend(g, run, Enqueue(i));
    run' := Extend(g, run', Store(|s.storing|));
    run' := Extend(g, run', Take);
    PseudoStage(g, s, i, b);
  }

  lemma PseudoStage(g: Graph, s: State, i: nat, b: nat)
    requires Stage(g, s, |g.files|, b, b) && b < |g.files| && i < |s.waiting| && s.waiting[i] == PseudoJob(b, 0)
    ensures Stage(g, AfterTake(g, AfterStore(AfterEnqueue(s, i), |s.storing|)), |g.files|, b + 1, b)
    ensures AfterTake(g, AfterStore(AfterEnqueue(s, i), |s.storing|)).jobs == s.jobs[Id(PseudoJob(b, 0)) := PseudoJob(b, 0)]
  {
    var s' := AfterTake(g, AfterStore(AfterEnqueue(s, i), |s.storing|));
    forall k | 0 <= k < |g.files| ensures WasIssued(s', MapJob(k)) { IssuedStays(s, s', MapJob(k)); }
    WaitingKept(s, i);
  }

  /** The report that ends intermediate job `b`: for 11 it is a report about (1, 10). */
  function Ender(b: nat): Report {
    if b == 11 then BucketReport(1, 10, "") else BucketReport(b, 0, "")
  }

  lemma EnderNames(b: nat)
    ensures Id(Reported(Ender(b))) == Id(PseudoJob(b, 0))
  {
    Collision();
  }

  ghost function Sent(s: State, report: Report): State {
    s.(sent := s.sent + [report], pending := s.pending + [report])
  }

  lemma SentStage(g: Graph, s: State, report: Report, b: nat, c: nat)
    requires Stage(g, s, |g.files|, b, c) && report.BucketReport? && !(report.m == 11 && report.r == 0)
    ensures Stage(g, Sent(s, report), |g.files|, b, c)
  {
    forall k | 0 <= k < |g.files| ensures WasIssued(Sent(s, report), MapJob(k)) { IssuedStays(s, Sent(s, report), MapJob(k)); }
  }

  /** Before it reports on bucket 10, the worker of map task 1 reports on 1 to 9; these
      reports are left pending. */
  lemma {:induction false} EarlierReports(g: Graph, run: seq<State>, b: nat, c: nat, r: nat) returns (run': seq<State>)
    requires IsRun(g, run) && |g.files| > 11 && g.nReduce > 10 && r <= 9 && Stage(g, run[|run| - 1], |g.files|, b, c)
    ensures IsRun(g, run') && Stage(g, run'[|run'| - 1], |g.files|, b, c)
    ensures run'[|run'| - 1].jobs == run[|run| - 1].jobs
  {
    run' := run;
    if r > 0 {
      run' := EarlierReports(g, run, b, c, r - 1);
      var s := run'[|run'| - 1];
      assert WasIssued(s, MapJob(1));
      SentStage(g, s, BucketReport(1, r, ""), b, c);
      run' := Extend(g, run', Send(BucketReport(1, r, "")));
    }
  }

  lemma ReportStep(g: Graph, run: seq<State>, b: nat) returns (run': seq<State>)
    requires IsRun(g, run) && |g.files| > 11 && g.nReduce > 10 && b < |g.files|
    requires Stage(g, run[|run| - 1], |g.files|, b + 1, b)
    requires Id(PseudoJob(b, 0)) in run[|run| - 1].jobs && run[|run| - 1].jobs[Id(PseudoJob(b, 0))] == PseudoJob(b, 0)
    ensures IsRun(g, run') && Stage(g, run'[|run'| - 1], |g.files|, b + 1, b + 1)
  {
    run' := EarlierReports(g, run, b + 1, b, if b == 11 then 9 else 0);
    var s := run'[|run'| - 1];
    assert WasIssued(s, MapJob(Ender(b).m));
    SentStage(g, s, Ender(b), b + 1, b);
    run' := Extend(g, run', Send(Ender(b)));
    run' := Extend(g, run', Finish(|s.pending|));
    ReportStage(g, s, b);
  }

  lemma ReportStage(g: Graph, s: State, b: nat)
    requires b < |g.files| && Stage(g, Sent(s, Ender(b)), |g.files|, b + 1, b)
    requires Id(PseudoJob(b, 0)) in s.jobs && s.jobs[Id(PseudoJob(b, 0))] == PseudoJob(b, 0)
    ensures Stage(g, AfterFinish(Sent(s, Ender(b)), |s.pending|), |g.files|, b + 1, b + 1)
  {
    var s1 := Sent(s, Ender(b));
    var s' := AfterFinish(s1, |s.pending|);
    EnderNames(b);
    forall k | 0 <= k < |g.files| ensures WasIssued(s', MapJob(k)) { IssuedStays(s1, s', MapJob(k)); }
  }

  lemma {:induction false} ReportStages(g: Graph, b: nat) returns (run: seq<State>)
    requires b <= |g.files| && |g.files| > 11 && g.nReduce > 10
    ensures IsRun(g, run) && Stage(g, run[|run| - 1], |g.files|, b, b)
  {
    if b == 0 {
      run := MapStages(g, |g.files|);
    } else {
      run := ReportStages(g, b - 1);
      run := PseudoStep(g, run, b - 1);
      run := ReportStep(g, run, b - 1);
    }
  }

  /** From twelve map tasks and eleven reduce tasks on, some run hands out reduce task 0
      although map task 11 never reported to it. */
  lemma DependenciesBroken(g: Graph) returns (run: seq<State>)
    requires |g.files| > 11 && g.nReduce > 10
    ensures IsRun(g, run) && !Safe(g, run[|run| - 1])
  {
    run := ReportStages(g, |g.files|);
    var s := run[|run| - 1];
    var i := WaitingIndex(s, ReduceJob(0));
    run := Extend(g, run, Enqueue(i));
    run := Extend(g, run, Take);
    var s' := run[|run| - 1];
    var task := s'.issued[|s.issued|];
    assert task.job == ReduceJob(0);
    assert BucketReport(11, 0, task.filenames[11]) !in s'.sent;
  }

  /** Exactly when every run respects the dependencies. */
  lemma DependenciesIff(g: Graph)
    ensures (forall run, n: nat | IsRun(g, run) && n < |run| :: Safe(g, run[n])) <==> (g.nReduce <= 10 || |g.files| <= 11)
  {
    if g.nReduce <= 10 || |g.files| <= 11 {
      forall run, n: nat | IsRun(g, run) && n < |run| ensures Safe(g, run[n]) { DependenciesRespected(g, run, n); }
    } else {
      var run := DependenciesBroken(g);
    }
  }
}
