/** Where job names collide, finished runs can lose pairs: a run, for every graph of more than
    eleven files and more than ten reduce tasks, whose output files do not hold the lines of the
    sequential program. Every worker in it reports on its buckets in order, each once. */
module LostPairs {
  import opened Collections
  import opened Sorting
  import opened JobIds
  import opened JobGraph
  import opened JobSafety
  import opened MapReduce
  import opened MapReduceRuns

  // ----- the application: every file has one pair, and reducing counts

  const PAIR := KeyValue("k", "v")

  function EmitOne(name: string, content: string): seq<KeyValue> {
    [PAIR]
  }

  function Marks(n: nat): string {
    seq(n, _ => 'x')
  }

  function CountValues(key: string, values: seq<string>): string {
    Marks(|values|)
  }

  function ZeroHash(key: string): nat {
    0
  }

  function NoContent(name: string): string {
    ""
  }

  function Counting(g: Graph): Work {
    Work(EmitOne, CountValues, ZeroHash, g, NoContent)
  }

  lemma CountingInsensitive()
    ensures OrderInsensitive(CountValues)
  {
    forall key: string, a: seq<string>, b: seq<string> | multiset(a) == multiset(b)
      ensures CountValues(key, a) == CountValues(key, b)
    {
      assert |a| == |multiset(a)| == |multiset(b)| == |b|;
    }
  }

  lemma OneBucket(g: Graph, name: string, r: nat)
    requires g.nReduce > 0 && r < g.nReduce
    ensures BucketFor(Counting(g), name, r) == if r == 0 then [PAIR] else []
  {
    assert [PAIR][..0] == [];
    assert Bucket(ZeroHash, g.nReduce, [], r) == [];
  }

  ghost predicate AllPair(kvs: seq<KeyValue>) {
    forall i | 0 <= i < |kvs| :: kvs[i] == PAIR
  }

  function Reduced(kvs: seq<KeyValue>): seq<KeyValue> {
    if kvs == [] then [] else [KeyValue("k", Marks(|kvs|))]
  }

  lemma ReducedIsReduction(kvs: seq<KeyValue>)
    requires AllPair(kvs)
    ensures IsReduction(CountValues, kvs, Reduced(kvs)) && Sorted(kvs, ByKey)
  {
    AllValues(kvs, "k");
    StringLessIrreflexive("k");
    if kvs != [] {
      assert kvs[0].key == "k";
      assert Reduced(kvs)[0].key == "k";
    }
  }

  lemma {:induction false} EverythingIsPairs(files: seq<File>)
    ensures AllPair(Mapped(EmitOne, files)) && |Mapped(EmitOne, files)| == |files|
  {
    if files != [] { EverythingIsPairs(files[..|files| - 1]); }
  }

  ghost predicate Pairs(column: seq<Option<seq<KeyValue>>>) {
    forall m | 0 <= m < |column| :: column[m] == None || column[m] == Some([PAIR])
  }

  lemma {:induction false} GatheredPairs(column: seq<Option<seq<KeyValue>>>)
    requires Pairs(column)
    ensures AllPair(Gathered(column)) && |Gathered(column)| <= |column|
  {
    if column != [] { GatheredPairs(column[..|column| - 1]); }
  }

  lemma {:induction false} OneLost(column: seq<Option<seq<KeyValue>>>, lost: nat)
    requires Pairs(column) && lost < |column| && column[lost] == None
    ensures |Gathered(column)| < |column|
  {
    var front := column[..|column| - 1];
    GatheredPairs(front);
    if lost < |front| { OneLost(front, lost); }
  }

  lemma {:induction false} OneKept(column: seq<Option<seq<KeyValue>>>, kept: nat)
    requires kept < |column| && column[kept] == Some([PAIR])
    ensures |Gathered(column)| > 0
  {
    if kept < |column| - 1 { OneKept(column[..|column| - 1], kept); }
  }

  // ----- the collision

  /** Whose report ends the intermediate job of a pair. */
  function Partner(m: nat, r: nat): (nat, nat) {
    if m == 11 && r == 0 then (1, 10) else if m == 1 && r == 10 then (11, 0) else (m, r)
  }

  lemma PartnerKey(m: nat, r: nat)
    ensures Id(PseudoJob(Partner(m, r).0, Partner(m, r).1)) == Id(PseudoJob(m, r))
  {
    Collision();
  }

  function NameOf(m: nat, r: nat): string {
    if r == 0 then BucketFile(m, 0) else ""
  }

  function ReportOn(pair: (nat, nat)): Report {
    BucketReport(pair.0, pair.1, NameOf(pair.0, pair.1))
  }

  // ----- the order of a worker's reports

  /** The worker that sent the k-th report had sent its report on the bucket before. */
  ghost predicate ComesInTurn(sent: seq<Report>, k: nat)
    requires k < |sent|
  {
    sent[k].BucketReport? && sent[k].r > 0 ==>
      exists j | 0 <= j < k :: sent[j].BucketReport? && sent[j].m == sent[k].m && sent[j].r == sent[k].r - 1
  }

  ghost predicate InOrder(sent: seq<Report>) {
    forall k: nat | k < |sent| :: ComesInTurn(sent, k)
  }

  lemma OneMoreInOrder(sent: seq<Report>, report: Report)
    requires InOrder(sent)
    requires report.BucketReport? && report.r > 0 ==>
               exists before | before in sent :: before.BucketReport? && before.m == report.m && before.r == report.r - 1
    ensures InOrder(sent + [report])
  {
    forall k: nat | k < |sent| + 1 ensures ComesInTurn(sent + [report], k) {
      if k < |sent| {
        assert ComesInTurn(sent, k);
        if sent[k].BucketReport? && sent[k].r > 0 {
          var j :| 0 <= j < k && sent[j].BucketReport? && sent[j].m == sent[k].m && sent[j].r == sent[k].r - 1;
          assert (sent + [report])[j] == sent[j];
        }
      } else if report.BucketReport? && report.r > 0 {
        var before :| before in sent && before.BucketReport? && before.m == report.m && before.r == report.r - 1;
        var j :| 0 <= j < |sent| && sent[j] == before;
        assert (sent + [report])[j] == before;
      }
    }
  }

  // ----- passing one job through the channel

  lemma ExtendSite(w: Work, run: seq<Site>, e: SiteEvent) returns (run': seq<Site>)
    requires Runnable(w) && IsSiteRun(w, run) && EnabledAt(w, run[|run| - 1], e)
    ensures IsSiteRun(w, run') && run'[|run'| - 1] == After(w, run[|run| - 1], e)
  {
    run' := run + [After(w, run[|run| - 1], e)];
    forall i | 0 <= i < |run'| - 1 ensures MovesTo(w, run'[i], run'[i + 1]) {
      if i < |run| - 1 {
        assert run'[i] == run[i] && run'[i + 1] == run[i + 1];
        assert MovesTo(w, run[i], run[i + 1]);
      } else {
        assert run'[i] == run[|run| - 1];
      }
    }
  }

  ghost predicate Calm(s: State) {
    !s.stopped && !s.finished && s.storing == [] && s.queue == []
  }

  /** The first waiting job enters the channel and the map of running jobs and is taken. */
  ghost function Passed(g: Graph, s: State): State
    requires s.waiting != []
  {
    var job := s.waiting[0];
    var s' := s.(waiting := s.waiting[1..], jobs := s.jobs[Id(job) := job]);
    if job.PseudoJob? then s'
    else
      s'.(issued := s.issued + [Task(job, Filenames(g, s, job))], watching := s.watching + [job],
          finished := job.DoneJob?)
  }

  lemma PassedSteps(g: Graph, s: State)
    requires Calm(s) && s.waiting != []
    ensures var s1 := AfterEnqueue(s, 0);
            && s1.storing == [s.waiting[0]] && AfterStore(s1, 0).queue == [s.waiting[0]]
            && AfterTake(g, AfterStore(s1, 0)) == Passed(g, s)
  {
    var job, s1 := s.waiting[0], AfterEnqueue(s, 0);
    assert RemoveAt(s.waiting, 0) == s.waiting[1..];
    assert [] + [job] == [job];
    var s2 := AfterStore(s1, 0);
    assert RemoveAt([job], 0) == [];
    assert s2.queue[1..] == [];
    assert Filenames(g, s2, job) == Filenames(g, s, job);
  }

  lemma Pass(w: Work, run: seq<Site>) returns (run': seq<Site>)
    requires Runnable(w) && IsSiteRun(w, run)
    requires var s := run[|run| - 1].state; Calm(s) && s.waiting != [] && Ready(w.graph, s, s.waiting[0])
    ensures var x := run[|run| - 1]; IsSiteRun(w, run') && run'[|run'| - 1] == x.(state := Passed(w.graph, x.state))
  {
    var x := run[|run| - 1];
    PassedSteps(w.graph, x.state);
    run' := ExtendSite(w, run, Coordinate(Enqueue(0)));
    run' := ExtendSite(w, run', Coordinate(Store(0)));
    run' := ExtendSite(w, run', Coordinate(Take));
  }

  lemma FinishAt(w: Work, run: seq<Site>, i: nat) returns (run': seq<Site>)
    requires Runnable(w) && IsSiteRun(w, run)
    requires !run[|run| - 1].state.stopped && i < |run[|run| - 1].state.pending|
    ensures var x := run[|run| - 1]; IsSiteRun(w, run') && run'[|run'| - 1] == x.(state := AfterFinish(x.state, i))
  {
    run' := ExtendSite(w, run, Coordinate(Finish(i)));
  }

  // ----- first all map tasks are handed out

  ghost function MapTasks(g: Graph, n: nat): (tasks: seq<Task>)
    requires n <= |g.files|
    ensures |tasks| == n
  {
    seq(n, m requires 0 <= m < n => Task(MapJob(m), [g.files[m]]))
  }

  ghost predicate Issuing(g: Graph, x: Site, a: nat) {
    && a <= |g.files| && Calm(x.state)
    && x.state.waiting == Submitted(g)[a..]
    && x.state.issued == MapTasks(g, a)
    && x.state.sent == x.state.pending == [] && x.state.closed == {} && x.state.outputs == map[]
    && x.disk == map[] && x.out == map[]
  }

  lemma IssueNext(g: Graph, x: Site, a: nat)
    requires Issuing(g, x, a) && a < |g.files|
    ensures x.state.waiting != [] && x.state.waiting[0] == MapJob(a)
    ensures Issuing(g, x.(state := Passed(g, x.state)), a + 1)
  {
    var rest := PseudoJobs(g, g.nReduce) + Deps(g, DoneJob) + [DoneJob];
    assert Submitted(g) == MapJobs(|g.files|) + rest;
    assert Submitted(g)[a] == MapJobs(|g.files|)[a];
    assert Submitted(g)[a..][1..] == Submitted(g)[a + 1..];
    RoundTrip(a);
    assert MapTasks(g, a) + [Task(MapJob(a), [g.files[a]])] == MapTasks(g, a + 1);
  }

  lemma {:induction false} IssueAll(g: Graph, a: nat) returns (run: seq<Site>)
    requires g.nReduce > 0 && a <= |g.files|
    ensures IsSiteRun(Counting(g), run) && Issuing(g, run[|run| - 1], a)
  {
    if a == 0 {
      run := [Site(Initial(g), map[], map[])];
    } else {
      run := IssueAll(g, a - 1);
      IssueNext(g, run[|run| - 1], a - 1);
      run := Pass(Counting(g), run);
    }
  }

  // ----- then every worker writes and reports on its buckets, in order

  ghost predicate AllOnDisk(disk: map<string, seq<KeyValue>>, n: nat) {
    && (forall name | name in disk :: disk[name] == [PAIR])
    && (forall m: nat | m < n :: BucketFile(m, 0) in disk)
  }

  ghost predicate ReportedOn(pending: seq<Report>, g: Graph, m: nat, r: nat) {
    forall m': nat, r': nat | m' < |g.files| && r' < g.nReduce && (m' < m || (m' == m && r' < r)) ::
      ReportOn((m', r')) in pending
  }

  ghost predicate Reporting(g: Graph, x: Site, m: nat, r: nat) {
    && m <= |g.files| && r <= g.nReduce && Calm(x.state)
    && x.state.waiting == Submitted(g)[|g.files|..]
    && x.state.issued == MapTasks(g, |g.files|)
    && x.state.closed == {} && x.state.outputs == map[] && x.out == map[]
    && AllOnDisk(x.disk, if r == 0 then m else m + 1)
    && ReportedOn(x.state.pending, g, m, r)
    && x.state.sent == x.state.pending && InOrder(x.state.sent)
  }

  lemma WriteStep(g: Graph, run: seq<Site>, m: nat) returns (run': seq<Site>)
    requires g.nReduce > 0 && IsSiteRun(Counting(g), run) && m < |g.files| && Reporting(g, run[|run| - 1], m, 0)
    ensures IsSiteRun(Counting(g), run') && Reporting(g, run'[|run'| - 1], m, 0) && BucketFile(m, 0) in run'[|run'| - 1].disk
  {
    OneBucket(g, g.files[m], 0);
    run' := ExtendSite(Counting(g), run, WriteBucket(m, 0));
  }

  lemma ReportStep(g: Graph, run: seq<Site>, m: nat, r: nat) returns (run': seq<Site>)
    requires g.nReduce > 0 && IsSiteRun(Counting(g), run) && m < |g.files| && r < g.nReduce
    requires Reporting(g, run[|run| - 1], m, r) && (r == 0 ==> BucketFile(m, 0) in run[|run| - 1].disk)
    ensures IsSiteRun(Counting(g), run') && Reporting(g, run'[|run'| - 1], m, r + 1)
  {
    var w, x := Counting(g), run[|run| - 1];
    OneBucket(g, g.files[m], r);
    assert BucketReportOf(w, x, m, r) == ReportOn((m, r));
    run' := ExtendSite(w, run, ReportBucket(m, r));
    if r > 0 { assert ReportOn((m, r - 1)) in x.state.pending; }
    OneMoreInOrder(x.state.sent, ReportOn((m, r)));
    var pending := x.state.pending + [ReportOn((m, r))];
    forall m': nat, r': nat | m' < |g.files| && r' < g.nReduce && (m' < m || (m' == m && r' < r + 1))
      ensures ReportOn((m', r')) in pending
    {
      if m' == m && r' == r {
        assert pending[|x.state.pending|] == ReportOn((m', r'));
      } else {
        assert ReportOn((m', r')) in x.state.pending;
      }
    }
  }

  lemma {:induction false} ReportWorker(g: Graph, run: seq<Site>, m: nat, r: nat) returns (run': seq<Site>)
    requires g.nReduce > 0 && IsSiteRun(Counting(g), run) && m < |g.files| && r <= g.nReduce
    requires Reporting(g, run[|run| - 1], m, 0)
    ensures IsSiteRun(Counting(g), run') && Reporting(g, run'[|run'| - 1], m, r)
    decreases r
  {
    run' := run;
    if r > 0 {
      run' := ReportWorker(g, run, m, r - 1);
      if r == 1 { run' := WriteStep(g, run', m); }
      run' := ReportStep(g, run', m, r - 1);
    }
  }

  lemma {:induction false} ReportAll(g: Graph, m: nat) returns (run: seq<Site>)
    requires g.nReduce > 0 && m <= |g.files|
    ensures IsSiteRun(Counting(g), run) && Reporting(g, run[|run| - 1], m, 0)
  {
    if m == 0 {
      run := IssueAll(g, |g.files|);
    } else {
      run := ReportAll(g, m - 1);
      run := ReportWorker(g, run, m - 1, g.nReduce);
      assert Reporting(g, run[|run| - 1], m, 0);
    }
  }

  // ----- then the intermediate jobs are ended one by one, two of them by each other's report

  /** The intermediate jobs of reduce tasks from `r` on. */
  ghost function PseudoFrom(g: Graph, r: nat): seq<Job>
    requires r <= g.nReduce
    decreases g.nReduce - r
  {
    if r == g.nReduce then [] else Deps(g, ReduceJob(r)) + PseudoFrom(g, r + 1)
  }

  lemma {:induction false} PseudoSplit(g: Graph, r: nat)
    requires r <= g.nReduce
    ensures PseudoJobs(g, r) + PseudoFrom(g, r) == PseudoJobs(g, g.nReduce)
    decreases g.nReduce - r
  {
    if r < g.nReduce {
      PseudoSplit(g, r + 1);
      assert PseudoJobs(g, r) + (Deps(g, ReduceJob(r)) + PseudoFrom(g, r + 1))
          == (PseudoJobs(g, r) + Deps(g, ReduceJob(r))) + PseudoFrom(g, r + 1);
    }
  }

  ghost function Remaining(g: Graph, r: nat, m: nat): seq<Job>
    requires r <= g.nReduce && m <= |g.files|
  {
    if r == g.nReduce then [] else Deps(g, ReduceJob(r))[m..] + PseudoFrom(g, r + 1)
  }

  ghost predicate Earlier(m': nat, r': nat, m: nat, r: nat) {
    r' < r || (r' == r && m' < m)
  }

  ghost predicate EndedUpTo(g: Graph, s: State, r: nat, m: nat) {
    && (forall job :: job in s.closed <==> job.PseudoJob? && InGraph(g, job) && Earlier(job.m, job.r, m, r))
    && (forall m': nat, r': nat | m' < |g.files| && r' < g.nReduce && Earlier(m', r', m, r) ::
          PseudoJob(m', r') in s.outputs && s.outputs[PseudoJob(m', r')] == NameOf(Partner(m', r').0, Partner(m', r').1))
  }

  ghost predicate LeftPending(g: Graph, pending: seq<Report>, r: nat, m: nat) {
    forall m': nat, r': nat | m' < |g.files| && r' < g.nReduce && !Earlier(m', r', m, r) ::
      ReportOn(Partner(m', r')) in pending
  }

  ghost predicate Ending(g: Graph, x: Site, r: nat, m: nat) {
    && r <= g.nReduce && m <= |g.files| && Calm(x.state)
    && x.state.waiting == Remaining(g, r, m) + Deps(g, DoneJob) + [DoneJob]
    && x.state.issued == MapTasks(g, |g.files|) && x.out == map[]
    && AllOnDisk(x.disk, |g.files|)
    && EndedUpTo(g, x.state, r, m)
    && LeftPending(g, x.state.pending, r, m)
    && InOrder(x.state.sent)
  }

  lemma EndingStarts(g: Graph, x: Site)
    requires g.nReduce > 10 && |g.files| > 11 && Reporting(g, x, |g.files|, 0)
    ensures Ending(g, x, 0, 0)
  {
    PseudoSplit(g, 0);
    assert PseudoJobs(g, 0) + PseudoFrom(g, 0) == PseudoFrom(g, 0);
    assert Deps(g, ReduceJob(0))[0..] == Deps(g, ReduceJob(0));
    var rest := PseudoJobs(g, g.nReduce) + Deps(g, DoneJob) + [DoneJob];
    assert Submitted(g) == MapJobs(|g.files|) + rest;
    assert Submitted(g)[|g.files|..] == rest;
    forall m': nat, r': nat | m' < |g.files| && r' < g.nReduce ensures ReportOn(Partner(m', r')) in x.state.pending {
      assert ReportOn((Partner(m', r').0, Partner(m', r').1)) in x.state.pending;
    }
  }

  lemma RemoveKeepsReports(pending: seq<Report>, i: nat, report: Report)
    requires i < |pending| && report in pending && report != pending[i]
    ensures report in RemoveAt(pending, i)
  {
    var k :| 0 <= k < |pending| && pending[k] == report;
    assert RemoveAt(pending, i)[if k < i then k else k - 1] == report;
  }

  lemma PartnerInjective(m: nat, r: nat, m': nat, r': nat)
    requires ReportOn(Partner(m, r)) == ReportOn(Partner(m', r'))
    ensures m == m' && r == r'
  {
  }

  lemma HeadAndRest(job: Job, a: seq<Job>, b: seq<Job>, c: seq<Job>)
    ensures var s := [job] + a + b + c; s[0] == job && s[1..] == a + b + c
  {
    assert [job] + a + b + c == [job] + (a + b + c);
  }

  lemma RemainingHead(g: Graph, r: nat, m: nat)
    requires r < g.nReduce && m < |g.files|
    ensures Remaining(g, r, m) == [PseudoJob(m, r)] + Remaining(g, r, m + 1)
  {
    var deps := Deps(g, ReduceJob(r));
    assert deps[m..] == [deps[m]] + deps[m + 1..];
  }

  lemma PseudoFirst(g: Graph, waiting: seq<Job>, r: nat, m: nat)
    requires r < g.nReduce && m < |g.files| && waiting == Remaining(g, r, m) + Deps(g, DoneJob) + [DoneJob]
    ensures waiting != [] && waiting[0] == PseudoJob(m, r)
    ensures waiting[1..] == Remaining(g, r, m + 1) + Deps(g, DoneJob) + [DoneJob]
  {
    RemainingHead(g, r, m);
    HeadAndRest(PseudoJob(m, r), Remaining(g, r, m + 1), Deps(g, DoneJob), [DoneJob]);
  }

  ghost predicate Runs(s: State, job: Job) {
    Id(job) in s.jobs && s.jobs[Id(job)] == job
  }

  /** A running job's report sets its output and ends it. */
  lemma FinishedAs(s: State, i: nat, job: Job)
    requires i < |s.pending| && Runs(s, job) && Id(Reported(s.pending[i])) == Id(job) && job !in s.closed && !job.DoneJob?
    ensures AfterFinish(s, i) ==
            s.(pending := RemoveAt(s.pending, i), jobs := s.jobs - {Id(job)}, outputs := s.outputs[job := Output(s.pending[i])],
               closed := s.closed + {job})
  {
  }

  lemma EndedGrows(g: Graph, s: State, s': State, r: nat, m: nat)
    requires r < g.nReduce && m < |g.files| && EndedUpTo(g, s, r, m)
    requires s'.closed == s.closed + {PseudoJob(m, r)}
    requires s'.outputs == s.outputs[PseudoJob(m, r) := NameOf(Partner(m, r).0, Partner(m, r).1)]
    ensures EndedUpTo(g, s', r, m + 1)
  {
  }

  lemma PendingShrinks(g: Graph, pending: seq<Report>, r: nat, m: nat, i: nat)
    requires LeftPending(g, pending, r, m) && i < |pending| && pending[i] == ReportOn(Partner(m, r))
    ensures LeftPending(g, RemoveAt(pending, i), r, m + 1)
  {
    forall m': nat, r': nat | m' < |g.files| && r' < g.nReduce && !Earlier(m', r', m + 1, r)
      ensures ReportOn(Partner(m', r')) in RemoveAt(pending, i)
    {
      if ReportOn(Partner(m', r')) == pending[i] { PartnerInjective(m', r', m, r); }
      RemoveKeepsReports(pending, i, ReportOn(Partner(m', r')));
    }
  }

  /** The state after the i-th pending report ended job (m, r). */
  lemma EndedNext(g: Graph, s: State, r: nat, m: nat, i: nat)
    requires r < g.nReduce && m < |g.files| && EndedUpTo(g, s, r, m) && LeftPending(g, s.pending, r, m)
    requires Calm(s) && Runs(s, PseudoJob(m, r)) && i < |s.pending| && s.pending[i] == ReportOn(Partner(m, r))
    ensures var s' := AfterFinish(s, i);
            && Calm(s') && s'.waiting == s.waiting && s'.issued == s.issued && s'.sent == s.sent
            && EndedUpTo(g, s', r, m + 1) && LeftPending(g, s'.pending, r, m + 1)
  {
    PartnerKey(m, r);
    FinishedAs(s, i, PseudoJob(m, r));
    EndedGrows(g, s, AfterFinish(s, i), r, m);
    PendingShrinks(g, s.pending, r, m, i);
  }

  /** Job (m, r) has passed. */
  ghost predicate Entered(g: Graph, x: Site, r: nat, m: nat) {
    && r < g.nReduce && m < |g.files| && Calm(x.state) && Runs(x.state, PseudoJob(m, r))
    && x.state.waiting == Remaining(g, r, m + 1) + Deps(g, DoneJob) + [DoneJob]
    && x.state.issued == MapTasks(g, |g.files|) && x.out == map[]
    && AllOnDisk(x.disk, |g.files|)
    && EndedUpTo(g, x.state, r, m)
    && LeftPending(g, x.state.pending, r, m)
    && InOrder(x.state.sent)
  }

  lemma EnteredNext(g: Graph, x: Site, r: nat, m: nat)
    requires Ending(g, x, r, m) && r < g.nReduce && m < |g.files|
    ensures x.state.waiting != [] && Ready(g, x.state, x.state.waiting[0])
    ensures Entered(g, x.(state := Passed(g, x.state)), r, m)
  {
    PseudoFirst(g, x.state.waiting, r, m);
  }

  lemma EndedSite(g: Graph, x: Site, r: nat, m: nat, i: nat)
    requires Entered(g, x, r, m) && i < |x.state.pending| && x.state.pending[i] == ReportOn(Partner(m, r))
    ensures Ending(g, x.(state := AfterFinish(x.state, i)), r, m + 1)
  {
    EndedNext(g, x.state, r, m, i);
  }

  lemma FindReport(g: Graph, x: Site, r: nat, m: nat) returns (i: nat)
    requires Entered(g, x, r, m)
    ensures i < |x.state.pending| && x.state.pending[i] == ReportOn(Partner(m, r)) && !x.state.stopped
  {
    assert ReportOn(Partner(m, r)) in x.state.pending;
    i :| 0 <= i < |x.state.pending| && x.state.pending[i] == ReportOn(Partner(m, r));
  }

  lemma EndEntered(g: Graph, run: seq<Site>, r: nat, m: nat) returns (run': seq<Site>)
    requires g.nReduce > 0 && IsSiteRun(Counting(g), run) && Entered(g, run[|run| - 1], r, m)
    ensures IsSiteRun(Counting(g), run') && Ending(g, run'[|run'| - 1], r, m + 1)
  {
    var i := FindReport(g, run[|run| - 1], r, m);
    EndedSite(g, run[|run| - 1], r, m, i);
    run' := FinishAt(Counting(g), run, i);
  }

  lemma EndStep(g: Graph, run: seq<Site>, r: nat, m: nat) returns (run': seq<Site>)
    requires g.nReduce > 0 && IsSiteRun(Counting(g), run) && r < g.nReduce && m < |g.files| && Ending(g, run[|run| - 1], r, m)
    ensures IsSiteRun(Counting(g), run') && Ending(g, run'[|run'| - 1], r, m + 1)
  {
    EnteredNext(g, run[|run| - 1], r, m);
    run' := Pass(Counting(g), run);
    run' := EndEntered(g, run', r, m);
  }

  lemma {:induction false} EndColumn(g: Graph, run: seq<Site>, r: nat, m: nat) returns (run': seq<Site>)
    requires g.nReduce > 0 && IsSiteRun(Counting(g), run) && r < g.nReduce && m <= |g.files| && Ending(g, run[|run| - 1], r, 0)
    ensures IsSiteRun(Counting(g), run') && Ending(g, run'[|run'| - 1], r, m)
    decreases m
  {
    if m == 0 {
      run' := run;
    } else {
      var before := EndColumn(g, run, r, m - 1);
      run' := EndStep(g, before, r, m - 1);
    }
  }

  lemma NextColumn(g: Graph, x: Site, r: nat)
    requires r < g.nReduce && Ending(g, x, r, |g.files|)
    ensures Ending(g, x, r + 1, 0)
  {
    var deps := Deps(g, ReduceJob(r));
    assert deps[|g.files|..] == [];
    assert [] + PseudoFrom(g, r + 1) == PseudoFrom(g, r + 1);
    if r + 1 < g.nReduce { assert Deps(g, ReduceJob(r + 1))[0..] == Deps(g, ReduceJob(r + 1)); }
  }

  lemma EndFirst(g: Graph) returns (run: seq<Site>)
    requires g.nReduce > 10 && |g.files| > 11
    ensures IsSiteRun(Counting(g), run) && Ending(g, run[|run| - 1], 0, 0)
  {
    run := ReportAll(g, |g.files|);
    EndingStarts(g, run[|run| - 1]);
  }

  lemma EndNext(g: Graph, run: seq<Site>, r: nat) returns (run': seq<Site>)
    requires 0 < r <= g.nReduce && IsSiteRun(Counting(g), run) && Ending(g, run[|run| - 1], r - 1, 0)
    ensures IsSiteRun(Counting(g), run') && Ending(g, run'[|run'| - 1], r, 0)
  {
    run' := EndColumn(g, run, r - 1, |g.files|);
    NextColumn(g, run'[|run'| - 1], r - 1);
  }

  lemma {:induction false} EndAll(g: Graph, r: nat) returns (run: seq<Site>)
    requires g.nReduce > 10 && |g.files| > 11 && r <= g.nReduce
    ensures IsSiteRun(Counting(g), run) && Ending(g, run[|run| - 1], r, 0)
  {
    if r == 0 {
      run := EndFirst(g);
    } else {
      var before := EndAll(g, r - 1);
      run := EndNext(g, before, r);
    }
  }

  // ----- then the reduce tasks, and last the final job

  /** What reduce task 0 wrote: fewer pairs than there are, but some. */
  ghost predicate Short(g: Graph, out: map<nat, seq<KeyValue>>) {
    0 in out && exists c: nat :: 0 < c < |g.files| && out[0] == [KeyValue("k", Marks(c))]
  }

  ghost predicate NamesKept(g: Graph, s: State) {
    forall m: nat, r: nat | m < |g.files| && r < g.nReduce ::
      PseudoJob(m, r) in s.outputs && s.outputs[PseudoJob(m, r)] == NameOf(Partner(m, r).0, Partner(m, r).1)
  }

  ghost predicate Reducing(g: Graph, x: Site, r: nat) {
    && r <= g.nReduce && Calm(x.state)
    && x.state.waiting == Deps(g, DoneJob)[r..] + [DoneJob]
    && AllOnDisk(x.disk, |g.files|)
    && NamesKept(g, x.state)
    && (forall job :: job in x.state.closed <==> InGraph(g, job) && (job.PseudoJob? || (job.ReduceJob? && job.r < r)))
    && (r > 0 ==> Short(g, x.out))
    && InOrder(x.state.sent)
  }

  lemma ReducingStarts(g: Graph, x: Site)
    requires Ending(g, x, g.nReduce, 0)
    ensures Reducing(g, x, 0)
  {
    assert [] + Deps(g, DoneJob) == Deps(g, DoneJob) == Deps(g, DoneJob)[0..];
  }

  lemma ReduceFirst(g: Graph, x: Site, r: nat)
    requires Reducing(g, x, r) && r < g.nReduce
    ensures x.state.waiting != [] && x.state.waiting[0] == ReduceJob(r) && Ready(g, x.state, ReduceJob(r))
    ensures x.state.waiting[1..] == Deps(g, DoneJob)[r + 1..] + [DoneJob]
  {
    var deps := Deps(g, DoneJob);
    assert deps[r..] == [deps[r]] + deps[r + 1..];
  }

  ghost function Given(g: Graph, x: Site, r: nat): seq<Option<seq<KeyValue>>> {
    Opened(x.disk, Filenames(g, x.state, ReduceJob(r)))
  }

  lemma GivenPairs(g: Graph, x: Site, r: nat)
    requires Reducing(g, x, r) && r < g.nReduce
    ensures Pairs(Given(g, x, r)) && |Given(g, x, r)| == |g.files|
    ensures r == 0 && |g.files| > 11 && g.nReduce > 10 ==> Given(g, x, 0)[11] == None && Given(g, x, 0)[0] == Some([PAIR])
  {
    var names := Filenames(g, x.state, ReduceJob(r));
    forall m: nat | m < |g.files| ensures names[m] == NameOf(Partner(m, r).0, Partner(m, r).1) {
      assert Deps(g, ReduceJob(r))[m] == PseudoJob(m, r);
    }
    if r == 0 && |g.files| > 11 && g.nReduce > 10 {
      assert names[11] == NameOf(1, 10) == "";
      assert names[0] == NameOf(0, 0) == BucketFile(0, 0);
      assert BucketFile(0, 0)[0] == 'm';
    }
  }

  lemma GivenShort(g: Graph, x: Site)
    requires Reducing(g, x, 0) && |g.files| > 11 && g.nReduce > 10
    ensures 0 < |Gathered(Given(g, x, 0))| < |g.files|
  {
    GivenPairs(g, x, 0);
    OneLost(Given(g, x, 0), 11);
    OneKept(Given(g, x, 0), 0);
  }

  /** Reduce task `r` is handed out, as the i-th task. */
  ghost predicate HandedOut(g: Graph, x: Site, r: nat, i: nat, names: seq<string>) {
    && r < g.nReduce && Calm(x.state) && Runs(x.state, ReduceJob(r))
    && x.state.waiting == Deps(g, DoneJob)[r + 1..] + [DoneJob]
    && AllOnDisk(x.disk, |g.files|)
    && NamesKept(g, x.state)
    && (forall job :: job in x.state.closed <==> InGraph(g, job) && (job.PseudoJob? || (job.ReduceJob? && job.r < r)))
    && i < |x.state.issued| && x.state.issued[i] == Task(ReduceJob(r), names)
    && InOrder(x.state.sent)
  }

  lemma HandOut(g: Graph, run: seq<Site>, r: nat) returns (run': seq<Site>)
    requires g.nReduce > 10 && |g.files| > 11 && IsSiteRun(Counting(g), run) && r < g.nReduce && Reducing(g, run[|run| - 1], r)
    ensures var x := run[|run| - 1];
            && IsSiteRun(Counting(g), run')
            && HandedOut(g, run'[|run'| - 1], r, |x.state.issued|, Filenames(g, x.state, ReduceJob(r)))
            && run'[|run'| - 1].disk == x.disk && run'[|run'| - 1].out == x.out
  {
    ReduceFirst(g, run[|run| - 1], r);
    run' := Pass(Counting(g), run);
  }

  lemma WriteReduced(g: Graph, run: seq<Site>, r: nat, i: nat, names: seq<string>) returns (run': seq<Site>)
    requires g.nReduce > 0 && IsSiteRun(Counting(g), run) && HandedOut(g, run[|run| - 1], r, i, names)
    requires Pairs(Opened(run[|run| - 1].disk, names))
    ensures var x := run[|run| - 1];
            && IsSiteRun(Counting(g), run') && HandedOut(g, run'[|run'| - 1], r, i, names)
            && run'[|run'| - 1].out == x.out[r := Reduced(Gathered(Opened(x.disk, names)))]
  {
    var x := run[|run| - 1];
    var kvs := Gathered(Opened(x.disk, names));
    GatheredPairs(Opened(x.disk, names));
    ReducedIsReduction(kvs);
    run' := ExtendSite(Counting(g), run, WriteOut(i, kvs, Reduced(kvs)));
  }

  /** It reports, and the report ends it. */
  lemma ReduceReported(g: Graph, run: seq<Site>, r: nat, i: nat, names: seq<string>) returns (run': seq<Site>)
    requires g.nReduce > 0 && IsSiteRun(Counting(g), run) && HandedOut(g, run[|run| - 1], r, i, names)
    requires r in run[|run| - 1].out && Short(g, run[|run| - 1].out)
    ensures IsSiteRun(Counting(g), run') && Reducing(g, run'[|run'| - 1], r + 1)
  {
    var n := |run[|run| - 1].state.pending|;
    OneMoreInOrder(run[|run| - 1].state.sent, ReduceReport(r));
    run' := ExtendSite(Counting(g), run, ReportReduce(i));
    var x := run'[|run'| - 1];
    assert x.state.pending[n] == ReduceReport(r);
    FinishedAs(x.state, n, ReduceJob(r));
    run' := FinishAt(Counting(g), run', n);
  }

  lemma ShortStays(g: Graph, out: map<nat, seq<KeyValue>>, r: nat, kvs: seq<KeyValue>)
    requires r > 0 ==> Short(g, out)
    requires r == 0 ==> 0 < |kvs| < |g.files|
    ensures Short(g, out[r := Reduced(kvs)])
  {
    if r > 0 {
      var c: nat :| 0 < c < |g.files| && out[0] == [KeyValue("k", Marks(c))];
      assert out[r := Reduced(kvs)][0] == [KeyValue("k", Marks(c))];
    } else {
      assert out[0 := Reduced(kvs)][0] == [KeyValue("k", Marks(|kvs|))];
    }
  }

  lemma ReduceStep(g: Graph, run: seq<Site>, r: nat) returns (run': seq<Site>)
    requires g.nReduce > 10 && |g.files| > 11 && IsSiteRun(Counting(g), run) && r < g.nReduce && Reducing(g, run[|run| - 1], r)
    ensures IsSiteRun(Counting(g), run') && Reducing(g, run'[|run'| - 1], r + 1)
  {
    var x := run[|run| - 1];
    var i, names := |x.state.issued|, Filenames(g, x.state, ReduceJob(r));
    GivenPairs(g, x, r);
    if r == 0 { GivenShort(g, x); }
    ShortStays(g, x.out, r, Gathered(Given(g, x, r)));
    run' := HandOut(g, run, r);
    run' := WriteReduced(g, run', r, i, names);
    run' := ReduceReported(g, run', r, i, names);
  }

  lemma {:induction false} ReduceAll(g: Graph, r: nat) returns (run: seq<Site>)
    requires g.nReduce > 10 && |g.files| > 11 && r <= g.nReduce
    ensures IsSiteRun(Counting(g), run) && Reducing(g, run[|run| - 1], r)
  {
    if r == 0 {
      run := EndAll(g, g.nReduce);
      ReducingStarts(g, run[|run| - 1]);
    } else {
      run := ReduceAll(g, r - 1);
      run := ReduceStep(g, run, r - 1);
    }
  }

  lemma FinalRun(g: Graph) returns (run: seq<Site>)
    requires g.nReduce > 10 && |g.files| > 11
    ensures IsSiteRun(Counting(g), run) && WasIssued(run[|run| - 1].state, DoneJob) && Short(g, run[|run| - 1].out)
    ensures InOrder(run[|run| - 1].state.sent)
  {
    run := ReduceAll(g, g.nReduce);
    var x := run[|run| - 1];
    assert Deps(g, DoneJob)[g.nReduce..] == [];
    assert x.state.waiting == [DoneJob];
    run := Pass(Counting(g), run);
    assert run[|run| - 1].state.issued[|x.state.issued|].job == DoneJob;
  }

  // ----- the lines differ

  lemma {:induction false} FlattenHas(outs: seq<seq<KeyValue>>, r: nat, x: KeyValue)
    requires r < |outs| && x in outs[r]
    ensures x in Flatten(outs)
  {
    if r < |outs| - 1 { FlattenHas(outs[..|outs| - 1], r, x); }
  }

  lemma {:induction false} LinesHave(out: seq<KeyValue>, x: KeyValue)
    requires x in out
    ensures Line(x) in Lines(out)
  {
    if x != out[|out| - 1] { LinesHave(out[..|out| - 1], x); }
  }

  /** The sequential program writes one line, with the count of all files. */
  lemma OneLine(g: Graph, out: seq<KeyValue>)
    requires |g.files| > 0 && IsReduction(CountValues, AllPairs(Counting(g)), out)
    ensures multiset(Lines(out)) == multiset([Line(KeyValue("k", Marks(|g.files|)))])
  {
    var kvs := AllPairs(Counting(g));
    EverythingIsPairs(InputFiles(Counting(g)));
    ReducedIsReduction(kvs);
    ReductionUnique(CountValues, kvs, out, Reduced(kvs));
    LinesPermute(out, Reduced(kvs));
    assert Reduced(kvs)[..0] == [];
    assert Lines(Reduced(kvs)) == [Line(Reduced(kvs)[0])];
  }

  lemma ShortDiffers(g: Graph, x: Site, out: seq<KeyValue>)
    requires g.nReduce > 0 && |g.files| > 0 && Short(g, x.out) && IsReduction(CountValues, AllPairs(Counting(g)), out)
    ensures !SameOutput(Counting(g), x, out)
  {
    var c: nat :| 0 < c < |g.files| && x.out[0] == [KeyValue("k", Marks(c))];
    var short, full := KeyValue("k", Marks(c)), KeyValue("k", Marks(|g.files|));
    var outs := OutputFiles(Counting(g), x);
    assert short in outs[0];
    FlattenHas(outs, 0, short);
    LinesHave(Flatten(outs), short);
    OneLine(g, out);
    assert |Line(short)| == c + 3 && |Line(full)| == |g.files| + 3;
    assert Line(short) in multiset(Lines(Flatten(outs)));
    assert Line(short) !in multiset([Line(full)]);
  }

  /** From twelve files and eleven reduce tasks on, a run ends whose output files do not hold
      the sequential program's lines, although every worker reports in order. */
  lemma PairsLost(g: Graph) returns (run: seq<Site>, out: seq<KeyValue>)
    requires g.nReduce > 10 && |g.files| > 11
    ensures OrderInsensitive(CountValues) && IsSiteRun(Counting(g), run) && WasIssued(run[|run| - 1].state, DoneJob)
    ensures InOrder(run[|run| - 1].state.sent)
    ensures IsReduction(CountValues, AllPairs(Counting(g)), out) && !SameOutput(Counting(g), run[|run| - 1], out)
  {
    CountingInsensitive();
    run := FinalRun(g);
    EverythingIsPairs(InputFiles(Counting(g)));
    out := Reduced(AllPairs(Counting(g)));
    ReducedIsReduction(AllPairs(Counting(g)));
    ShortDiffers(g, run[|run| - 1], out);
  }

  /** All finished runs of all applications on a graph leave the sequential program's lines if
      and only if its names do not collide. */
  lemma LinesIff(g: Graph)
    requires g.nReduce > 0
    ensures (forall w: Work, run: seq<Site>, n: nat, out: seq<KeyValue> |
               && w.graph == g && OrderInsensitive(w.reducef) && IsSiteRun(w, run) && n < |run|
               && WasIssued(run[n].state, DoneJob) && IsReduction(w.reducef, AllPairs(w), out) ::
               SameOutput(w, run[n], out))
            <==> Small(g)
  {
    if Small(g) {
      forall w: Work, run: seq<Site>, n: nat, out: seq<KeyValue> |
        && w.graph == g && OrderInsensitive(w.reducef) && IsSiteRun(w, run) && n < |run|
        && WasIssued(run[n].state, DoneJob) && IsReduction(w.reducef, AllPairs(w), out)
        ensures SameOutput(w, run[n], out)
      {
        DoneMeansDone(w, run, n, out);
      }
    } else {
      var run, out := PairsLost(g);
    }
  }
}
