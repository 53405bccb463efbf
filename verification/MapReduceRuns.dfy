/** Coordinator, workers and files together: workers do what their tasks say with the files
    that are there, while the coordinator's steps interleave freely. */
module MapReduceRuns {
  import opened Collections
  import opened Sorting
  import opened JobIds
  import opened JobGraph
  import opened JobSafety
  import opened MapReduce

  /** What is run: the application, the graph of its tasks, and what the input files hold. */
  datatype Work = Work(mapf: MapFn, reducef: ReduceFn, ihash: HashFn, graph: Graph, content: string -> string)

  /** `disk` holds the intermediate files by name, `out` the output files by reduce task. */
  datatype Site = Site(state: State, disk: map<string, seq<KeyValue>>, out: map<nat, seq<KeyValue>>)

  datatype SiteEvent =
    | Coordinate(e: Event)
    | WriteBucket(i: nat, r: nat)
    | ReportBucket(i: nat, r: nat)
    | ReportMap(i: nat)
    | WriteOut(i: nat, sorted: seq<KeyValue>, reduced: seq<KeyValue>)
    | ReportReduce(i: nat)

  ghost predicate Runnable(w: Work) {
    w.graph.nReduce > 0
  }

  /** The pairs that a map task given `name` has for reduce task `r`. */
  ghost function BucketFor(w: Work, name: string, r: nat): seq<KeyValue>
    requires Runnable(w)
  {
    Bucket(w.ihash, w.graph.nReduce, w.mapf(name, w.content(name)), r)
  }

  /** What a reduce task gets to read: an empty name is skipped, and so is a file that cannot
      be opened. */
  ghost function Opened(disk: map<string, seq<KeyValue>>, names: seq<string>): (inputs: seq<Option<seq<KeyValue>>>)
    ensures |inputs| == |names|
  {
    seq(|names|, m requires 0 <= m < |names| => if names[m] != "" && names[m] in disk then Some(disk[names[m]]) else None)
  }

  ghost predicate IsMapTask(x: Site, i: nat) {
    i < |x.state.issued| && x.state.issued[i].job.MapJob? && |x.state.issued[i].filenames| == 1
  }

  ghost predicate IsReduceTask(x: Site, i: nat) {
    i < |x.state.issued| && x.state.issued[i].job.ReduceJob?
  }

  /** The report on a bucket: its file, written before, or none when it is empty. */
  ghost function BucketReportOf(w: Work, x: Site, i: nat, r: nat): Report
    requires Runnable(w) && IsMapTask(x, i)
  {
    var task := x.state.issued[i];
    var name := if BucketFor(w, task.filenames[0], r) == [] then "" else BucketFile(task.job.m, r);
    BucketReport(task.job.m, r, name)
  }

  ghost predicate EnabledAt(w: Work, x: Site, e: SiteEvent)
    requires Runnable(w)
  {
    && !x.state.stopped
    && match e
       case Coordinate(c) => !c.Send? && Enabled(w.graph, x.state, c)
       case WriteBucket(i, r) =>
         IsMapTask(x, i) && r < w.graph.nReduce && BucketFor(w, x.state.issued[i].filenames[0], r) != []
       case ReportBucket(i, r) =>
         && IsMapTask(x, i) && r < w.graph.nReduce
         && (BucketReportOf(w, x, i, r).output != "" ==> BucketReportOf(w, x, i, r).output in x.disk)
       case ReportMap(i) => IsMapTask(x, i)
       case WriteOut(i, sorted, reduced) =>
         && IsReduceTask(x, i)
         && Sorted(sorted, ByKey) && multiset(sorted) == multiset(Gathered(Opened(x.disk, x.state.issued[i].filenames)))
         && IsReduction(w.reducef, sorted, reduced)
       case ReportReduce(i) => IsReduceTask(x, i) && x.state.issued[i].job.r in x.out
  }

  ghost function Told(x: Site, report: Report): Site {
    x.(state := x.state.(sent := x.state.sent + [report], pending := x.state.pending + [report]))
  }

  ghost function After(w: Work, x: Site, e: SiteEvent): Site
    requires Runnable(w) && EnabledAt(w, x, e)
  {
    match e
    case Coordinate(c) => x.(state := Do(w.graph, x.state, c))
    case WriteBucket(i, r) =>
      var task := x.state.issued[i];
      x.(disk := x.disk[BucketFile(task.job.m, r) := BucketFor(w, task.filenames[0], r)])
    case ReportBucket(i, r) => Told(x, BucketReportOf(w, x, i, r))
    case ReportMap(i) => Told(x, MapReport(x.state.issued[i].job.m))
    case WriteOut(i, _, reduced) => x.(out := x.out[x.state.issued[i].job.r := reduced])
    case ReportReduce(i) => Told(x, ReduceReport(x.state.issued[i].job.r))
  }

  ghost predicate MovesTo(w: Work, x: Site, x': Site)
    requires Runnable(w)
  {
    exists e :: EnabledAt(w, x, e) && x' == After(w, x, e)
  }

  ghost predicate IsSiteRun(w: Work, run: seq<Site>)
    requires Runnable(w)
  {
    && run != [] && run[0] == Site(Initial(w.graph), map[], map[])
    && forall i | 0 <= i < |run| - 1 :: MovesTo(w, run[i], run[i + 1])
  }

  // ----- file names

  lemma DigitsEnd(a: string, b: string, a': string, b': string)
    requires a + "-" + b == a' + "-" + b'
    requires (forall i | 0 <= i < |a| :: a[i] != '-') && (forall i | 0 <= i < |a'| :: a'[i] != '-')
    ensures a == a' && b == b'
  {
    var s := a + "-" + b;
    assert s[|a|] == '-' && s[|a'|] == '-';
    assert a == s[..|a|] && a' == s[..|a'|];
    assert b == s[|a| + 1..] && b' == s[|a'| + 1..];
  }

  /** No two tasks write one intermediate file. */
  lemma BucketFileInjective(m: nat, r: nat, m': nat, r': nat)
    requires BucketFile(m, r) == BucketFile(m', r')
    ensures m == m' && r == r'
  {
    var s, s' := Itoa(m) + "-" + Itoa(r), Itoa(m') + "-" + Itoa(r');
    assert BucketFile(m, r) == "mr-" + s && BucketFile(m', r') == "mr-" + s';
    assert s == BucketFile(m, r)[3..] && s' == BucketFile(m', r')[3..];
    DigitsEnd(Itoa(m), Itoa(r), Itoa(m'), Itoa(r'));
    ItoaInjective(m, m');
    ItoaInjective(r, r');
  }

  // ----- the invariant

  /** An intermediate file holds its bucket, whoever wrote it and how often. */
  ghost predicate DiskOk(w: Work, disk: map<string, seq<KeyValue>>)
    requires Runnable(w)
  {
    forall m: nat, r: nat | m < |w.graph.files| && r < w.graph.nReduce && BucketFile(m, r) in disk ::
      disk[BucketFile(m, r)] == BucketFor(w, w.graph.files[m], r)
  }

  ghost predicate Honest(w: Work, x: Site, report: Report)
    requires Runnable(w)
  {
    match report
    case BucketReport(m, r, output) =>
      && m < |w.graph.files| && r < w.graph.nReduce
      && if BucketFor(w, w.graph.files[m], r) == [] then output == "" else output == BucketFile(m, r) && output in x.disk
    case MapReport(_) => true
    case ReduceReport(r) => r in x.out
  }

  ghost predicate AllHonest(w: Work, x: Site)
    requires Runnable(w)
  {
    forall k | 0 <= k < |x.state.sent| :: Honest(w, x, x.state.sent[k])
  }

  ghost function InputFiles(w: Work): (files: seq<File>)
    ensures |files| == |w.graph.files|
  {
    seq(|w.graph.files|, m requires 0 <= m < |w.graph.files| => File(w.graph.files[m], w.content(w.graph.files[m])))
  }

  /** Everything the map tasks produce. */
  ghost function AllPairs(w: Work): seq<KeyValue> {
    Mapped(w.mapf, InputFiles(w))
  }

  ghost predicate OutOk(w: Work, out: map<nat, seq<KeyValue>>)
    requires Runnable(w)
  {
    forall r | r in out :: IsReduction(w.reducef, Bucket(w.ihash, w.graph.nReduce, AllPairs(w), r), out[r])
  }

  /** The graph's names do not collide. */
  ghost predicate Small(g: Graph) {
    g.nReduce <= 10 || |g.files| <= 11
  }

  ghost predicate SiteInv(w: Work, x: Site)
    requires Runnable(w)
  {
    && Inv(w.graph, x.state) && DiskOk(w, x.disk) && AllHonest(w, x)
    && (Small(w.graph) && OrderInsensitive(w.reducef) ==> OutOk(w, x.out))
  }

  lemma CoordinateKeepsSent(g: Graph, s: State, e: Event)
    requires Enabled(g, s, e) && !e.Send?
    ensures Do(g, s, e).sent == s.sent
  {
  }

  lemma HonestStays(w: Work, x: Site, x': Site)
    requires Runnable(w) && AllHonest(w, x) && x'.state.sent == x.state.sent
    requires (forall name | name in x.disk :: name in x'.disk) && (forall r | r in x.out :: r in x'.out)
    ensures AllHonest(w, x')
  {
    forall k | 0 <= k < |x'.state.sent| ensures Honest(w, x', x'.state.sent[k]) {
      assert Honest(w, x, x.state.sent[k]);
    }
  }

  lemma CoordinateInv(w: Work, x: Site, e: Event)
    requires Runnable(w) && SiteInv(w, x) && EnabledAt(w, x, Coordinate(e))
    ensures SiteInv(w, After(w, x, Coordinate(e)))
  {
    NextInv(w.graph, x.state, e);
    CoordinateKeepsSent(w.graph, x.state, e);
    HonestStays(w, x, After(w, x, Coordinate(e)));
  }

  lemma MapTaskName(w: Work, x: Site, i: nat)
    requires Runnable(w) && SiteInv(w, x) && IsMapTask(x, i)
    ensures var task := x.state.issued[i]; task.job.m < |w.graph.files| && task.filenames[0] == w.graph.files[task.job.m]
    ensures WasIssued(x.state, x.state.issued[i].job)
  {
    assert InputsFrom(w.graph, x.state, x.state.issued[i]);
  }

  lemma WriteBucketInv(w: Work, x: Site, i: nat, r: nat)
    requires Runnable(w) && SiteInv(w, x) && EnabledAt(w, x, WriteBucket(i, r))
    ensures SiteInv(w, After(w, x, WriteBucket(i, r)))
  {
    var x', m := After(w, x, WriteBucket(i, r)), x.state.issued[i].job.m;
    MapTaskName(w, x, i);
    forall m': nat, r': nat | m' < |w.graph.files| && r' < w.graph.nReduce && BucketFile(m', r') in x'.disk
      ensures x'.disk[BucketFile(m', r')] == BucketFor(w, w.graph.files[m'], r')
    {
      if BucketFile(m', r') == BucketFile(m, r) { BucketFileInjective(m', r', m, r); }
    }
    HonestStays(w, x, x');
  }

  /** A report that is honest and allowed may be sent. */
  lemma ToldInv(w: Work, x: Site, report: Report)
    requires Runnable(w) && SiteInv(w, x) && !x.state.stopped
    requires Honest(w, x, report) && MaySend(w.graph, x.state, report)
    ensures SiteInv(w, Told(x, report))
  {
    SendInv(w.graph, x.state, report);
    var x' := Told(x, report);
    forall k | 0 <= k < |x'.state.sent| ensures Honest(w, x', x'.state.sent[k]) {
      if k < |x.state.sent| {
        assert Honest(w, x, x.state.sent[k]);
      } else {
        assert Honest(w, x, report);
      }
    }
  }

  lemma ReportBucketInv(w: Work, x: Site, i: nat, r: nat)
    requires Runnable(w) && SiteInv(w, x) && EnabledAt(w, x, ReportBucket(i, r))
    ensures SiteInv(w, After(w, x, ReportBucket(i, r)))
  {
    MapTaskName(w, x, i);
    ToldInv(w, x, BucketReportOf(w, x, i, r));
  }

  /** A reduce task that was handed out can open every file it is given. */
  lemma OpensAll(w: Work, x: Site, i: nat, m: nat)
    requires Runnable(w) && SiteInv(w, x) && IsReduceTask(x, i) && m < |w.graph.files|
    ensures |x.state.issued[i].filenames| == |w.graph.files|
    ensures x.state.issued[i].filenames[m] != "" ==> x.state.issued[i].filenames[m] in x.disk
  {
    var s, task := x.state, x.state.issued[i];
    assert InputsFrom(w.graph, s, task);
    assert KeyReported(s, m, task.job.r, task.filenames[m]);
    var k :| 0 <= k < |s.sent| && s.sent[k].BucketReport? && s.sent[k].output == task.filenames[m]
             && PairKey(s.sent[k].m, s.sent[k].r) == PairKey(m, task.job.r);
    assert Honest(w, x, s.sent[k]);
  }

  /** When names do not collide, what it reads is exactly its bucket of everything. */
  lemma ReadsBucket(w: Work, x: Site, i: nat)
    requires Runnable(w) && Small(w.graph) && SiteInv(w, x) && IsReduceTask(x, i)
    ensures var task := x.state.issued[i];
            Gathered(Opened(x.disk, task.filenames)) == Bucket(w.ihash, w.graph.nReduce, AllPairs(w), task.job.r)
  {
    var task, files := x.state.issued[i], InputFiles(w);
    var column := Opened(x.disk, task.filenames);
    PairKeysDistinctIff(|w.graph.files|, w.graph.nReduce);
    SoundIsSafe(w.graph, x.state);
    assert InputsReported(w.graph, x.state, task);
    forall m | 0 <= m < |files| ensures Contents(column[m]) == BucketFor(w, w.graph.files[m], task.job.r) {
      var report := BucketReport(m, task.job.r, task.filenames[m]);
      var k :| 0 <= k < |x.state.sent| && x.state.sent[k] == report;
      assert Honest(w, x, x.state.sent[k]);
    }
    ColumnIsBucket(w.mapf, w.ihash, w.graph.nReduce, files, column, task.job.r);
  }

  lemma WriteOutInv(w: Work, x: Site, i: nat, sorted: seq<KeyValue>, reduced: seq<KeyValue>)
    requires Runnable(w) && SiteInv(w, x) && EnabledAt(w, x, WriteOut(i, sorted, reduced))
    ensures SiteInv(w, After(w, x, WriteOut(i, sorted, reduced)))
  {
    if Small(w.graph) && OrderInsensitive(w.reducef) {
      ReadsBucket(w, x, i);
      ReductionPermutes(w.reducef, sorted, Gathered(Opened(x.disk, x.state.issued[i].filenames)), reduced);
    }
    HonestStays(w, x, After(w, x, WriteOut(i, sorted, reduced)));
  }

  /** Every step of coordinator and workers keeps the invariant, on every graph. */
  lemma MovesInv(w: Work, x: Site, e: SiteEvent)
    requires Runnable(w) && SiteInv(w, x) && EnabledAt(w, x, e)
    ensures SiteInv(w, After(w, x, e))
  {
    match e
    case Coordinate(c) => CoordinateInv(w, x, c);
    case WriteBucket(i, r) => WriteBucketInv(w, x, i, r);
    case ReportBucket(i, r) => ReportBucketInv(w, x, i, r);
    case ReportMap(i) =>
      MapTaskName(w, x, i);
      ToldInv(w, x, MapReport(x.state.issued[i].job.m));
    case WriteOut(i, sorted, reduced) => WriteOutInv(w, x, i, sorted, reduced);
    case ReportReduce(i) => ToldInv(w, x, ReduceReport(x.state.issued[i].job.r));
  }

  lemma {:induction false} SiteRunInv(w: Work, run: seq<Site>, n: nat)
    requires Runnable(w) && IsSiteRun(w, run) && n < |run|
    ensures SiteInv(w, run[n])
  {
    if n == 0 {
      InitialInv(w.graph);
    } else {
      SiteRunInv(w, run, n - 1);
      assert MovesTo(w, run[n - 1], run[n - 1 + 1]);
      var e :| EnabledAt(w, run[n - 1], e) && run[n] == After(w, run[n - 1], e);
      MovesInv(w, run[n - 1], e);
    }
  }

  // ----- the theorems

  /** In every run a reduce task that was handed out can open every file it is given; when
      names do not collide it reads exactly its bucket of everything. */
  lemma ReadsItsBucket(w: Work, run: seq<Site>, n: nat, i: nat)
    requires Runnable(w) && IsSiteRun(w, run) && n < |run| && IsReduceTask(run[n], i)
    ensures var x, task := run[n], run[n].state.issued[i];
            && |task.filenames| == |w.graph.files|
            && (forall m | 0 <= m < |task.filenames| :: task.filenames[m] != "" ==> task.filenames[m] in x.disk)
            && (Small(w.graph) ==>
                  Gathered(Opened(x.disk, task.filenames)) == Bucket(w.ihash, w.graph.nReduce, AllPairs(w), task.job.r))
  {
    SiteRunInv(w, run, n);
    var x, task := run[n], run[n].state.issued[i];
    assert InputsFrom(w.graph, x.state, task);
    forall m: nat | m < |w.graph.files| ensures task.filenames[m] != "" ==> task.filenames[m] in x.disk { OpensAll(w, x, i, m); }
    if Small(w.graph) { ReadsBucket(w, x, i); }
  }

  ghost function OutputFiles(w: Work, x: Site): (outs: seq<seq<KeyValue>>)
    ensures |outs| == w.graph.nReduce
  {
    seq(w.graph.nReduce, r requires 0 <= r < w.graph.nReduce => if r in x.out then x.out[r] else [])
  }

  lemma AllWritten(w: Work, x: Site, r: nat)
    requires Runnable(w) && SiteInv(w, x) && WasIssued(x.state, DoneJob) && r < w.graph.nReduce
    ensures r in x.out
  {
    var i :| 0 <= i < |x.state.issued| && x.state.issued[i].job == DoneJob;
    assert InputsFrom(w.graph, x.state, x.state.issued[i]);
    assert ReduceReport(r) in x.state.sent;
    var k :| 0 <= k < |x.state.sent| && x.state.sent[k] == ReduceReport(r);
    assert Honest(w, x, x.state.sent[k]);
  }

  /** The output files hold, together, the lines of `out`. */
  ghost predicate SameOutput(w: Work, x: Site, out: seq<KeyValue>) {
    multiset(Lines(Flatten(OutputFiles(w, x)))) == multiset(Lines(out))
  }

  /** In every run, once the final job has been handed out, and from then on, every output
      file is there; when names do not collide they hold together the lines that the
      sequential program writes. */
  lemma DoneMeansDone(w: Work, run: seq<Site>, n: nat, out: seq<KeyValue>)
    requires Runnable(w) && IsSiteRun(w, run) && n < |run| && WasIssued(run[n].state, DoneJob)
    requires OrderInsensitive(w.reducef) && IsReduction(w.reducef, AllPairs(w), out)
    ensures forall r: nat | r < w.graph.nReduce :: r in run[n].out
    ensures Small(w.graph) ==> SameOutput(w, run[n], out)
  {
    var x := run[n];
    SiteRunInv(w, run, n);
    forall r: nat | r < w.graph.nReduce ensures r in x.out { AllWritten(w, x, r); }
    if Small(w.graph) {
      BucketLines(w.reducef, w.ihash, w.graph.nReduce, AllPairs(w), OutputFiles(w, x), out);
    }
  }

  /** The same, beside the sequential program itself. */
  method SequentialAgrees(w: Work, ghost run: seq<Site>, ghost n: nat) returns (out: seq<KeyValue>)
    requires Runnable(w) && OrderInsensitive(w.reducef)
    requires IsSiteRun(w, run) && n < |run| && WasIssued(run[n].state, DoneJob)
    ensures IsReduction(w.reducef, AllPairs(w), out)
    ensures Small(w.graph) ==> SameOutput(w, run[n], out)
  {
    var files := seq(|w.graph.files|, m requires 0 <= m < |w.graph.files| => File(w.graph.files[m], w.content(w.graph.files[m])));
    assert files == InputFiles(w);
    out := Sequential(w.mapf, w.reducef, files);
    DoneMeansDone(w, run, n, out);
  }
}
