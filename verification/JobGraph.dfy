/** The coordinator as a state machine. Goroutines waiting for dependencies, the bounded
    channel of ready jobs, the map of running jobs and reports under way interleave freely. */
module JobGraph {
  import opened JobIds

  const QUEUE_SIZE := 1000

  /** One value per job that the coordinator creates. */
  datatype Job = MapJob(m: nat) | PseudoJob(m: nat, r: nat) | ReduceJob(r: nat) | DoneJob

  datatype Graph = Graph(files: seq<string>, nReduce: nat)

  datatype Task = Task(job: Job, filenames: seq<string>)

  /** What workers report; `output` is the name of a bucket's file, empty for no file. */
  datatype Report =
    | BucketReport(m: nat, r: nat, output: string)
    | MapReport(m: nat)
    | ReduceReport(r: nat)

  datatype State = State(
    waiting: seq<Job>,          // submitted, waiting for dependencies or for room
    storing: seq<Job>,          // in the channel, not yet entered into `jobs`
    queue: seq<Job>,            // the channel
    jobs: map<string, Job>,     // running jobs by id
    closed: set<Job>,           // jobs whose Done channel is closed
    outputs: map<Job, string>,  // Output of jobs that were given one
    watching: seq<Job>,         // issued jobs whose timeout has not fired
    issued: seq<Task>,          // every task handed out so far
    sent: seq<Report>,          // every report so far
    pending: seq<Report>,       // reports not yet acted upon
    finished: bool,             // the coordinator's own done channel is closed
    stopped: bool               // a channel was closed twice
  )

  // ----- jobs

  predicate InGraph(g: Graph, job: Job) {
    match job
    case MapJob(m) => m < |g.files|
    case PseudoJob(m, r) => m < |g.files| && r < g.nReduce
    case ReduceJob(r) => r < g.nReduce
    case DoneJob => true
  }

  function Deps(g: Graph, job: Job): seq<Job> {
    match job
    case MapJob(_) => []
    case PseudoJob(_, _) => []
    case ReduceJob(r) => seq(|g.files|, m requires 0 <= m < |g.files| => PseudoJob(m, r))
    case DoneJob => seq(g.nReduce, r requires 0 <= r < g.nReduce => ReduceJob(r))
  }

  function JobType(job: Job): string {
    match job
    case MapJob(_) => "map"
    case PseudoJob(_, _) => "pseudo"
    case ReduceJob(_) => "reduce"
    case DoneJob => "done"
  }

  function JobKey(job: Job): string {
    match job
    case MapJob(m) => Itoa(m)
    case PseudoJob(m, r) => PairKey(m, r)
    case ReduceJob(r) => Itoa(r)
    case DoneJob => "done"
  }

  function Id(job: Job): string {
    JobType(job) + JobKey(job)
  }

  /** The job a report names through its type and key. */
  function Reported(report: Report): Job {
    match report
    case BucketReport(m, r, _) => PseudoJob(m, r)
    case MapReport(m) => MapJob(m)
    case ReduceReport(r) => ReduceJob(r)
  }

  function Output(report: Report): string {
    if report.BucketReport? then report.output else ""
  }

  function BucketFile(m: nat, r: nat): string {
    "mr-" + Itoa(m) + "-" + Itoa(r)
  }

  // ----- steps

  datatype Event =
    | Enqueue(i: nat)
    | Store(i: nat)
    | Take
    | TimeOut(i: nat)
    | WatchEnds(i: nat)
    | Send(report: Report)
    | Finish(i: nat)

  function RemoveAt<T>(s: seq<T>, i: nat): seq<T>
    requires i < |s|
  {
    s[..i] + s[i + 1..]
  }

  predicate Ready(g: Graph, s: State, job: Job) {
    forall i | 0 <= i < |Deps(g, job)| :: Deps(g, job)[i] in s.closed
  }

  /** A worker reports only on a task it was given. */
  ghost predicate MaySend(g: Graph, s: State, report: Report) {
    match report
    case BucketReport(m, r, output) =>
      WasIssued(s, MapJob(m)) && r < g.nReduce && (output == "" || output == BucketFile(m, r))
    case MapReport(m) => WasIssued(s, MapJob(m))
    case ReduceReport(r) => WasIssued(s, ReduceJob(r))
  }

  ghost predicate WasIssued(s: State, job: Job) {
    exists i :: 0 <= i < |s.issued| && s.issued[i].job == job
  }

  ghost predicate Enabled(g: Graph, s: State, e: Event) {
    && !s.stopped
    && match e
       case Enqueue(i) => i < |s.waiting| && Ready(g, s, s.waiting[i]) && |s.queue| < QUEUE_SIZE
       case Store(i) => i < |s.storing|
       case Take => s.queue != []
       case TimeOut(i) => i < |s.watching|
       case WatchEnds(i) => i < |s.watching| && s.watching[i] in s.closed
       case Send(report) => MaySend(g, s, report)
       case Finish(i) => i < |s.pending|
  }

  function AfterEnqueue(s: State, i: nat): State
    requires i < |s.waiting|
  {
    var job := s.waiting[i];
    s.(waiting := RemoveAt(s.waiting, i), queue := s.queue + [job], storing := s.storing + [job])
  }

  function AfterStore(s: State, i: nat): State
    requires i < |s.storing|
  {
    var job := s.storing[i];
    s.(storing := RemoveAt(s.storing, i), jobs := s.jobs[Id(job) := job])
  }

  function Filenames(g: Graph, s: State, job: Job): seq<string> {
    match job
    case MapJob(m) =>
      var index := Atoi(JobKey(job));
      if index < |g.files| then [g.files[index]] else []
    case ReduceJob(_) =>
      var deps := Deps(g, job);
      seq(|deps|, k requires 0 <= k < |deps| => if deps[k] in s.outputs then s.outputs[deps[k]] else "")
    case PseudoJob(_, _) => []
    case DoneJob => []
  }

  /** Pseudo jobs are dropped; the final job closes the coordinator's channel. */
  function AfterTake(g: Graph, s: State): State
    requires s.queue != []
  {
    var job := s.queue[0];
    var s' := s.(queue := s.queue[1..]);
    if job.PseudoJob? then s'
    else if job.DoneJob? && s.finished then s'.(stopped := true)
    else
      s'.(finished := s.finished || job.DoneJob?,
          issued := s.issued + [Task(job, Filenames(g, s, job))],
          watching := s.watching + [job])
  }

  function AfterTimeOut(s: State, i: nat): State
    requires i < |s.watching|
  {
    s.(watching := RemoveAt(s.watching, i), waiting := s.waiting + [s.watching[i]])
  }

  /** The first report of a running job ends it; later ones find nothing. */
  function AfterFinish(s: State, i: nat): State
    requires i < |s.pending|
  {
    var report := s.pending[i];
    var s' := s.(pending := RemoveAt(s.pending, i));
    var id := Id(Reported(report));
    if id !in s.jobs then s'
    else
      var job := s.jobs[id];
      var s'' := s'.(jobs := s.jobs - {id}, outputs := s.outputs[job := Output(report)]);
      if job in s.closed || job.DoneJob? then s''.(stopped := true)
      else s''.(closed := s.closed + {job})
  }

  ghost function Do(g: Graph, s: State, e: Event): State
    requires Enabled(g, s, e)
  {
    match e
    case Enqueue(i) => AfterEnqueue(s, i)
    case Store(i) => AfterStore(s, i)
    case Take => AfterTake(g, s)
    case TimeOut(i) => AfterTimeOut(s, i)
    case WatchEnds(i) => s.(watching := RemoveAt(s.watching, i))
    case Send(report) => s.(sent := s.sent + [report], pending := s.pending + [report])
    case Finish(i) => AfterFinish(s, i)
  }

  // ----- runs

  function MapJobs(n: nat): seq<Job> {
    seq(n, m requires 0 <= m < n => MapJob(m))
  }

  /** For each of the first `n` reduce tasks, its intermediate jobs. */
  function PseudoJobs(g: Graph, n: nat): seq<Job> {
    if n == 0 then [] else PseudoJobs(g, n - 1) + Deps(g, ReduceJob(n - 1))
  }

  function Submitted(g: Graph): seq<Job> {
    MapJobs(|g.files|) + PseudoJobs(g, g.nReduce) + Deps(g, DoneJob) + [DoneJob]
  }

  function Initial(g: Graph): State {
    State(Submitted(g), [], [], map[], {}, map[], [], [], [], [], false, false)
  }

  ghost predicate Next(g: Graph, s: State, s': State) {
    exists e :: Enabled(g, s, e) && s' == Do(g, s, e)
  }

  ghost predicate IsRun(g: Graph, run: seq<State>) {
    && run != [] && run[0] == Initial(g)
    && forall i | 0 <= i < |run| - 1 :: Next(g, run[i], run[i + 1])
  }

  // ----- what must hold of every task handed out

  /** Every file name in it was reported by that map task for this reduce task. */
  ghost predicate InputsReported(g: Graph, s: State, task: Task) {
    match task.job
    case MapJob(m) => m < |g.files| && task.filenames == [g.files[m]]
    case PseudoJob(_, _) => false
    case ReduceJob(r) =>
      && |task.filenames| == |g.files|
      && forall m | 0 <= m < |g.files| :: BucketReport(m, r, task.filenames[m]) in s.sent
    case DoneJob => forall r | 0 <= r < g.nReduce :: ReduceReport(r) in s.sent
  }

  ghost predicate Safe(g: Graph, s: State) {
    forall i | 0 <= i < |s.issued| :: InputsReported(g, s, s.issued[i])
  }
}
