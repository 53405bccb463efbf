/** The coordinator's operations on its own fields, each tied to the steps of the state
    machine. A step that would block leaves the caller waiting: it is a separate call. */
module JobQueue {
  import opened JobIds
  import opened JobGraph
  import opened JobSafety
  import opened JobConservation

  datatype Reply = Blocked | Crashed | Issued(task: Task)

  /** Drops pseudo jobs from the front and takes the first other job, if there is one. */
  function AfterGetTask(g: Graph, s: State): State
    decreases |s.queue|
  {
    if s.queue == [] then s
    else if s.queue[0].PseudoJob? then AfterGetTask(g, AfterTake(g, s))
    else AfterTake(g, s)
  }

  /** Being made of single steps, it keeps what every step keeps. */
  lemma {:induction false} GetTaskInv(g: Graph, s: State)
    requires Inv(g, s) && !s.stopped
    ensures Inv(g, AfterGetTask(g, s))
    decreases |s.queue|
  {
    if s.queue != [] {
      TakeInv(g, s);
      if s.queue[0].PseudoJob? { GetTaskInv(g, AfterTake(g, s)); }
    }
  }

  /** The jobs in front of the i-th are intermediate ones. */
  ghost predicate PseudoBefore(queue: seq<Job>, i: nat)
    requires i <= |queue|
  {
    forall k | 0 <= k < i :: queue[k].PseudoJob?
  }

  /** First in, first out: the first job in the channel that is not an intermediate one is
      handed out, those before it are dropped and those behind it stay in their order; without
      such a job the channel is emptied and nothing is handed out. */
  lemma {:induction false} GetTaskTakesFirst(g: Graph, s: State) returns (i: nat)
    ensures i <= |s.queue| && PseudoBefore(s.queue, i) && (i < |s.queue| ==> !s.queue[i].PseudoJob?)
    ensures var s' := AfterGetTask(g, s);
            if i == |s.queue| then s' == s.(queue := [])
            else
              && s'.queue == s.queue[i + 1..]
              && (s.queue[i].DoneJob? && s.finished ==> s'.stopped && s'.issued == s.issued)
              && (!(s.queue[i].DoneJob? && s.finished) ==>
                    && s'.issued == s.issued + [Task(s.queue[i], Filenames(g, s, s.queue[i]))]
                    && s'.watching == s.watching + [s.queue[i]] && s'.finished == (s.finished || s.queue[i].DoneJob?))
    decreases |s.queue|
  {
    if s.queue == [] {
      i := 0;
    } else if s.queue[0].PseudoJob? {
      i := GetTaskTakesFirst(g, AfterTake(g, s));
      i := i + 1;
    } else {
      i := 0;
    }
  }

  class Coordinator {
    const files: seq<string>
    const nReduce: nat
    var waiting: seq<Job>
    var storing: seq<Job>
    var jobCh: seq<Job>
    var jobs: map<string, Job>
    var closed: set<Job>
    var outputs: map<Job, string>
    var watching: seq<Job>
    var issued: seq<Task>
    var sent: seq<Report>
    var pending: seq<Report>
    var done: bool
    var stopped: bool

    function Plan(): Graph {
      Graph(files, nReduce)
    }

    function Value(): State
      reads this
    {
      State(waiting, storing, jobCh, jobs, closed, outputs, watching, issued, sent, pending, done, stopped)
    }

    constructor Make(files: seq<string>, nReduce: nat)
      ensures Plan() == Graph(files, nReduce) && Value() == Initial(Plan())
    {
      this.files, this.nReduce := files, nReduce;
      waiting, storing, jobCh, jobs, closed, outputs := [], [], [], map[], {}, map[];
      watching, issued, sent, pending, done, stopped := [], [], [], [], false, false;
      new;
      Initialize();
    }

    method Initialize()
      requires waiting == []
      modifies this
      ensures Value() == old(Value()).(waiting := Submitted(Plan()))
    {
      SubmitMaps();
      SubmitIntermediates();
      var reduceJobs := [];
      for r := 0 to nReduce
        invariant |reduceJobs| == r && forall k | 0 <= k < r :: reduceJobs[k] == ReduceJob(k)
      {
        reduceJobs := reduceJobs + [ReduceJob(r)];
      }
      assert reduceJobs == Deps(Plan(), DoneJob);
      waiting := waiting + reduceJobs;
      waiting := waiting + [DoneJob];
    }

    method SubmitMaps()
      requires waiting == []
      modifies this`waiting
      ensures waiting == MapJobs(|files|)
    {
      for m := 0 to |files|
        invariant waiting == MapJobs(m)
      {
        waiting := waiting + [MapJob(m)];
      }
    }

    method SubmitIntermediates()
      modifies this`waiting
      ensures waiting == old(waiting) + PseudoJobs(Plan(), nReduce)
    {
      for r := 0 to nReduce
        invariant waiting == old(waiting) + PseudoJobs(Plan(), r)
      {
        var deps := IntermediateTasks(r);
        assert old(waiting) + PseudoJobs(Plan(), r) + deps == old(waiting) + PseudoJobs(Plan(), r + 1);
        waiting := waiting + deps;
      }
    }

    method IntermediateTasks(r: nat) returns (deps: seq<Job>)
      ensures deps == Deps(Plan(), ReduceJob(r))
    {
      deps := [];
      for m := 0 to |files|
        invariant |deps| == m && forall k | 0 <= k < m :: deps[k] == PseudoJob(k, r)
      {
        deps := deps + [PseudoJob(m, r)];
      }
    }

    /** A submission gets past its dependencies and finds room in the channel. */
    method Enqueue(i: nat) returns (blocked: bool)
      requires i < |waiting| && !stopped
      modifies this
      ensures !blocked <==> old(Enabled(Plan(), Value(), JobGraph.Enqueue(i)))
      ensures Value() == if blocked then old(Value()) else AfterEnqueue(old(Value()), i)
      ensures blocked <==> old(|jobCh|) >= 1000 || exists dep | dep in Deps(Plan(), old(waiting[i])) :: dep !in closed
      ensures !blocked ==> jobCh == old(jobCh) + [old(waiting[i])]
    {
      var job := waiting[i];
      var deps := Deps(Plan(), job);
      for k := 0 to |deps|
        invariant forall l | 0 <= l < k :: deps[l] in closed
      {
        if deps[k] !in closed {
          return true;
        }
      }
      if |jobCh| >= QUEUE_SIZE {
        return true;
      }
      waiting := RemoveAt(waiting, i);
      jobCh := jobCh + [job];
      storing := storing + [job];
      blocked := false;
    }

    method Store(i: nat)
      requires i < |storing|
      modifies this
      ensures Value() == AfterStore(old(Value()), i)
    {
      var job := storing[i];
      storing := RemoveAt(storing, i);
      jobs := jobs[Id(job) := job];
    }

    method InputsOf(job: Job) returns (names: seq<string>)
      ensures names == Filenames(Plan(), Value(), job)
    {
      names := [];
      match job
      case ReduceJob(_) =>
        var deps := Deps(Plan(), job);
        for k := 0 to |deps|
          invariant |names| == k
          invariant forall l | 0 <= l < k :: names[l] == if deps[l] in outputs then outputs[deps[l]] else ""
        {
          names := names + [if deps[k] in outputs then outputs[deps[k]] else ""];
        }
      case MapJob(_) =>
        var index := Atoi(JobKey(job));
        if index < |files| {
          names := [files[index]];
        }
      case PseudoJob(_, _) =>
      case DoneJob =>
    }

    method GetTask() returns (reply: Reply)
      requires !stopped
      modifies this
      ensures Value() == AfterGetTask(Plan(), old(Value()))
      ensures reply.Issued? <==> issued != old(issued)
      ensures reply.Issued? ==> issued == old(issued) + [reply.task] && !reply.task.job.PseudoJob?
      ensures reply.Crashed? <==> stopped
    {
      while jobCh != [] && jobCh[0].PseudoJob?
        invariant AfterGetTask(Plan(), Value()) == AfterGetTask(Plan(), old(Value()))
        invariant issued == old(issued) && !stopped
        decreases |jobCh|
      {
        jobCh := jobCh[1..];
      }
      if jobCh == [] {
        return Blocked;
      }
      var job := jobCh[0];
      var names := InputsOf(job);
      jobCh := jobCh[1..];
      if job.DoneJob? {
        if done {
          stopped := true;
          return Crashed;
        }
        done := true;
      }
      watching := watching + [job];
      issued := issued + [Task(job, names)];
      reply := Issued(Task(job, names));
    }

    method Retry(i: nat)
      requires i < |watching|
      modifies this
      ensures Value() == AfterTimeOut(old(Value()), i)
      ensures old(watching[i]) in waiting && multiset(watching) == old(multiset(watching)) - multiset{old(watching[i])}
    {
      var job := watching[i];
      Removed(watching, i);
      watching := RemoveAt(watching, i);
      waiting := waiting + [job];
    }

    method Finish(i: nat)
      requires i < |pending|
      modifies this
      ensures Value() == AfterFinish(old(Value()), i)
    {
      var report := pending[i];
      pending := RemoveAt(pending, i);
      var id := Id(Reported(report));
      if id !in jobs {
        return;
      }
      var job := jobs[id];
      jobs := jobs - {id};
      outputs := outputs[job := Output(report)];
      if job in closed || job.DoneJob? {
        stopped := true;
      } else {
        closed := closed + {job};
      }
    }
  }
}
