/** Ingestion jobs: a table of status rows, enqueuers that supersede older jobs, and workers that
    claim jobs from a queue. Each SQL statement and each queue operation is one atomic step, and any
    of them may fail. */
module IngestionJobs {
  import opened Json

  datatype JobStatus = Queued | Running | Done | Failed | Superseded

  datatype Job = Job(repo: string, status: JobStatus, worker: Option<string>, chunks: nat, error: Option<string>)

  type Jobs = map<string, Job>

  predicate Live(job: Job) {
    job.status == Queued || job.status == Running
  }

  function Created(jobs: Jobs, id: string, repo: string): Jobs {
    if id in jobs then jobs else jobs[id := Job(repo, Queued, None, 0, None)]
  }

  /** The only update of a job's status that has a guard on it. */
  function Claimed(jobs: Jobs, id: string, worker: string): Jobs {
    if id in jobs && jobs[id].status == Queued
    then jobs[id := jobs[id].(status := Running, worker := Some(worker))] else jobs
  }

  function MarkedDone(jobs: Jobs, id: string, chunks: nat): Jobs {
    if id in jobs then jobs[id := jobs[id].(status := Done, chunks := chunks)] else jobs
  }

  function MarkedFailed(jobs: Jobs, id: string, message: string): Jobs {
    if id in jobs then jobs[id := jobs[id].(status := Failed, error := Some(message))] else jobs
  }

  predicate Older(job: Job, id: string, repo: string, newest: string) {
    job.repo == repo && id != newest && Live(job)
  }

  function WithoutOlder(jobs: Jobs, repo: string, newest: string): Jobs {
    map id | id in jobs :: if Older(jobs[id], id, repo, newest) then jobs[id].(status := Superseded) else jobs[id]
  }

  // ---- Repository ----

  datatype Claim = Won | LostToNewer | Refused

  class IngestionJobRepository {
    var jobs: Jobs

    constructor ()
      ensures jobs == map[]
    {
      jobs := map[];
    }

    method Create(id: string, repo: string) returns (ok: bool)
      modifies this
      ensures ok == (id !in old(jobs))
      ensures jobs == if ok then old(jobs)[id := Job(repo, Queued, None, 0, None)] else old(jobs)
      ensures jobs == Created(old(jobs), id, repo)
    {
      ok := id !in jobs;
      if ok {
        jobs := jobs[id := Job(repo, Queued, None, 0, None)];
      }
    }

    method GetByID(id: string) returns (job: Option<Job>)
      ensures job == if id in jobs then Some(jobs[id]) else None
    {
      job := if id in jobs then Some(jobs[id]) else None;
    }

    method MarkRunning(id: string, worker: string) returns (claim: Claim)
      modifies this
      ensures jobs == Claimed(old(jobs), id, worker)
      ensures claim == Won <==> id in old(jobs) && old(jobs)[id].status == Queued
      ensures claim == Won ==> jobs == old(jobs)[id := old(jobs)[id].(status := Running, worker := Some(worker))]
      ensures claim != Won ==> jobs == old(jobs)
      ensures claim == LostToNewer <==> id in old(jobs) && old(jobs)[id].status == Superseded
    {
      if id in jobs && jobs[id].status == Queued {
        jobs := jobs[id := jobs[id].(status := Running, worker := Some(worker))];
        return Won;
      }
      var job := GetByID(id);
      claim := if job.Some? && job.value.status == Superseded then LostToNewer else Refused;
    }

    method MarkDone(id: string, chunks: nat)
      modifies this
      ensures jobs == MarkedDone(old(jobs), id, chunks)
      ensures id in old(jobs) ==> jobs == old(jobs)[id := old(jobs)[id].(status := Done, chunks := chunks)]
      ensures id !in old(jobs) ==> jobs == old(jobs)
    {
      if id in jobs {
        jobs := jobs[id := jobs[id].(status := Done, chunks := chunks)];
      }
    }

    method MarkFailed(id: string, message: string)
      modifies this
      ensures jobs == MarkedFailed(old(jobs), id, message)
      ensures id in old(jobs) ==> jobs == old(jobs)[id := old(jobs)[id].(status := Failed, error := Some(message))]
      ensures id !in old(jobs) ==> jobs == old(jobs)
    {
      if id in jobs {
        jobs := jobs[id := jobs[id].(status := Failed, error := Some(message))];
      }
    }

    method SupersedeOlderJobs(repo: string, newest: string) returns (count: nat)
      modifies this
      ensures jobs == WithoutOlder(old(jobs), repo, newest)
      ensures jobs.Keys == old(jobs).Keys
      ensures forall id :: id in jobs ==>
                var job := old(jobs)[id];
                jobs[id] == if job.repo == repo && id != newest && job.status in {Queued, Running}
                            then job.(status := Superseded) else job
      ensures count == |set id | id in old(jobs) && Older(old(jobs)[id], id, repo, newest)|
    {
      var older := set id | id in jobs && Older(jobs[id], id, repo, newest);
      jobs := map id | id in jobs :: if id in older then jobs[id].(status := Superseded) else jobs[id];
      count := |older|;
    }

    method IsSuperseded(id: string) returns (superseded: Option<bool>)
      ensures superseded == if id in jobs then Some(jobs[id].status == Superseded) else None
    {
      var job := GetByID(id);
      superseded := if job.Some? then Some(job.value.status == Superseded) else None;
    }
  }

  // ---- Worker and enqueuer ----

  /** Where a worker is, by what it does next; an idle worker waits on the queue. */
  datatype WorkerStep =
    | Idle
    | Loading(job: string)
    | Claiming(job: string)
    | Preparing(job: string)
    | Ingesting(job: string)
    | Finishing(job: string)
    | Failing(job: string)

  /** One step of a worker that holds a job; `ok` is the outcome of the calls it makes there. */
  function Processed(jobs: Jobs, worker: string, step: WorkerStep, ok: bool): (Jobs, WorkerStep) {
    match step
    case Idle => (jobs, Idle)
    case Loading(id) => (jobs, if ok && id in jobs && jobs[id].status != Superseded then Claiming(id) else Idle)
    case Claiming(id) =>
      if ok && id in jobs && jobs[id].status == Queued then (Claimed(jobs, id, worker), Preparing(id)) else (jobs, Idle)
    case Preparing(id) =>
      if !ok || id !in jobs then (jobs, Failing(id))
      else (jobs, if jobs[id].status == Superseded then Idle else Ingesting(id))
    case Ingesting(id) => (jobs, if ok then Finishing(id) else Failing(id))
    case Finishing(id) => (if ok then MarkedDone(jobs, id, 0) else jobs, Idle)
    case Failing(id) => (if ok then MarkedFailed(jobs, id, "ingestion failed") else jobs, Idle)
  }

  /** A worker going on by itself for `n` steps; `oks` says how each of them goes. */
  function WorkedOn(jobs: Jobs, worker: string, step: WorkerStep, oks: nat -> bool, n: nat): (Jobs, WorkerStep)
    decreases n, oks
  {
    if n == 0 then (jobs, step) else
      var (before, at) := WorkedOn(jobs, worker, step, oks, n - 1);
      Processed(before, worker, at, oks(n - 1))
  }

  /** The last of five undisturbed steps with a queued job: it is claimed if it could be loaded and claimed,
      and then, if the last update succeeds, failed or done, depending on whether it could be prepared and
      ingested. In any case the worker is free again. */
  lemma QueuedJobIsWorkedOff(jobs: Jobs, worker: string, id: string, oks: nat -> bool)
    requires id in jobs && jobs[id].status == Queued
    ensures var (after, step) := WorkedOn(jobs, worker, Loading(id), oks, 5);
            && step == Idle && after.Keys == jobs.Keys
            && (forall other :: other in jobs && other != id ==> after[other] == jobs[other])
            && after[id].repo == jobs[id].repo
            && (!oks(0) || !oks(1) ==> after[id] == jobs[id])
            && (oks(0) && oks(1) ==>
                  && after[id].worker == Some(worker)
                  && after[id].status == (if oks(2) && oks(3) && oks(4) then Done
                                          else if !oks(2) && oks(3) then Failed
                                          else if oks(2) && !oks(3) && oks(4) then Failed
                                          else Running))
  {
    var (one, loaded) := WorkedOn(jobs, worker, Loading(id), oks, 1);
    assert WorkedOn(jobs, worker, Loading(id), oks, 0) == (jobs, Loading(id));
    var (two, claimed) := WorkedOn(jobs, worker, Loading(id), oks, 2);
    var (three, prepared) := WorkedOn(jobs, worker, Loading(id), oks, 3);
    var (four, ingested) := WorkedOn(jobs, worker, Loading(id), oks, 4);
    assert WorkedOn(jobs, worker, Loading(id), oks, 5) == Processed(four, worker, ingested, oks(4));
  }

  /** A worker that finds its job superseded, before the claim or at the check, leaves the table as it is and
      is free again. */
  lemma SupersededJobIsLeft(jobs: Jobs, worker: string, id: string)
    requires id in jobs && jobs[id].status == Superseded
    ensures Processed(jobs, worker, Loading(id), true) == (jobs, Idle)
    ensures Processed(jobs, worker, Claiming(id), true) == (jobs, Idle)
    ensures Processed(jobs, worker, Preparing(id), true) == (jobs, Idle)
  {
  }

  class JobWorker {
    const jobRepo: IngestionJobRepository
    var queue: seq<string>

    constructor (jobRepo: IngestionJobRepository)
      ensures this.jobRepo == jobRepo && queue == []
    {
      this.jobRepo, queue := jobRepo, [];
    }

    method Dequeue() returns (step: WorkerStep)
      modifies this`queue
      ensures old(queue) == [] ==> step == Idle && queue == []
      ensures old(queue) != [] ==> step == Loading(old(queue)[0]) && queue == old(queue)[1..]
    {
      step := Idle;
      if queue != [] {
        step, queue := Loading(queue[0]), queue[1..];
      }
    }

    /** The next step of processing a job. The supersede check sits between cloning and ingesting. */
    method ProcessJobStep(worker: string, step: WorkerStep, ok: bool) returns (next: WorkerStep)
      modifies jobRepo
      ensures (jobRepo.jobs, next) == Processed(old(jobRepo.jobs), worker, step, ok)
    {
      next := Idle;
      match step
      case Idle =>
      case Loading(id) =>
        var job := jobRepo.GetByID(id);
        if ok && job.Some? && job.value.status != Superseded {
          next := Claiming(id);
        }
      case Claiming(id) =>
        if ok {
          var claim := jobRepo.MarkRunning(id, worker);
          if claim == Won {
            next := Preparing(id);
          }
        }
      case Preparing(id) =>
        var superseded := jobRepo.IsSuperseded(id);
        if !ok || superseded.None? {
          next := Failing(id);
        } else if !superseded.value {
          next := Ingesting(id);
        }
      case Ingesting(id) =>
        next := if ok then Finishing(id) else Failing(id);
      case Finishing(id) =>
        if ok {
          jobRepo.MarkDone(id, 0);
        }
      case Failing(id) =>
        if ok {
          jobRepo.MarkFailed(id, "ingestion failed");
        }
    }

    /** One turn of the worker loop. */
    method Turn(worker: string, step: WorkerStep, ok: bool) returns (next: WorkerStep)
      modifies this, jobRepo
      ensures step.Idle? && old(queue) != [] ==> next == Loading(old(queue)[0]) && queue == old(queue)[1..]
      ensures step.Idle? && old(queue) == [] ==> next == Idle
      ensures !step.Idle? || old(queue) == [] ==> queue == old(queue)
      ensures !step.Idle? ==> (jobRepo.jobs, next) == Processed(old(jobRepo.jobs), worker, step, ok)
      ensures step.Idle? ==> jobRepo.jobs == old(jobRepo.jobs)
    {
      if step.Idle? {
        next := Dequeue();
      } else {
        next := ProcessJobStep(worker, step, ok);
      }
    }

    /** Create, supersede, push: undisturbed, the new job is the repository's only live one. */
    method EnqueueForRepo(id: string, repo: string, supersedeFault: bool, pushFault: bool) returns (ok: bool)
      requires id !in jobRepo.jobs
      modifies this, jobRepo
      ensures ok == !pushFault && queue == if pushFault then old(queue) else old(queue) + [id]
      ensures jobRepo.jobs ==
              if supersedeFault then Created(old(jobRepo.jobs), id, repo)
              else WithoutOlder(Created(old(jobRepo.jobs), id, repo), repo, id)
      ensures id in jobRepo.jobs && jobRepo.jobs[id] == Job(repo, Queued, None, 0, None)
      ensures !supersedeFault ==>
                forall j :: j in jobRepo.jobs && jobRepo.jobs[j].repo == repo ==> (Live(jobRepo.jobs[j]) <==> j == id)
    {
      ok := jobRepo.Create(id, repo);
      if !supersedeFault {
        var _ := jobRepo.SupersedeOlderJobs(repo, id);
      }
      ok := !pushFault;
      if ok {
        queue := queue + [id];
      }
    }
  }

  // ---- Interleavings ----

  datatype EnqueueStep = AwaitSupersede | AwaitPush | AwaitMarkFailed | Enqueued

  /** What happened to a job: how far its enqueuer is, whether its supersede step succeeded, whether
      its push failed, who claimed it, whether its claimer found it current before ingesting, and whether its claimer is
      through with it. */
  datatype Log = Log(manual: bool, enqueue: EnqueueStep, passed: bool, pushFailed: bool, claims: seq<string>,
                     cleared: bool, closed: bool)

  datatype System = System(jobs: Jobs, logs: map<string, Log>, queue: seq<string>, workers: map<string, WorkerStep>)

  const Start := System(map[], map[], [], map[])

  datatype Action =
    | Create(id: string, repo: string, manual: bool)
    | Supersede(id: string, ok: bool)
    | Push(id: string, ok: bool)
    | MarkPushFailed(id: string, ok: bool)
    | Work(worker: string, ok: bool)

  function StepOf(s: System, worker: string): WorkerStep {
    if worker in s.workers then s.workers[worker] else Idle
  }

  function AfterCreate(s: System, id: string, repo: string, manual: bool): System {
    if id in s.jobs then s
    else s.(jobs := Created(s.jobs, id, repo),
            logs := s.logs[id := Log(manual, AwaitSupersede, false, false, [], false, false)])
  }

  function AfterSupersede(s: System, id: string, ok: bool): System {
    if id in s.jobs && id in s.logs && s.logs[id].enqueue == AwaitSupersede then
      s.(jobs := if ok then WithoutOlder(s.jobs, s.jobs[id].repo, id) else s.jobs,
         logs := s.logs[id := s.logs[id].(enqueue := AwaitPush, passed := ok)])
    else s
  }

  /** Only the manual trigger marks a job whose push failed. */
  function AfterPush(s: System, id: string, ok: bool): System {
    if id in s.logs && s.logs[id].enqueue == AwaitPush then
      if ok then s.(queue := s.queue + [id], logs := s.logs[id := s.logs[id].(enqueue := Enqueued)])
      else
        var after := if s.logs[id].manual then AwaitMarkFailed else Enqueued;
        s.(logs := s.logs[id := s.logs[id].(enqueue := after, pushFailed := true)])
    else s
  }

  function AfterMarkPushFailed(s: System, id: string, ok: bool): System {
    if id in s.logs && s.logs[id].enqueue == AwaitMarkFailed then
      s.(jobs := if ok then MarkedFailed(s.jobs, id, "failed to enqueue") else s.jobs,
         logs := s.logs[id := s.logs[id].(enqueue := Enqueued)])
    else s
  }

  function AfterWork(s: System, worker: string, ok: bool): System {
    var step := StepOf(s, worker);
    if step.Idle? then
      if s.queue == [] then s else s.(queue := s.queue[1..], workers := s.workers[worker := Loading(s.queue[0])])
    else
      var (jobs, next) := Processed(s.jobs, worker, step, ok);
      s.(jobs := jobs, workers := s.workers[worker := next], logs := Noted(s.logs, worker, step, next))
  }

  /** A claim, a passed check and the last update go into the log. */
  function Noted(logs: map<string, Log>, worker: string, step: WorkerStep, next: WorkerStep): map<string, Log> {
    if step.Idle? || step.job !in logs then logs
    else if step.Claiming? && next.Preparing? then
      logs[step.job := logs[step.job].(claims := logs[step.job].claims + [worker])]
    else if step.Preparing? && next.Ingesting? then logs[step.job := logs[step.job].(cleared := true)]
    else if step.Finishing? || step.Failing? then logs[step.job := logs[step.job].(closed := true)]
    else logs
  }

  function After(s: System, a: Action): System {
    match a
    case Create(id, repo, manual) => AfterCreate(s, id, repo, manual)
    case Supersede(id, ok) => AfterSupersede(s, id, ok)
    case Push(id, ok) => AfterPush(s, id, ok)
    case MarkPushFailed(id, ok) => AfterMarkPushFailed(s, id, ok)
    case Work(worker, ok) => AfterWork(s, worker, ok)
  }

  function Run(start: System, actions: seq<Action>): System {
    if actions == [] then start else After(Run(start, actions[..|actions| - 1]), actions[|actions| - 1])
  }

  // ---- What every interleaving keeps ----

  predicate JobFits(job: Job, log: Log) {
    && |log.claims| <= 1
    && (job.status == Queued ==> log.claims == [])
    && (job.status == Running ==> log.claims != [])
    && (log.cleared ==> log.claims != [])
    && (job.status == Done ==> log.cleared)
    && (job.status == Failed ==> log.claims != [] || log.pushFailed)
    && (log.passed ==> log.enqueue != AwaitSupersede)
    && (log.enqueue == AwaitMarkFailed ==> log.pushFailed)
    && (log.enqueue in {AwaitSupersede, AwaitPush} ==> !log.pushFailed)
    && (log.closed ==> log.claims != [])
    && (log.claims != [] ==> Pushed(log))
    && (log.claims != [] && job.status in {Done, Failed} ==> log.closed)
  }

  predicate Pushed(log: Log) {
    log.enqueue == Enqueued && !log.pushFailed
  }

  /** A worker past the claim is the job's only claimer, and past the check the job was cleared. */
  predicate WorkerFits(step: WorkerStep, worker: string, logs: map<string, Log>) {
    match step
    case Idle => true
    case Loading(id) => id in logs && Pushed(logs[id])
    case Claiming(id) => id in logs && Pushed(logs[id])
    case Preparing(id) => id in logs && Holding(logs[id], worker)
    case Failing(id) => id in logs && Holding(logs[id], worker)
    case Ingesting(id) => id in logs && Holding(logs[id], worker) && logs[id].cleared
    case Finishing(id) => id in logs && Holding(logs[id], worker) && logs[id].cleared
  }

  predicate Holding(log: Log, worker: string) {
    log.claims == [worker] && Pushed(log) && !log.closed
  }

  /** Two live jobs of one repository have not both superseded the older ones. */
  ghost predicate OneCurrent(jobs: Jobs, logs: map<string, Log>)
    requires jobs.Keys == logs.Keys
  {
    forall a, b :: a in jobs && b in jobs && a != b ==> !BothCurrent(jobs[a], logs[a], jobs[b], logs[b])
  }

  predicate BothCurrent(a: Job, logA: Log, b: Job, logB: Log) {
    a.repo == b.repo && Live(a) && Live(b) && logA.passed && logB.passed
  }

  ghost predicate JobsFit(jobs: Jobs, logs: map<string, Log>) {
    jobs.Keys == logs.Keys && (forall id :: id in jobs ==> JobFits(jobs[id], logs[id])) && OneCurrent(jobs, logs)
  }

  ghost predicate WorkersFit(workers: map<string, WorkerStep>, logs: map<string, Log>) {
    forall w :: w in workers ==> WorkerFits(workers[w], w, logs)
  }

  ghost predicate QueueFits(queue: seq<string>, logs: map<string, Log>) {
    forall i :: 0 <= i < |queue| ==> queue[i] in logs && Pushed(logs[queue[i]])
  }

  ghost predicate Sound(s: System) {
    JobsFit(s.jobs, s.logs) && WorkersFit(s.workers, s.logs) && QueueFits(s.queue, s.logs)
  }

  lemma NewJobFits(jobs: Jobs, logs: map<string, Log>, id: string, job: Job, log: Log)
    requires JobsFit(jobs, logs) && id !in jobs && JobFits(job, log) && !log.passed
    ensures JobsFit(jobs[id := job], logs[id := log])
  {
  }

  lemma ChangedJobFits(jobs: Jobs, logs: map<string, Log>, id: string, job: Job, log: Log)
    requires JobsFit(jobs, logs) && id in jobs && JobFits(job, log)
    requires job.repo == jobs[id].repo && (Live(job) ==> Live(jobs[id])) && log.passed == logs[id].passed
    ensures JobsFit(jobs[id := job], logs[id := log])
  {
    var after, log' := jobs[id := job], logs[id := log];
    forall a, b | a in after && b in after && a != b
      ensures !BothCurrent(after[a], log'[a], after[b], log'[b])
    {
      assert !BothCurrent(jobs[a], logs[a], jobs[b], logs[b]);
    }
  }

  lemma SupersededJobsFit(jobs: Jobs, logs: map<string, Log>, id: string)
    requires JobsFit(jobs, logs) && id in jobs && logs[id].enqueue == AwaitSupersede
    ensures JobsFit(WithoutOlder(jobs, jobs[id].repo, id), logs[id := logs[id].(enqueue := AwaitPush, passed := true)])
  {
    var after, log' := WithoutOlder(jobs, jobs[id].repo, id),
        logs[id := logs[id].(enqueue := AwaitPush, passed := true)];
    forall j | j in after
      ensures JobFits(after[j], log'[j])
      ensures after[j].repo == jobs[j].repo && (Live(after[j]) ==> Live(jobs[j]))
      ensures j != id && after[j].repo == after[id].repo ==> !Live(after[j])
    {
      assert JobFits(jobs[j], logs[j]);
    }
    forall a, b | a in after && b in after && a != b
      ensures !BothCurrent(after[a], log'[a], after[b], log'[b])
    {
      if a != id && b != id {
        assert !BothCurrent(jobs[a], logs[a], jobs[b], logs[b]);
      }
    }
  }

  /** A log may change as long as it takes nothing from a worker. */
  predicate Extends(log: Log, old': Log) {
    && (old'.claims == [] || log.claims == old'.claims) && (old'.cleared ==> log.cleared)
    && (log.closed ==> old'.closed) && (Pushed(old') ==> Pushed(log))
  }

  lemma WorkersStillFit(workers: map<string, WorkerStep>, queue: seq<string>, logs: map<string, Log>, id: string,
                        log: Log)
    requires WorkersFit(workers, logs) && QueueFits(queue, logs) && (id in logs ==> Extends(log, logs[id]))
    ensures WorkersFit(workers, logs[id := log]) && QueueFits(queue, logs[id := log])
  {
    forall w | w in workers ensures WorkerFits(workers[w], w, logs[id := log]) {
      assert WorkerFits(workers[w], w, logs);
    }
  }

  /** Closing a job concerns its claimer alone. */
  lemma OthersStillFit(workers: map<string, WorkerStep>, queue: seq<string>, logs: map<string, Log>, id: string,
                       worker: string)
    requires WorkersFit(workers, logs) && QueueFits(queue, logs) && worker !in workers
    requires id in logs && logs[id].claims == [worker]
    ensures var after := logs[id := logs[id].(closed := true)]; WorkersFit(workers, after) && QueueFits(queue, after)
  {
    forall w | w in workers ensures WorkerFits(workers[w], w, logs[id := logs[id].(closed := true)]) {
      assert WorkerFits(workers[w], w, logs);
    }
  }

  lemma CreateKeepsSound(s: System, id: string, repo: string, manual: bool)
    requires Sound(s)
    ensures Sound(AfterCreate(s, id, repo, manual))
  {
    if id !in s.jobs {
      var log := Log(manual, AwaitSupersede, false, false, [], false, false);
      NewJobFits(s.jobs, s.logs, id, Job(repo, Queued, None, 0, None), log);
      WorkersStillFit(s.workers, s.queue, s.logs, id, log);
    }
  }

  lemma SupersedeKeepsSound(s: System, id: string, ok: bool)
    requires Sound(s)
    ensures Sound(AfterSupersede(s, id, ok))
  {
    if id in s.jobs && s.logs[id].enqueue == AwaitSupersede {
      var log := s.logs[id].(enqueue := AwaitPush, passed := ok);
      if ok {
        SupersededJobsFit(s.jobs, s.logs, id);
      } else {
        ChangedJobFits(s.jobs, s.logs, id, s.jobs[id], log);
        assert s.jobs[id := s.jobs[id]] == s.jobs;
      }
      WorkersStillFit(s.workers, s.queue, s.logs, id, log);
    }
  }

  lemma PushKeepsSound(s: System, id: string, ok: bool)
    requires Sound(s)
    ensures Sound(AfterPush(s, id, ok))
  {
    if id in s.jobs && s.logs[id].enqueue == AwaitPush {
      assert JobFits(s.jobs[id], s.logs[id]);
      var log := AfterPush(s, id, ok).logs[id];
      LogChangeKeepsSound(s, id, log);
      assert ok ==> Pushed(log);
    }
  }

  lemma LogChangeKeepsSound(s: System, id: string, log: Log)
    requires Sound(s) && id in s.jobs && JobFits(s.jobs[id], log) && Extends(log, s.logs[id])
    requires log.passed == s.logs[id].passed
    ensures Sound(s.(logs := s.logs[id := log]))
  {
    assert s.jobs[id := s.jobs[id]] == s.jobs;
    ChangedJobFits(s.jobs, s.logs, id, s.jobs[id], log);
    WorkersStillFit(s.workers, s.queue, s.logs, id, log);
  }

  lemma MarkPushFailedKeepsSound(s: System, id: string, ok: bool)
    requires Sound(s)
    ensures Sound(AfterMarkPushFailed(s, id, ok))
  {
    if id in s.jobs && s.logs[id].enqueue == AwaitMarkFailed {
      var log := s.logs[id].(enqueue := Enqueued);
      var job := if ok then s.jobs[id].(status := Failed, error := Some("failed to enqueue")) else s.jobs[id];
      ChangedJobFits(s.jobs, s.logs, id, job, log);
      assert s.jobs[id := s.jobs[id]] == s.jobs;
      WorkersStillFit(s.workers, s.queue, s.logs, id, log);
    }
  }

  /** What a worker does keeps the jobs, its own place and everyone else's. */
  ghost predicate WorkFits(s: System, worker: string, step: WorkerStep, ok: bool) {
    var (jobs, next) := Processed(s.jobs, worker, step, ok);
    var logs := Noted(s.logs, worker, step, next);
    JobsFit(jobs, logs) && WorkerFits(next, worker, logs) && WorkersFit(s.workers - {worker}, logs)
        && QueueFits(s.queue, logs)
  }

  lemma ClaimFits(s: System, worker: string, id: string, ok: bool)
    requires Sound(s) && WorkerFits(Claiming(id), worker, s.logs)
    ensures WorkFits(s, worker, Claiming(id), ok)
  {
    if ok && id in s.jobs && s.jobs[id].status == Queued {
      var job, log := s.jobs[id].(status := Running, worker := Some(worker)), s.logs[id].(claims := [worker]);
      assert s.logs[id].claims + [worker] == [worker];
      ChangedJobFits(s.jobs, s.logs, id, job, log);
      WorkersStillFit(s.workers, s.queue, s.logs, id, log);
    }
  }

  lemma CheckFits(s: System, worker: string, id: string, ok: bool)
    requires Sound(s) && WorkerFits(Preparing(id), worker, s.logs)
    ensures WorkFits(s, worker, Preparing(id), ok)
  {
    if id in s.jobs {
      var log := s.logs[id].(cleared := true);
      assert s.jobs[id := s.jobs[id]] == s.jobs;
      ChangedJobFits(s.jobs, s.logs, id, s.jobs[id], log);
      WorkersStillFit(s.workers, s.queue, s.logs, id, log);
    }
  }

  lemma EndFits(s: System, worker: string, step: WorkerStep, ok: bool)
    requires Sound(s) && WorkerFits(step, worker, s.logs) && (step.Finishing? || step.Failing?)
    ensures WorkFits(s, worker, step, ok)
  {
    var id := step.job;
    if id in s.jobs {
      var done, failed := s.jobs[id].(status := Done, chunks := 0),
          s.jobs[id].(status := Failed, error := Some("ingestion failed"));
      var job := if !ok then s.jobs[id] else if step.Finishing? then done else failed;
      assert s.jobs[id := s.jobs[id]] == s.jobs;
      ChangedJobFits(s.jobs, s.logs, id, job, s.logs[id].(closed := true));
      OthersStillFit(s.workers - {worker}, s.queue, s.logs, id, worker);
    }
  }

  lemma OtherStepFits(s: System, worker: string, step: WorkerStep, ok: bool)
    requires Sound(s) && WorkerFits(step, worker, s.logs) && (step.Idle? || step.Loading? || step.Ingesting?)
    ensures WorkFits(s, worker, step, ok)
  {
    assert forall w :: w in s.workers - {worker} ==> s.workers[w] == (s.workers - {worker})[w];
  }

  lemma HeldStepFits(s: System, worker: string, ok: bool)
    requires Sound(s)
    ensures WorkFits(s, worker, StepOf(s, worker), ok)
  {
    var step := StepOf(s, worker);
    assert WorkerFits(step, worker, s.logs);
    match step
    case Claiming(id) => ClaimFits(s, worker, id, ok);
    case Preparing(id) => CheckFits(s, worker, id, ok);
    case Finishing(_) => EndFits(s, worker, step, ok);
    case Failing(_) => EndFits(s, worker, step, ok);
    case _ => OtherStepFits(s, worker, step, ok);
  }

  lemma WorkKeepsSound(s: System, worker: string, ok: bool)
    requires Sound(s)
    ensures Sound(AfterWork(s, worker, ok))
  {
    if StepOf(s, worker).Idle? {
      if s.queue != [] {
        assert s.queue[0] in s.logs && Pushed(s.logs[s.queue[0]]);
      }
    } else {
      HeldStepFits(s, worker, ok);
      var after := AfterWork(s, worker, ok);
      forall w | w in after.workers ensures WorkerFits(after.workers[w], w, after.logs) {
        if w != worker {
          assert w in s.workers - {worker};
        }
      }
    }
  }

  lemma StepKeepsSound(s: System, a: Action)
    requires Sound(s)
    ensures Sound(After(s, a))
  {
    match a
    case Create(id, repo, manual) => CreateKeepsSound(s, id, repo, manual);
    case Supersede(id, ok) => SupersedeKeepsSound(s, id, ok);
    case Push(id, ok) => PushKeepsSound(s, id, ok);
    case MarkPushFailed(id, ok) => MarkPushFailedKeepsSound(s, id, ok);
    case Work(worker, ok) => WorkKeepsSound(s, worker, ok);
  }

  lemma {:induction false} EveryRunIsSound(start: System, actions: seq<Action>)
    requires Sound(start)
    ensures Sound(Run(start, actions))
  {
    if actions != [] {
      EveryRunIsSound(start, actions[..|actions| - 1]);
      StepKeepsSound(Run(start, actions[..|actions| - 1]), actions[|actions| - 1]);
    }
  }

  /** Two jobs of a repository whose enqueuers both superseded the older ones are never both queued or
      running. */
  lemma OneCurrentJobPerRepo(actions: seq<Action>, a: string, b: string)
    ensures var s := Run(Start, actions);
            s.jobs.Keys == s.logs.Keys &&
            (a in s.jobs && b in s.jobs && a != b ==> !BothCurrent(s.jobs[a], s.logs[a], s.jobs[b], s.logs[b]))
  {
    EveryRunIsSound(Start, actions);
  }

  predicate Holds(step: WorkerStep, id: string) {
    step in {Preparing(id), Ingesting(id), Finishing(id), Failing(id)}
  }

  lemma HeldByItsClaimer(s: System, worker: string, id: string)
    requires Sound(s)
    ensures Holds(StepOf(s, worker), id) ==> id in s.logs && s.logs[id].claims == [worker]
    ensures id in s.logs ==> |s.logs[id].claims| <= 1
  {
    assert WorkerFits(StepOf(s, worker), worker, s.logs);
    assert id in s.jobs ==> JobFits(s.jobs[id], s.logs[id]);
  }

  /** A job is claimed at most once, by the only worker that ever works on it. */
  lemma ClaimedByOneWorker(actions: seq<Action>, v: string, w: string, id: string)
    ensures var s := Run(Start, actions);
            && (Holds(StepOf(s, v), id) && Holds(StepOf(s, w), id) ==> v == w)
            && (id in s.logs ==> |s.logs[id].claims| <= 1)
  {
    EveryRunIsSound(Start, actions);
    HeldByItsClaimer(Run(Start, actions), v, id);
    HeldByItsClaimer(Run(Start, actions), w, id);
  }

  /** The step that makes a job done is its claimer's, after its second supersede check, and it
      replaces the status running or superseded. */
  lemma DoneOnlyByClearedClaimer(s: System, a: Action, id: string)
    requires Sound(s) && id in s.jobs && s.jobs[id].status != Done
    requires id in After(s, a).jobs && After(s, a).jobs[id].status == Done
    ensures a.Work? && StepOf(s, a.worker) == Finishing(id)
    ensures s.logs[id].claims == [a.worker] && s.logs[id].cleared && s.jobs[id].status in {Running, Superseded}
  {
    assert JobFits(s.jobs[id], s.logs[id]);
    if a.Work? {
      assert WorkerFits(StepOf(s, a.worker), a.worker, s.logs);
    }
  }

  lemma OnlyWorkClears(s: System, a: Action, id: string)
    requires id in s.logs && !a.Work? && s.jobs.Keys == s.logs.Keys
    ensures id in After(s, a).logs && After(s, a).logs[id].cleared == s.logs[id].cleared
  {
  }

  lemma WorkClears(s: System, worker: string, ok: bool, id: string)
    requires id in s.logs && !s.logs[id].cleared && id in AfterWork(s, worker, ok).logs
    ensures AfterWork(s, worker, ok).logs[id].cleared ==>
              StepOf(s, worker) == Preparing(id) && id in s.jobs && s.jobs[id].status != Superseded
  {
  }

  /** The second check passes only on a job that is running at that moment. */
  lemma ClearedWhileRunning(s: System, a: Action, id: string)
    requires Sound(s) && id in s.jobs && !s.logs[id].cleared
    requires id in After(s, a).logs && After(s, a).logs[id].cleared
    ensures a.Work? && StepOf(s, a.worker) == Preparing(id) && s.jobs[id].status == Running
  {
    if !a.Work? {
      OnlyWorkClears(s, a, id);
    } else {
      WorkClears(s, a.worker, a.ok, id);
      assert WorkerFits(Preparing(id), a.worker, s.logs) && JobFits(s.jobs[id], s.logs[id]);
    }
  }

  // ---- Superseded jobs ----

  predicate Retired(s: System, id: string) {
    && id in s.jobs && id in s.logs && s.logs[id].claims == []
    && (s.jobs[id].status == Superseded || (s.jobs[id].status == Failed && s.logs[id].pushFailed))
  }

  lemma WorkKeepsRetired(s: System, worker: string, ok: bool, id: string)
    requires Sound(s) && Retired(s, id)
    ensures Retired(AfterWork(s, worker, ok), id)
  {
    var step := StepOf(s, worker);
    assert WorkerFits(step, worker, s.logs);
  }

  lemma EnqueueKeepsRetired(s: System, a: Action, id: string)
    requires Sound(s) && Retired(s, id) && !a.Work?
    ensures Retired(After(s, a), id)
  {
    assert JobFits(s.jobs[id], s.logs[id]);
  }

  lemma StepKeepsRetired(s: System, a: Action, id: string)
    requires Sound(s) && Retired(s, id)
    ensures Retired(After(s, a), id)
  {
    if a.Work? {
      WorkKeepsRetired(s, a.worker, a.ok, id);
    } else {
      EnqueueKeepsRetired(s, a, id);
    }
  }

  /** A job superseded before anyone claimed it is never claimed, and it keeps that status unless its
      own push failed. */
  lemma {:induction false} SupersededStays(s: System, actions: seq<Action>, id: string)
    requires Sound(s) && Retired(s, id)
    ensures var after := Run(s, actions);
            Retired(after, id) && (!after.logs[id].pushFailed ==> after.jobs[id].status == Superseded)
  {
    if actions != [] {
      var n := |actions| - 1;
      SupersededStays(s, actions[..n], id);
      EveryRunIsSound(s, actions[..n]);
      StepKeepsRetired(Run(s, actions[..n]), actions[n], id);
    }
  }

  /** Nobody else's supersede step is outstanding in this job's repository. */
  ghost predicate Settled(s: System, id: string) {
    && id in s.jobs && s.jobs[id].status != Superseded && s.jobs.Keys == s.logs.Keys
    && forall other :: other in s.jobs ==> !Threatens(s.jobs[other], s.logs[other], other, id, s.jobs[id].repo)
  }

  predicate Threatens(job: Job, log: Log, other: string, id: string, repo: string) {
    other != id && job.repo == repo && log.enqueue == AwaitSupersede
  }

  /** What one step can do to the threats of another job. */
  lemma StepAddsNoThreat(s: System, a: Action, id: string, other: string, repo: string)
    requires s.jobs.Keys == s.logs.Keys && other in s.jobs && !Threatens(s.jobs[other], s.logs[other], other, id, repo)
    ensures var after := After(s, a);
            && after.jobs.Keys == after.logs.Keys && other in after.jobs
            && after.jobs[other].repo == s.jobs[other].repo
            && !Threatens(after.jobs[other], after.logs[other], other, id, repo)
  {
  }

  lemma StepKeepsCurrent(s: System, a: Action, id: string)
    requires Settled(s, id)
    ensures id in After(s, a).jobs && After(s, a).jobs[id].status != Superseded
    ensures After(s, a).jobs[id].repo == s.jobs[id].repo
  {
    if a.Supersede? && a.id in s.jobs && a.id in s.logs {
      assert !Threatens(s.jobs[a.id], s.logs[a.id], a.id, id, s.jobs[id].repo);
    }
  }

  lemma StepKeepsSettled(s: System, a: Action, id: string)
    requires Settled(s, id) && (a.Create? ==> a.repo != s.jobs[id].repo)
    ensures Settled(After(s, a), id) && After(s, a).jobs[id].repo == s.jobs[id].repo
  {
    var after, repo := After(s, a), s.jobs[id].repo;
    StepKeepsCurrent(s, a, id);
    StepAddsNoThreat(s, a, id, id, repo);
    forall other | other in after.jobs ensures !Threatens(after.jobs[other], after.logs[other], other, id, repo) {
      if other in s.jobs {
        StepAddsNoThreat(s, a, id, other, repo);
      } else {
        OnlyCreateAdds(s, a, other);
      }
    }
  }

  lemma OnlyCreateAdds(s: System, a: Action, id: string)
    requires s.jobs.Keys == s.logs.Keys && id !in s.jobs && id in After(s, a).jobs
    ensures a.Create? && After(s, a).jobs[id].repo == a.repo
  {
  }

  /** Enqueues that do not overlap cannot supersede each other: once no other supersede step is
      outstanding, a job is not superseded before a newer job is created. */
  lemma {:induction false} NewestIsNotSuperseded(s: System, actions: seq<Action>, id: string)
    requires Settled(s, id)
    requires forall k :: 0 <= k < |actions| && actions[k].Create? ==> actions[k].repo != s.jobs[id].repo
    ensures Settled(Run(s, actions), id) && Run(s, actions).jobs[id].repo == s.jobs[id].repo
  {
    if actions != [] {
      var n := |actions| - 1;
      NewestIsNotSuperseded(s, actions[..n], id);
      StepKeepsSettled(Run(s, actions[..n]), actions[n], id);
    }
  }

  predicate AwaitsSupersede(s: System, other: string, id: string) {
    other in s.jobs && other in s.logs && id in s.jobs
        && Threatens(s.jobs[other], s.logs[other], other, id, s.jobs[id].repo)
  }

  /** No new job for this repository. */
  predicate CreatesNone(actions: seq<Action>, repo: string) {
    forall k :: 0 <= k < |actions| && actions[k].Create? ==> actions[k].repo != repo
  }

  /** Without a newer job, a live job can still be superseded exactly when the supersede step of
      another enqueue of its repository is outstanding: only overlapping enqueues are at risk. */
  lemma SupersededOnlyByOverlap(s: System, id: string)
    requires Sound(s) && id in s.jobs && Live(s.jobs[id])
    ensures (exists actions :: CreatesNone(actions, s.jobs[id].repo) && Ends(s, actions, id, Superseded)) <==>
            exists other :: AwaitsSupersede(s, other, id)
  {
    if exists other :: AwaitsSupersede(s, other, id) {
      var other :| AwaitsSupersede(s, other, id);
      OverlapSupersedes(s, other, id);
    } else {
      NoOverlapSettles(s, id);
      forall actions | CreatesNone(actions, s.jobs[id].repo) ensures !Ends(s, actions, id, Superseded) {
        NewestIsNotSuperseded(s, actions, id);
      }
    }
  }

  lemma OverlapSupersedes(s: System, other: string, id: string)
    requires Sound(s) && AwaitsSupersede(s, other, id) && Live(s.jobs[id])
    ensures CreatesNone([Supersede(other, true)], s.jobs[id].repo) && Ends(s, [Supersede(other, true)], id, Superseded)
  {
    RunExtends(s, [], Supersede(other, true));
    assert [] + [Supersede(other, true)] == [Supersede(other, true)];
  }

  lemma NoOverlapSettles(s: System, id: string)
    requires Sound(s) && id in s.jobs && Live(s.jobs[id]) && !exists other :: AwaitsSupersede(s, other, id)
    ensures Settled(s, id)
  {
    forall other | other in s.jobs ensures !Threatens(s.jobs[other], s.logs[other], other, id, s.jobs[id].repo) {
      assert !AwaitsSupersede(s, other, id);
    }
  }

  ghost predicate Ends(s: System, actions: seq<Action>, id: string, status: JobStatus) {
    var end := Run(s, actions);
    id in end.jobs && end.jobs[id].status == status
  }

  // ---- Superseded and done ----

  predicate PastCheck(step: WorkerStep, id: string) {
    step == Ingesting(id) || step == Finishing(id)
  }

  ghost predicate BeingIngested(s: System, id: string) {
    exists w :: PastCheck(StepOf(s, w), id)
  }

  /** Out of reach of done: retired, and no worker past the second check. */
  ghost predicate NeverDone(s: System, id: string) {
    id in s.jobs && s.jobs[id].status in {Superseded, Failed} && !BeingIngested(s, id)
  }

  lemma FailedIsReleased(s: System, worker: string, id: string)
    requires Sound(s) && id in s.jobs && s.jobs[id].status == Failed
    ensures !Holds(StepOf(s, worker), id)
  {
    assert JobFits(s.jobs[id], s.logs[id]) && WorkerFits(StepOf(s, worker), worker, s.logs);
  }

  lemma WorkKeepsNeverDone(s: System, worker: string, ok: bool, id: string)
    requires Sound(s) && NeverDone(s, id)
    ensures NeverDone(AfterWork(s, worker, ok), id)
  {
    var next, step := AfterWork(s, worker, ok), StepOf(s, worker);
    assert !PastCheck(step, id);
    if s.jobs[id].status == Failed {
      FailedIsReleased(s, worker, id);
    }
    forall w ensures !PastCheck(StepOf(next, w), id) {
      assert !PastCheck(StepOf(s, w), id);
    }
  }

  lemma EnqueueKeepsNeverDone(s: System, a: Action, id: string)
    requires Sound(s) && NeverDone(s, id) && !a.Work?
    ensures NeverDone(After(s, a), id)
  {
    assert After(s, a).workers == s.workers;
    forall w ensures !PastCheck(StepOf(After(s, a), w), id) {
      assert !PastCheck(StepOf(s, w), id);
    }
  }

  lemma {:induction false} NeverDoneStays(s: System, actions: seq<Action>, id: string)
    requires Sound(s) && NeverDone(s, id)
    ensures NeverDone(Run(s, actions), id)
  {
    if actions != [] {
      var n := |actions| - 1;
      NeverDoneStays(s, actions[..n], id);
      EveryRunIsSound(s, actions[..n]);
      if actions[n].Work? {
        WorkKeepsNeverDone(Run(s, actions[..n]), actions[n].worker, actions[n].ok, id);
      } else {
        EnqueueKeepsNeverDone(Run(s, actions[..n]), actions[n], id);
      }
    }
  }

  lemma IngestedCanBeDone(s: System, id: string, w: string) returns (actions: seq<Action>)
    requires Sound(s) && id in s.jobs && PastCheck(StepOf(s, w), id)
    ensures Ends(s, actions, id, Done)
  {
    if StepOf(s, w) == Ingesting(id) {
      FinishesAnyway(s, id, w);
      actions := [Work(w, true)] + [Work(w, true)];
    } else {
      RunExtends(s, [], Work(w, true));
      actions := [] + [Work(w, true)];
    }
  }

  /** A superseded job can still become done exactly when a worker is past its second check with it. */
  lemma SupersededCanBeDoneIff(s: System, id: string)
    requires Sound(s) && id in s.jobs && s.jobs[id].status == Superseded
    ensures (exists actions :: Ends(s, actions, id, Done)) <==> BeingIngested(s, id)
  {
    if BeingIngested(s, id) {
      var w :| PastCheck(StepOf(s, w), id);
      var actions := IngestedCanBeDone(s, id, w);
    } else {
      forall actions ensures !Ends(s, actions, id, Done) {
        NeverDoneStays(s, actions, id);
      }
    }
  }

  // ---- What is not kept ----

  lemma RunExtends(start: System, actions: seq<Action>, a: Action)
    ensures Run(start, actions + [a]) == After(Run(start, actions), a)
  {
    assert (actions + [a])[..|actions|] == actions;
  }

  /** Two enqueues that create before either supersedes. */
  function Overlapping(repo: string, a: string, b: string): seq<Action> {
    [Create(a, repo, false)] + [Create(b, repo, false)] + [Supersede(a, true)] + [Supersede(b, true)]
  }

  /** Overlapping enqueues retire each other and leave no live job. */
  lemma OverlappingEnqueuesRetireBoth(repo: string, a: string, b: string)
    requires a != b
    ensures var s := Run(Start, Overlapping(repo, a, b));
            a in s.jobs && b in s.jobs && s.jobs[a].status == Superseded && s.jobs[b].status == Superseded
  {
    var first, second, third := [Create(a, repo, false)], [Create(b, repo, false)], [Supersede(a, true)];
    RunExtends(Start, [], first[0]);
    assert [] + first == first;
    RunExtends(Start, first, second[0]);
    RunExtends(Start, first + second, third[0]);
    RunExtends(Start, first + second + third, Supersede(b, true));
  }

  function NewJob(repo: string): Job {
    Job(repo, Queued, None, 0, None)
  }

  function IngestingRun(repo: string, id: string, worker: string): seq<Action> {
    [Create(id, repo, false)] + [Supersede(id, true)] + [Push(id, true)] +
    [Work(worker, true)] + [Work(worker, true)] + [Work(worker, true)] + [Work(worker, true)]
  }

  /** One job, not queued any more, and one worker on it. */
  function Working(job: Job, claims: seq<string>, cleared: bool, id: string, worker: string, step: WorkerStep): System {
    System(map[id := job], map[id := Log(false, Enqueued, true, false, claims, cleared, false)], [],
           map[worker := step])
  }

  function IngestingState(repo: string, id: string, worker: string): System {
    Working(NewJob(repo).(status := Running, worker := Some(worker)), [worker], true, id, worker, Ingesting(id))
  }

  lemma DequeuedAndLoaded(repo: string, id: string, worker: string, queued: System)
    requires queued.jobs == map[id := NewJob(repo)] && queued.queue == [id] && queued.workers == map[]
    requires queued.logs == map[id := Log(false, Enqueued, true, false, [], false, false)]
    ensures After(After(queued, Work(worker, true)), Work(worker, true)) ==
            Working(NewJob(repo), [], false, id, worker, Claiming(id))
  {
    var loading := Working(NewJob(repo), [], false, id, worker, Loading(id));
    assert After(queued, Work(worker, true)) == loading;
    assert After(loading, Work(worker, true)).workers == map[worker := Claiming(id)];
  }

  lemma ClaimedAndCleared(repo: string, id: string, worker: string)
    ensures var claiming := Working(NewJob(repo), [], false, id, worker, Claiming(id));
            After(After(claiming, Work(worker, true)), Work(worker, true)) == IngestingState(repo, id, worker)
  {
    var running := NewJob(repo).(status := Running, worker := Some(worker));
    var claiming, preparing := Working(NewJob(repo), [], false, id, worker, Claiming(id)),
        Working(running, [worker], false, id, worker, Preparing(id));
    var after := After(claiming, Work(worker, true));
    assert [] + [worker] == [worker];
    assert after.jobs == preparing.jobs && after.workers == preparing.workers && after.logs == preparing.logs;
    var cleared := After(preparing, Work(worker, true));
    assert cleared.workers == map[worker := Ingesting(id)];
    assert cleared.logs == IngestingState(repo, id, worker).logs;
  }

  lemma QueuedState(repo: string, id: string)
    ensures Run(Start, [Create(id, repo, false)] + [Supersede(id, true)] + [Push(id, true)]) ==
            System(map[id := NewJob(repo)], map[id := Log(false, Enqueued, true, false, [], false, false)], [id], map[])
  {
    var create, supersede := [Create(id, repo, false)], [Supersede(id, true)];
    RunExtends(Start, [], create[0]);
    assert [] + create == create;
    RunExtends(Start, create, supersede[0]);
    assert WithoutOlder(map[id := NewJob(repo)], repo, id) == map[id := NewJob(repo)];
    RunExtends(Start, create + supersede, Push(id, true));
  }

  lemma IngestingReached(repo: string, id: string, worker: string)
    ensures Run(Start, IngestingRun(repo, id, worker)) == IngestingState(repo, id, worker)
  {
    var work := Work(worker, true);
    var run := [Create(id, repo, false)] + [Supersede(id, true)] + [Push(id, true)];
    QueuedState(repo, id);
    RunExtends(Start, run, work);
    RunExtends(Start, run + [work], work);
    DequeuedAndLoaded(repo, id, worker, Run(Start, run));
    RunExtends(Start, run + [work] + [work], work);
    RunExtends(Start, run + [work] + [work] + [work], work);
    ClaimedAndCleared(repo, id, worker);
  }

  lemma FinishesAnyway(s: System, id: string, worker: string)
    requires id in s.jobs && StepOf(s, worker) == Ingesting(id)
    ensures var end := Run(s, [Work(worker, true)] + [Work(worker, true)]);
            id in end.jobs && end.jobs[id].status == Done
  {
    var work := Work(worker, true);
    RunExtends(s, [], work);
    assert [] + [work] == [work];
    RunExtends(s, [work], work);
  }

  /** The unguarded final update: a job superseded while it is being ingested is done in the end. */
  lemma SupersededJobBecomesDone(repo: string, a: string, b: string, worker: string)
    requires a != b
    ensures var late := Run(Start, IngestingRun(repo, a, worker) + [Create(b, repo, false)] + [Supersede(b, true)]);
            var end := Run(late, [Work(worker, true)] + [Work(worker, true)]);
            a in late.jobs && late.jobs[a].status == Superseded && a in end.jobs && end.jobs[a].status == Done
  {
    var run := IngestingRun(repo, a, worker);
    IngestingReached(repo, a, worker);
    RunExtends(Start, run, Create(b, repo, false));
    RunExtends(Start, run + [Create(b, repo, false)], Supersede(b, true));
    var late := Run(Start, run + [Create(b, repo, false)] + [Supersede(b, true)]);
    FinishesAnyway(late, a, worker);
  }
}
