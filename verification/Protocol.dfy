/**
 The service as a transition system. Every store call is atomic under the store's lock, but a create or
 retry request is a sequence of them, and any number of requests run at once. An event is one atomic step
 of one request, or a whole request that needs a single store call; a list of events is one interleaving.
 */
module Protocol {
  import opened Texts
  import opened Contracts
  import opened StateMachine
  import opened Jobs
  import opened Datasets
  import opened Tokens

  /** Where a create or retry request stands; from `Admitted` on it holds a permit of the semaphore. */
  datatype Phase =
    | Requested(request: Request)    // before the approval check
    | Gated(request: Request)        // the dataset was approved; before store.create
    | Retrying(original: Text)       // before store.retry
    | Entered(job: Text)             // the job exists; before its status is read
    | Waiting(job: Text)             // the job was active; before the semaphore
    | Admitted(job: Text)            // before the worker is chosen
    | Dispatched(job: Text)          // before the worker looks for a terminal status
    | Starting(job: Text)            // before update_status(RUNNING)
    | Training(job: Text)            // before the request is read and the training run
    | Trained(job: Text, artifact: Artifact, provenance: Provenance)  // before register_artifact
    | Failing(job: Text)             // before update_status(FAILED)
    | ArtifactKept(job: Text)        // before update_status(SUCCEEDED)
    | Completed(job: Text)           // the worker has returned; uploads may follow

  /** What a training run reports; either worker may report anything. */
  datatype Outcome =
    | NoResult
    | Produced(datasetHash: Text, artifactHash: Text, baseModelId: Text, trainingConfigHash: Text, createdAt: int)

  /** Jobs, datasets, free permits, the requests in flight and those of them that hold a permit. */
  datatype System = System(
    jobs: Jobs,
    datasets: Registry,
    permits: int,
    calls: map<nat, Phase>,
    holders: set<nat>)

  datatype Event =
    | BeginCreate(c: nat, request: Request)
    | BeginRetry(c: nat, original: Text)
    | CheckGate(c: nat)
    | StoreCreate(c: nat, now: int)
    | StoreRetry(c: nat, now: int)
    | ReadStatus(c: nat)
    | Acquire(c: nat)
    | Dispatch(c: nat)
    | ReadTerminal(c: nat)
    | MarkRunning(c: nat, now: int)
    | Train(c: nat, outcome: Outcome)
    | KeepArtifact(c: nat, now: int)
    | MarkFailed(c: nat, now: int)
    | MarkSucceeded(c: nat, now: int)
    | Upload(c: nat, artifactId: Text, now: int)
    | Leave(c: nat)                  // returns, times out waiting, or raises
    | CancelJob(id: Text, now: int)
    | DeleteJobArtifact(id: Text, artifactId: Text, now: int)
    | SweepJobs(now: int, stamp: int)
    | ReadJob(id: Text, now: int, stamp: int)
    | RegisterDataset(id: Text, shape: Shape, now: int)
    | SubmitDataset(id: Text, now: int)
    | ApproveDataset(id: Text, now: int)
    | RejectDataset(id: Text, reason: Reason, now: int)

  function Initial(cfg: Config, now: int): System {
    System([], InitialRegistry(now), cfg.maxRunning, map[], {})
  }

  predicate HoldsPermit(p: Phase) {
    !(p.Requested? || p.Gated? || p.Retrying? || p.Entered? || p.Waiting?)
  }

  predicate HasJob(p: Phase) {
    !(p.Requested? || p.Gated? || p.Retrying?)
  }

  function Put(s: System, c: nat, p: Phase): System {
    s.(calls := s.calls[c := p])
  }

  /** The request is over; the `finally` block gives its permit back. */
  function End(s: System, c: nat): System {
    s.(calls := s.calls - {c},
       holders := s.holders - {c},
       permits := if c in s.holders then s.permits + 1 else s.permits)
  }

  /** A store call of a request: on success the request goes on, otherwise it raises. */
  function After(s: System, c: nat, r: Result<Jobs>, p: Phase): System {
    if r.Ok? then Put(s.(jobs := r.value), c, p) else End(s, c)
  }

  function WithJobs(s: System, r: Result<Jobs>): System {
    if r.Ok? then s.(jobs := r.value) else s
  }

  function WithDatasets(s: System, r: Result<Registry>): System {
    if r.Ok? then s.(datasets := r.value) else s
  }

  function ActiveJob(s: Jobs, id: Text): bool {
    Holds(s, id) && Active(s[Find(s, id).value].status)
  }

  function RequestOf(s: Jobs, id: Text): Option<Request> {
    if Holds(s, id) then s[Find(s, id).value].request else None
  }

  /** The artifact and provenance a worker makes of a result. */
  function MadeProvenance(job: Text, o: Outcome): Provenance
    requires o.Produced?
  {
    Provenance(job, o.datasetHash, o.artifactHash, o.baseModelId, o.trainingConfigHash, o.createdAt, SchemaVersion())
  }

  function MadeArtifact(job: Text, o: Outcome, retention: Retention): Artifact
    requires o.Produced? && IsHash(o.artifactHash)
  {
    Artifact(ArtifactId(o.artifactHash), job, o.datasetHash, o.artifactHash, o.createdAt,
             Lit("provenance_") + job, retention, None)
  }

  /** The end of training: a result with valid provenance is kept, anything else fails the job. */
  function Finished(job: Text, retention: Retention, o: Outcome): Phase {
    if o.NoResult? || !ValidProvenance(MadeProvenance(job, o)) then Failing(job)
    else Trained(job, MadeArtifact(job, o, retention), MadeProvenance(job, o))
  }

  /** One step of the request `c`, if it stands where the event applies. */
  ghost function CallStep(cfg: Config, s: System, c: nat, e: Event): System
    requires c in s.calls
  {
    match (e, s.calls[c])
    case (CheckGate(_), Requested(request)) =>
      if IsApproved(s.datasets, request.datasetId) then Put(s, c, Gated(request)) else End(s, c)
    case (StoreCreate(_, now), Gated(request)) =>
      if ValidRequest(request)
      then After(s, c, Create(cfg, s.jobs, request, now), Entered(StableJobId(cfg.sha, request))) else s
    case (StoreRetry(_, now), Retrying(original)) =>
      if RetryRefusal(cfg, s.jobs, original).Some? then End(s, c)
      else
        var n := RetryAttempt(cfg.sha, s.jobs, original);
        if n.None? then s
        else After(s, c, Ok(Retried(cfg, s.jobs, original, n.value, now)), Entered(RetryId(cfg.sha, original, n.value)))
    case (ReadStatus(_), Entered(job)) =>
      if ActiveJob(s.jobs, job) then Put(s, c, Waiting(job)) else End(s, c)
    case (Acquire(_), Waiting(job)) =>
      if s.permits > 0 then Put(s.(permits := s.permits - 1, holders := s.holders + {c}), c, Admitted(job)) else s
    case (Dispatch(_), Admitted(job)) =>
      if RequestOf(s.jobs, job).None? then End(s, c) else Put(s, c, Dispatched(job))
    case (ReadTerminal(_), Dispatched(job)) =>
      if ActiveJob(s.jobs, job) then Put(s, c, Starting(job)) else Put(s, c, Completed(job))
    case (MarkRunning(_, now), Starting(job)) =>
      After(s, c, UpdateStatus(cfg, s.jobs, job, Running, now), Training(job))
    case (Train(_, outcome), Training(job)) =>
      var request := RequestOf(s.jobs, job);
      if request.None? then End(s, c) else Put(s, c, Finished(job, request.value.retention, outcome))
    case (KeepArtifact(_, now), Trained(job, artifact, provenance)) =>
      After(s, c, Register(s.jobs, job, artifact, provenance, now), ArtifactKept(job))
    case (MarkFailed(_, now), Failing(job)) =>
      After(s, c, UpdateStatus(cfg, s.jobs, job, Failed, now), Completed(job))
    case (MarkSucceeded(_, now), ArtifactKept(job)) =>
      After(s, c, UpdateStatus(cfg, s.jobs, job, Succeeded, now), Completed(job))
    case (Upload(_, artifactId, now), Completed(job)) =>
      After(s, c, SetStorageKey(s.jobs, job, artifactId, StorageKey(job, artifactId), now), Completed(job))
    case (Leave(_), _) => End(s, c)
    case _ => s
  }

  /** One event; where it does not apply nothing happens. */
  ghost function Next(cfg: Config, forbidden: LabelTest, s: System, e: Event): System {
    match e
    case BeginCreate(c, request) => if c in s.calls || !ValidRequest(request) then s else Put(s, c, Requested(request))
    case BeginRetry(c, original) => if c in s.calls then s else Put(s, c, Retrying(original))
    case CancelJob(id, now) => WithJobs(s, Cancel(cfg, s.jobs, id, now))
    case DeleteJobArtifact(id, artifactId, now) =>
      var r := DeleteArtifact(s.jobs, id, artifactId, now);
      if r.Ok? then s.(jobs := r.value.0) else s
    case SweepJobs(now, stamp) => s.(jobs := Sweep(s.jobs, now, stamp))
    case ReadJob(id, now, stamp) => WithJobs(s, EvaluateExpiry(s.jobs, id, now, stamp))
    case RegisterDataset(id, shape, now) => WithDatasets(s, RegisterShape(s.datasets, id, shape, now))
    case SubmitDataset(id, now) => WithDatasets(s, Submit(forbidden, s.datasets, id, now))
    case ApproveDataset(id, now) => WithDatasets(s, Approve(s.datasets, id, now))
    case RejectDataset(id, reason, now) => WithDatasets(s, Reject(s.datasets, id, reason, now))
    case _ => if e.c in s.calls then CallStep(cfg, s, e.c, e) else s
  }

  /** The system after an interleaving. */
  ghost function Run(cfg: Config, forbidden: LabelTest, s: System, events: seq<Event>): System
    decreases |events|
  {
    if events == [] then s
    else Next(cfg, forbidden, Run(cfg, forbidden, s, events[..|events| - 1]), events[|events| - 1])
  }
}
