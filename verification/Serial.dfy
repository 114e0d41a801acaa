/** The service when requests are served one at a time: each request as one step, and runs of requests. */
module Serial {
  import opened Texts
  import opened Utf8
  import opened Json
  import opened Contracts
  import opened StateMachine
  import opened Jobs
  import opened JobFacts
  import opened JobInvariants
  import opened Datasets
  import opened Sorting
  import opened Tokens
  import opened Protocol
  import opened ProtocolInvariants
  import opened TrainingStores
  import opened Workers

  /** How a service is set up: limits and digests, schema labels, the fixture, and whether objects are stored. */
  datatype Setup = Setup(cfg: Config, forbidden: LabelTest, fixture: Text, autoRun: bool, stored: bool)

  datatype World = World(jobs: Jobs, objects: map<Text, Bytes>, datasets: Registry)

  /** The tarball a worker left for a job, if the artifact root is set and there is one. */
  datatype Tarball = NoRoot | NoTarball | Tarball(content: Bytes)

  /** What a request meets outside the service: the training process, the tarball, the clock. */
  datatype Env = Env(training: Training, tarball: Tarball, now: int)

  datatype Call =
    | CreateJob(payload: seq<Member>, env: Env)
    | RetryJob(id: Text, env: Env)
    | CancelCall(id: Text, now: int)
    | ReadCall(id: Text, now: int, stamp: int)
    | DeleteCall(id: Text, artifactId: Text, now: int)
    | SweepCall(now: int, stamp: int)
    | RegisterCall(id: Text, shape: Shape, now: int)
    | SubmitCall(id: Text, now: int)
    | ApproveCall(id: Text, now: int)
    | RejectCall(id: Text, reason: Reason, now: int)

  /** The world after a request, and the error it answers with if any. */
  datatype Reply = Reply(world: World, error: Option<ErrorCode>)

  // --- Uploads

  /** One artifact uploaded and its key set, unless it has one. */
  function UploadOne(w: World, id: Text, a: Artifact, content: Bytes, now: int): Reply {
    if a.storageKey.Some? then Reply(w, None)
    else
      var key := StorageKey(id, a.id);
      var kept := SetStorageKey(w.jobs, id, a.id, key, now);
      var objects := w.objects[key := content];
      if kept.Ok? then Reply(w.(jobs := kept.value, objects := objects), None)
      else Reply(w.(objects := objects), Some(kept.code))
  }

  /** The artifacts of a list uploaded in order, up to the first error. */
  function UploadEach(w: World, id: Text, artifacts: seq<Artifact>, content: Bytes, now: int): Reply {
    if artifacts == [] then Reply(w, None)
    else
      var before := UploadEach(w, id, artifacts[..|artifacts| - 1], content, now);
      if before.error.Some? then before
      else UploadOne(before.world, id, artifacts[|artifacts| - 1], content, now)
  }

  /** `_upload_artifacts_for_job` */
  function Uploaded(setup: Setup, w: World, id: Text, tarball: Tarball, now: int): Reply {
    if !setup.stored || !Holds(w.jobs, id) then Reply(w, None)
    else
      match tarball
      case NoRoot => Reply(w, Some(InternalError))
      case NoTarball => Reply(w, None)
      case Tarball(content) => UploadEach(w, id, w.jobs[Find(w.jobs, id).value].artifacts, content, now)
  }

  // --- Requests

  /** The status of a job the store holds. */
  function StatusOf(s: Jobs, id: Text): Status
    requires Holds(s, id)
  {
    s[Find(s, id).value].status
  }

  /** The matching worker runs the job, and what a success left is uploaded. */
  function RunNow(setup: Setup, w: World, id: Text, env: Env): Reply {
    var request := RequestOf(w.jobs, id);
    if request.None? then Reply(w, Some(InternalError))
    else
      var training := JobTraining(setup.cfg.sha, setup.fixture, id, request.value, env.training, env.now);
      var done := RunJob(setup.cfg, w.jobs, id, training, env.now);
      var after := w.(jobs := done.jobs);
      if done.error.Some? || !Holds(done.jobs, id) || StatusOf(done.jobs, id) != Succeeded then Reply(after, done.error)
      else Uploaded(setup, after, id, env.tarball, env.now)
  }

  /** `_run_if_configured`, with all permits free: it waits in vain only when there are none. */
  function RunIfConfigured(setup: Setup, w: World, id: Text, env: Env): Reply {
    if !setup.autoRun || !ActiveJob(w.jobs, id) || setup.cfg.maxRunning == 0 then Reply(w, None)
    else RunNow(setup, w, id, env)
  }

  /** A request that has been let in gets its job, and the job is run. */
  function ServeAccepted(setup: Setup, w: World, request: Request, env: Env): Reply
    requires ValidRequest(request)
  {
    var created := Create(setup.cfg, w.jobs, request, env.now);
    if created.Err? then Reply(w, Some(created.code))
    else RunIfConfigured(setup, w.(jobs := created.value), StableJobId(setup.cfg.sha, request), env)
  }

  /** `create_training_job` */
  function ServeCreate(setup: Setup, w: World, payload: seq<Member>, env: Env): Reply {
    var request := FromMapping(payload);
    if request.Err? then Reply(w, Some(request.code))
    else if !IsApproved(w.datasets, request.value.datasetId) then Reply(w, Some(DatasetNotApproved))
    else ServeAccepted(setup, w, request.value, env)
  }

  /** `retry_training_job`; where the id search would not end, the request is never answered. */
  ghost function ServeRetry(setup: Setup, w: World, id: Text, env: Env): Reply {
    if !IsJobId(id) then Reply(w, Some(ValidationError))
    else if RetryRefusal(setup.cfg, w.jobs, id).Some? then Reply(w, Some(RetryRefusal(setup.cfg, w.jobs, id).value))
    else
      var n := RetryAttempt(setup.cfg.sha, w.jobs, id);
      if n.None? then Reply(w, None)
      else
        RunIfConfigured(setup, w.(jobs := Retried(setup.cfg, w.jobs, id, n.value, env.now)),
                        RetryId(setup.cfg.sha, id, n.value), env)
  }

  function WithStore(w: World, r: Result<Jobs>): Reply {
    if r.Ok? then Reply(w.(jobs := r.value), None) else Reply(w, Some(r.code))
  }

  function WithReview(w: World, r: Result<Registry>): Reply {
    if r.Ok? then Reply(w.(datasets := r.value), None) else Reply(w, Some(r.code))
  }

  /** `cancel_training_job` */
  function ServeCancel(setup: Setup, w: World, id: Text, now: int): Reply {
    if !IsJobId(id) then Reply(w, Some(ValidationError)) else WithStore(w, Cancel(setup.cfg, w.jobs, id, now))
  }

  function ServeRead(w: World, id: Text, now: int, stamp: int): Reply {
    var r := EvaluateExpiry(w.jobs, id, now, stamp);
    if r.Err? then Reply(w, Some(r.code))
    else Reply(w.(jobs := r.value, objects := Without(w.objects, ExpiredKey(w.jobs[Find(w.jobs, id).value], now))), None)
  }

  function ServeDelete(w: World, id: Text, artifactId: Text, now: int): Reply {
    var r := DeleteArtifact(w.jobs, id, artifactId, now);
    if r.Err? then Reply(w, Some(r.code))
    else Reply(w.(jobs := r.value.0, objects := Without(w.objects, r.value.1)), None)
  }

  function ServeSweep(w: World, now: int, stamp: int): Reply {
    Reply(w.(jobs := Sweep(w.jobs, now, stamp), objects := Remaining(w.objects, ExpiredKeys(SortById(w.jobs), now))), None)
  }

  /** One request. */
  ghost function Serve(setup: Setup, w: World, call: Call): Reply {
    match call
    case CreateJob(payload, env) => ServeCreate(setup, w, payload, env)
    case RetryJob(id, env) => ServeRetry(setup, w, id, env)
    case CancelCall(id, now) => ServeCancel(setup, w, id, now)
    case ReadCall(id, now, stamp) => ServeRead(w, id, now, stamp)
    case DeleteCall(id, artifactId, now) => ServeDelete(w, id, artifactId, now)
    case SweepCall(now, stamp) => ServeSweep(w, now, stamp)
    case RegisterCall(id, shape, now) => WithReview(w, RegisterShape(w.datasets, id, shape, now))
    case SubmitCall(id, now) => WithReview(w, Submit(setup.forbidden, w.datasets, id, now))
    case ApproveCall(id, now) => WithReview(w, Approve(w.datasets, id, now))
    case RejectCall(id, reason, now) => WithReview(w, Reject(w.datasets, id, reason, now))
  }

  /** The world after a run of requests. */
  ghost function ServeAll(setup: Setup, w: World, calls: seq<Call>): World
    decreases |calls|
  {
    if calls == [] then w
    else Serve(setup, ServeAll(setup, w, calls[..|calls| - 1]), calls[|calls| - 1]).world
  }

  function Fresh(now: int): World {
    World([], map[], InitialRegistry(now))
  }
}
