/** The service and its workers as objects, each method proved against the request as one step. */
module TrainingServices {
  import opened Texts
  import opened Utf8
  import opened Json
  import opened Contracts
  import opened StateMachine
  import opened Jobs
  import opened JobFacts
  import opened Datasets
  import opened DatasetStores
  import opened Sorting
  import opened Persistence
  import opened Tokens
  import opened Protocol
  import opened TrainingStores
  import opened StoreFiles
  import opened Workers
  import Serial
  import opened SerialFacts

  /** A job in the store that has a request, unless it is a tombstone. */
  lemma ActiveWritable(s: Jobs, id: Text)
    requires AllWritable(s) && ActiveJob(s, id)
    ensures RequestOf(s, id).Some?
  {
    assert Writable(s[Find(s, id).value]);
  }

  /** Starting an active job always works. */
  lemma StartWorks(cfg: Config, s: Jobs, id: Text, now: int)
    requires ActiveJob(s, id) && UniqueIds(s)
    ensures var r := UpdateStatus(cfg, s, id, Running, now);
            && r.Ok? && |r.value| == |s| && Find(r.value, id) == Find(s, id)
            && RequestOf(r.value, id) == RequestOf(s, id)
  {
    hide Move;
    var i := Find(s, id).value;
    MovedAt(cfg, s, i, Running, now);
    SameIds(s, UpdateStatus(cfg, s, id, Running, now).value, i, now);
  }

  lemma SameIds(s: Jobs, t: Jobs, i: nat, now: int)
    requires UniqueIds(s) && i < |s| && OthersKept(s, t, i, now) && t[i].id == s[i].id
    ensures UniqueIds(t) && Find(t, s[i].id) == Some(i)
  {
    forall k | 0 <= k < |s|
      ensures t[k].id == s[k].id
    {
      if k != i {
        assert t[k] == s[k] || (s[k].status == Queued && t[k] == Started(s[k], now));
      }
    }
    FindAt(t, i);
  }

  function KeptBy(store: TrainingJobStore): Kept
    reads store`values, store`file, store.values
  {
    Kept(store.Model(), store.file)
  }

  lemma RunSteps(cfg: Config, s: Jobs, id: Text, training: Training, now: int)
    requires ActiveJob(s, id) && UpdateStatus(cfg, s, id, Running, now).Ok?
    requires RequestOf(UpdateStatus(cfg, s, id, Running, now).value, id).Some?
    ensures var t := UpdateStatus(cfg, s, id, Running, now).value;
            Workers.RunJob(cfg, s, id, training, now) ==
            if training.Crashed? then Done(t, Some(InternalError))
            else Conclude(cfg, t, id, RequestOf(t, id).value.retention, training.outcome, now)
  {
    hide Find, UpdateStatus, Conclude;
  }

  lemma RunIdle(cfg: Config, s: Jobs, id: Text, training: Training, now: int)
    requires !ActiveJob(s, id)
    ensures Workers.RunJob(cfg, s, id, training, now) == Done(s, if Holds(s, id) then None else Some(NotFound))
  {
  }

  /** A worker takes up an active job: it is running then, and its request is read. */
  method StartRun(store: TrainingJobStore, id: Text, now: int) returns (request: Request)
    requires store.Valid() && ActiveJob(store.Model(), id)
    modifies store`file, store.values
    ensures store.Valid()
    ensures var started := UpdateStatus(store.config, old(store.Model()), id, Running, now);
            && started.Ok? && store.Model() == started.value
            && RequestOf(store.Model(), id) == Some(request) && RequestOf(old(store.Model()), id) == Some(request)
    ensures SavedIfChanged(store.calendar, store.persistent, old(KeptBy(store)), KeptBy(store))
  {
    hide AllWritable, store.Indexed, UpdateStatus, Snapshots, InSync;
    store.Position(id);
    store.ModelUnique();
    ActiveWritable(store.Model(), id);
    StartWorks(store.config, store.Model(), id, now);
    var started := store.UpdateStatus(id, Running, now);
    store.Position(id);
    request := store.byId[id].request.value;
  }

  /** A worker registers a result and lets the job succeed, or lets it fail. */
  method ConcludeRun(store: TrainingJobStore, id: Text, retention: Retention, outcome: Outcome, now: int)
    returns (r: Result<TrainingJobRecord>)
    requires store.Valid()
    modifies store`file, store.values
    ensures store.Valid()
    ensures var done := Conclude(store.config, old(store.Model()), id, retention, outcome, now);
            && store.Model() == done.jobs
            && (if done.error.Some? then r == Err(done.error.value)
                else r.Ok? && r.value in store.values && r.value.id == id)
    ensures SavedIfChanged(store.calendar, store.persistent, old(KeptBy(store)), KeptBy(store))
  {
    hide AllWritable, store.Indexed, UpdateStatus, Register, Snapshots, InSync;
    if outcome.NoResult? || !ValidProvenance(MadeProvenance(id, outcome)) {
      r := store.UpdateStatus(id, Failed, now);
      return;
    }
    var kept := store.RegisterArtifact(id, MadeArtifact(id, outcome, retention), MadeProvenance(id, outcome), now);
    if kept.Err? {
      return Err(kept.code);
    }
    r := store.UpdateStatus(id, Succeeded, now);
  }

  class FakeTrainingWorker {
    const store: TrainingJobStore
    const fixture: Text

    constructor (store: TrainingJobStore, fixture: Text)
      ensures this.store == store && this.fixture == fixture
    {
      this.store, this.fixture := store, fixture;
    }

    /** How the run of a job ends. */
    function TrainingOf(s: Jobs, id: Text, now: int): Training {
      if RequestOf(s, id).None? then Crashed
      else Ended(FakeOutcome(store.config.sha, fixture, id, RequestOf(s, id).value, now))
    }

    method RunJob(id: Text, now: int) returns (r: Result<TrainingJobRecord>)
      requires store.Valid()
      modifies store`file, store.values
      ensures store.Valid()
      ensures var s := old(store.Model());
              var done := Workers.RunJob(store.config, s, id, TrainingOf(s, id, now), now);
              && store.Model() == done.jobs
              && (if done.error.Some? then r == Err(done.error.value)
                  else r.Ok? && r.value in store.values && r.value.id == id)
      ensures SavedIfChanged(store.calendar, store.persistent, old(KeptBy(store)), KeptBy(store))
    {
      hide AllWritable, store.Indexed, UpdateStatus, Conclude, FakeOutcome, Snapshots, InSync, Workers.RunJob, Find;
      store.Position(id);
      ghost var s := store.Model();
      if id !in store.byId {
        RunIdle(store.config, s, id, TrainingOf(s, id, now), now);
        return Err(NotFound);
      }
      var job := store.byId[id];
      if !Active(job.status) {
        RunIdle(store.config, s, id, TrainingOf(s, id, now), now);
        return Ok(job);
      }
      var request := StartRun(store, id, now);
      var outcome := FakeOutcome(store.config.sha, fixture, id, request, now);
      RunSteps(store.config, s, id, Ended(outcome), now);
      r := ConcludeRun(store, id, request.retention, outcome, now);
    }
  }

  class IsolatedGpuWorker {
    const store: TrainingJobStore

    constructor (store: TrainingJobStore)
      ensures this.store == store
    {
      this.store := store;
    }

    /** How the run of a job ends. */
    function TrainingOf(s: Jobs, id: Text, training: Training): Training {
      if RequestOf(s, id).None? then Crashed else GpuTraining(RequestOf(s, id).value, training)
    }

    /** The training process may end in any way; what it reports is checked before it is kept. */
    method RunJob(id: Text, training: Training, now: int) returns (r: Result<TrainingJobRecord>)
      requires store.Valid()
      modifies store`file, store.values
      ensures store.Valid()
      ensures var s := old(store.Model());
              var done := Workers.RunJob(store.config, s, id, TrainingOf(s, id, training), now);
              && store.Model() == done.jobs
              && (if done.error.Some? then r == Err(done.error.value)
                  else r.Ok? && r.value in store.values && r.value.id == id)
      ensures SavedIfChanged(store.calendar, store.persistent, old(KeptBy(store)), KeptBy(store))
    {
      hide AllWritable, UpdateStatus, Conclude, Snapshots, InSync, Workers.RunJob, Find, store.Indexed, ValidRequest,
        GpuModel;
      store.Position(id);
      ghost var s := store.Model();
      ghost var ended := TrainingOf(s, id, training);
      if id !in store.byId {
        RunIdle(store.config, s, id, ended, now);
        return Err(NotFound);
      }
      var job := store.byId[id];
      if !Active(job.status) {
        RunIdle(store.config, s, id, ended, now);
        return Ok(job);
      }
      var request := StartRun(store, id, now);
      RunSteps(store.config, s, id, ended, now);
      if request.modelId != GpuModel() || request.params.dryRun != Some(false) {
        r := ConcludeRun(store, id, request.retention, NoResult, now);
        return;
      }
      if training.Crashed? {
        return Err(InternalError);
      }
      r := ConcludeRun(store, id, request.retention, training.outcome, now);
    }
  }

  lemma NoUploads(w: Serial.World, id: Text, artifacts: seq<Artifact>, content: Bytes, now: int)
    ensures Serial.UploadEach(w, id, artifacts[..0], content, now) == Serial.Reply(w, None)
    ensures Serial.UploadEach(w, id, artifacts[..|artifacts|], content, now) ==
            Serial.UploadEach(w, id, artifacts, content, now)
  {
    assert artifacts[..|artifacts|] == artifacts;
  }

  lemma OneMoreUpload(w: Serial.World, id: Text, artifacts: seq<Artifact>, j: nat, content: Bytes, now: int)
    requires j < |artifacts|
    ensures var before := Serial.UploadEach(w, id, artifacts[..j], content, now);
            Serial.UploadEach(w, id, artifacts[..j + 1], content, now) ==
            if before.error.Some? then before else Serial.UploadOne(before.world, id, artifacts[j], content, now)
  {
    hide Serial.UploadOne;
    assert artifacts[..j + 1][..j] == artifacts[..j];
  }

  /** An error in the uploads ends them. */
  lemma {:induction false} UploadsEnd(w: Serial.World, id: Text, artifacts: seq<Artifact>, j: nat, content: Bytes,
      now: int)
    requires j <= |artifacts| && Serial.UploadEach(w, id, artifacts[..j], content, now).error.Some?
    ensures Serial.UploadEach(w, id, artifacts, content, now) == Serial.UploadEach(w, id, artifacts[..j], content, now)
    decreases |artifacts|
  {
    hide Serial.UploadOne;
    if j == |artifacts| {
      assert artifacts[..j] == artifacts;
    } else {
      assert artifacts[..|artifacts| - 1][..j] == artifacts[..j];
      UploadsEnd(w, id, artifacts[..|artifacts| - 1], j, content, now);
    }
  }

  lemma Turns(setup: Serial.Setup, w: Serial.World, id: Text, env: Serial.Env)
    ensures var runs := setup.autoRun && ActiveJob(w.jobs, id) && setup.cfg.maxRunning > 0;
            Serial.RunIfConfigured(setup, w, id, env) == if runs then Serial.RunNow(setup, w, id, env) else Serial.Reply(w, None)
  {
    hide Serial.RunNow, ActiveJob;
  }

  lemma Accepted(setup: Serial.Setup, w: Serial.World, q: Request, env: Serial.Env)
    requires ValidRequest(q)
    ensures var created := Create(setup.cfg, w.jobs, q, env.now);
            Serial.ServeAccepted(setup, w, q, env) ==
            if created.Err? then Serial.Reply(w, Some(created.code))
            else Serial.RunIfConfigured(setup, w.(jobs := created.value), StableJobId(setup.cfg.sha, q), env)
  {
    hide Serial.RunIfConfigured, Create, StableJobId, ValidRequest;
  }

  /** The job of the id, or the error. */
  predicate Answers(r: Result<TrainingJobRecord>, error: Option<ErrorCode>, id: Text, values: seq<TrainingJobRecord>) {
    if error.Some? then r == Err(error.value) else r.Ok? && r.value in values && r.value.id == id
  }

  class TrainingApiService {
    const store: TrainingJobStore
    const datasets: DatasetStore
    const fakeWorker: FakeTrainingWorker
    const gpuWorker: IsolatedGpuWorker
    const autoRun: bool
    /** The free permits of the semaphore. */
    var permits: int

    constructor (store: TrainingJobStore, datasets: DatasetStore, fixture: Text, autoRun: bool)
      requires store.Valid()
      ensures Valid() && this.store == store && this.datasets == datasets && this.autoRun == autoRun
      ensures Setup() == Serial.Setup(store.config, datasets.forbidden, fixture, autoRun, store.storage != null)
    {
      this.store, this.datasets, this.autoRun := store, datasets, autoRun;
      fakeWorker := new FakeTrainingWorker(store, fixture);
      gpuWorker := new IsolatedGpuWorker(store);
      permits := store.config.maxRunning;
    }

    ghost predicate Ready()
      reads store`byId, store`values, store.values
    {
      store.Valid() && fakeWorker.store == store && gpuWorker.store == store
    }

    /** Between requests all permits are free. */
    ghost predicate Valid()
      reads `permits, store`byId, store`values, store.values
    {
      Ready() && permits == store.config.maxRunning
    }

    /** The file is the print of the jobs, or was not needed yet. */
    ghost predicate Current()
      reads store`values, store`file, store.values
    {
      FileCurrent(store.calendar, store.persistent, KeptBy(store))
    }

    ghost function Setup(): Serial.Setup {
      Serial.Setup(store.config, datasets.forbidden, fakeWorker.fixture, autoRun, store.storage != null)
    }

    /** The jobs, objects and datasets as values. */
    ghost function World(): Serial.World
      reads store`values, store.values, datasets, store.Backend()
    {
      Serial.World(store.Model(), if store.storage == null then map[] else store.storage.objects, datasets.datasets)
    }

    /** One artifact uploaded, unless it has its key already. */
    method UploadArtifact(id: Text, artifact: Artifact, content: Bytes, now: int) returns (error: Option<ErrorCode>)
      requires store.Valid() && store.storage != null
      modifies store`file, store.values, store.Backend()
      ensures store.Valid()
      ensures Serial.Reply(World(), error) == Serial.UploadOne(old(World()), id, artifact, content, now)
      ensures SavedIfChanged(store.calendar, store.persistent, old(KeptBy(store)), KeptBy(store))
    {
      hide AllWritable, store.Indexed, SetStorageKey, Snapshots, InSync, StorageKey;
      if artifact.storageKey.Some? {
        return None;
      }
      var key := store.storage.Upload(id, artifact.id, content);
      var kept := store.SetArtifactStorageKey(id, artifact.id, key, now);
      error := if kept.Err? then Some(kept.code) else None;
    }

    /** `_upload_artifacts_for_job`: the error it raises, if any. */
    method UploadArtifacts(id: Text, tarball: Serial.Tarball, now: int) returns (error: Option<ErrorCode>)
      requires store.Valid() && Holds(store.Model(), id)
      modifies store`file, store.values, store.Backend()
      ensures store.Valid()
      ensures Serial.Reply(World(), error) == Serial.Uploaded(Setup(), old(World()), id, tarball, now)
      ensures SavedIfChanged(store.calendar, store.persistent, old(KeptBy(store)), KeptBy(store))
    {
      hide Serial.UploadEach, AllWritable, Snapshots, InSync, SavedIfChanged, Serial.UploadOne, store.Indexed;
      ghost var w, start := World(), KeptBy(store);
      NothingToSave(store.calendar, store.persistent, start);
      store.Position(id);
      if store.storage == null || tarball.NoTarball? {
        return None;
      }
      if tarball.NoRoot? {
        return Some(InternalError);
      }
      var artifacts := store.byId[id].artifacts;
      NoUploads(w, id, artifacts, tarball.content, now);
      for j := 0 to |artifacts|
        invariant store.Valid()
        invariant SavedIfChanged(store.calendar, store.persistent, start, KeptBy(store))
        invariant Serial.Reply(World(), None) == Serial.UploadEach(w, id, artifacts[..j], tarball.content, now)
      {
        ghost var before := KeptBy(store);
        OneMoreUpload(w, id, artifacts, j, tarball.content, now);
        error := UploadArtifact(id, artifacts[j], tarball.content, now);
        SavedIfChangedTransitive(store.calendar, store.persistent, start, before, KeptBy(store));
        if error.Some? {
          UploadsEnd(w, id, artifacts, j + 1, tarball.content, now);
          return;
        }
      }
      return None;
    }

    /** `_dispatch_worker` */
    method DispatchWorker(id: Text, env: Serial.Env) returns (r: Result<TrainingJobRecord>)
      requires Ready() && RequestOf(store.Model(), id).Some?
      modifies store`file, store.values
      ensures Ready()
      ensures var training := TrainingFor(old(store.Model()), id, env);
              var done := RunJob(store.config, old(store.Model()), id, training, env.now);
              && store.Model() == done.jobs
              && (if done.error.Some? then r == Err(done.error.value)
                  else r.Ok? && r.value in store.values && r.value.id == id)
      ensures SavedIfChanged(store.calendar, store.persistent, old(KeptBy(store)), KeptBy(store))
    {
      hide AllWritable, store.Indexed, Snapshots, InSync, RunJob, FakeOutcome;
      store.Position(id);
      var request := store.byId[id].request.value;
      if request.modelId == GpuModel() {
        r := gpuWorker.RunJob(id, env.training, env.now);
      } else {
        r := fakeWorker.RunJob(id, env.now);
      }
    }

    /** How the run of a job ends. */
    ghost function TrainingFor(s: Jobs, id: Text, env: Serial.Env): Training
      requires RequestOf(s, id).Some?
    {
      JobTraining(store.config.sha, fakeWorker.fixture, id, RequestOf(s, id).value, env.training, env.now)
    }

    /** What happens while a permit is held. */
    method TakeTurn(id: Text, env: Serial.Env) returns (r: Result<TrainingJobRecord>)
      requires Ready() && Holds(store.Model(), id)
      modifies store`file, store.values, store.Backend()
      ensures Ready()
      ensures var reply := Serial.RunNow(Setup(), old(World()), id, env);
              World() == reply.world && Answers(r, reply.error, id, store.values)
      ensures SavedIfChanged(store.calendar, store.persistent, old(KeptBy(store)), KeptBy(store))
    {
      hide AllWritable, Snapshots, InSync, RunJob, JobTraining, Serial.Uploaded, Find;
      store.Position(id);
      if store.byId[id].request.None? {
        return Err(InternalError);
      }
      r := DispatchWorker(id, env);
      store.Position(id);
      if r.Ok? && r.value.status == Succeeded {
        var error := UploadArtifacts(id, env.tarball, env.now);
        store.Position(id);
        if error.Some? {
          return Err(error.value);
        }
      }
    }

    /** The permit taken is given back, however the worker ends. */
    method WithPermit(id: Text, env: Serial.Env) returns (r: Result<TrainingJobRecord>)
      requires Valid() && permits > 0 && Holds(store.Model(), id)
      modifies `permits, store`file, store.values, store.Backend()
      ensures Valid()
      ensures var reply := Serial.RunNow(Setup(), old(World()), id, env);
              World() == reply.world && Answers(r, reply.error, id, store.values)
      ensures SavedIfChanged(store.calendar, store.persistent, old(KeptBy(store)), KeptBy(store))
    {
      hide AllWritable, Snapshots, InSync, Serial.RunNow, Find, store.Indexed, Answers;
      permits := permits - 1;
      r := TakeTurn(id, env);
      permits := permits + 1;
    }

    /** `_run_if_configured` */
    method RunIfConfigured(id: Text, env: Serial.Env) returns (r: Result<TrainingJobRecord>)
      requires Valid() && Holds(store.Model(), id)
      modifies `permits, store`file, store.values, store.Backend()
      ensures Valid()
      ensures var reply := Serial.RunIfConfigured(Setup(), old(World()), id, env);
              World() == reply.world && Answers(r, reply.error, id, store.values)
      ensures SavedIfChanged(store.calendar, store.persistent, old(KeptBy(store)), KeptBy(store))
      ensures old(Current()) ==> Current()
    {
      hide AllWritable, Snapshots, InSync, Serial.RunNow, Serial.RunIfConfigured, Find, store.Indexed;
      store.Position(id);
      Turns(Setup(), World(), id, env);
      if !autoRun {
        return Ok(store.byId[id]);
      }
      var job := store.byId[id];
      if !Active(job.status) {
        return Ok(job);
      }
      if permits == 0 {
        return Ok(job);
      }
      r := WithPermit(id, env);
    }

    /** The store has a job for the request, and the job is run. */
    method CreateAndRun(request: Request, env: Serial.Env) returns (r: Result<TrainingJobRecord>)
      requires Valid() && ValidRequest(request)
      modifies `permits, store, store.values, store.Backend()
      ensures Valid()
      ensures var reply := Serial.ServeAccepted(Setup(), old(World()), request, env);
              World() == reply.world && Answers(r, reply.error, StableJobId(store.config.sha, request), store.values)
      ensures SavedIfChanged(store.calendar, store.persistent, old(KeptBy(store)), KeptBy(store))
      ensures forall v :: v in store.values ==> v in old(store.values) || fresh(v)
    {
      hide AllWritable, Snapshots, InSync, Serial.RunIfConfigured, Serial.ServeAccepted, ValidRequest, StableJobId,
        Create;
      Accepted(Setup(), World(), request, env);
      var job := store.Create(request, env.now);
      if job.Err? {
        return Err(job.code);
      }
      store.Position(job.value.id);
      r := RunIfConfigured(job.value.id, env);
    }

    /** The job answered with is that of the accepted request. */
    method CreateTrainingJob(payload: seq<Member>, env: Serial.Env) returns (r: Result<TrainingJobRecord>)
      requires Valid()
      modifies `permits, store, store.values, store.Backend()
      ensures Valid()
      ensures var reply := Serial.ServeCreate(Setup(), old(World()), payload, env);
              && World() == reply.world
              && (if reply.error.Some? then r == Err(reply.error.value)
                  else
                    && FromMapping(payload).Ok?
                    && Answers(r, None, StableJobId(store.config.sha, FromMapping(payload).value), store.values))
      ensures SavedIfChanged(store.calendar, store.persistent, old(KeptBy(store)), KeptBy(store))
      ensures old(Current()) ==> Current()
      ensures forall v :: v in store.values ==> v in old(store.values) || fresh(v)
    {
      hide AllWritable, store.Indexed, Snapshots, InSync, Serial.ServeAccepted, FromMapping, ValidRequest,
        StableJobId, IsApproved;
      var request := FromMapping(payload);
      if request.Err? {
        return Err(request.code);
      }
      if !IsApproved(datasets.datasets, request.value.datasetId) {
        return Err(DatasetNotApproved);
      }
      r := CreateAndRun(request.value, env);
    }

    /** The job answered with is the one of the least free attempt. */
    method RetryTrainingJob(id: Text, env: Serial.Env) returns (r: Result<TrainingJobRecord>)
      requires Valid()
      requires RetryRefusal(store.config, store.Model(), id).None? ==> RetryAttempt(store.config.sha, store.Model(), id).Some?
      modifies `permits, store, store.values, store.Backend()
      ensures Valid()
      ensures var reply := Serial.ServeRetry(Setup(), old(World()), id, env);
              && World() == reply.world
              && (if reply.error.Some? then r == Err(reply.error.value)
                  else
                    var n := old(RetryAttempt(store.config.sha, store.Model(), id));
                    n.Some? && Answers(r, None, RetryId(store.config.sha, id, n.value), store.values))
      ensures SavedIfChanged(store.calendar, store.persistent, old(KeptBy(store)), KeptBy(store))
      ensures old(Current()) ==> Current()
      ensures forall v :: v in store.values ==> v in old(store.values) || fresh(v)
    {
      hide AllWritable, Snapshots, InSync, Serial.RunIfConfigured, RetryRefusal, Retried, RetryId, IsJobId,
        RetryAttempt;
      if !IsJobId(id) {
        return Err(ValidationError);
      }
      var retry := store.Retry(id, env.now);
      if retry.Err? {
        return Err(retry.code);
      }
      store.Position(retry.value.id);
      r := RunIfConfigured(retry.value.id, env);
    }

    method CancelTrainingJob(id: Text, now: int) returns (r: Result<TrainingJobRecord>)
      requires Valid()
      modifies store`file, store.values
      ensures Valid()
      ensures var reply := Serial.ServeCancel(Setup(), old(World()), id, now);
              World() == reply.world && Answers(r, reply.error, id, store.values)
      ensures SavedIfChanged(store.calendar, store.persistent, old(KeptBy(store)), KeptBy(store))
      ensures old(Current()) ==> Current()
    {
      hide AllWritable, store.Indexed, Snapshots, InSync, IsJobId, Cancel;
      if !IsJobId(id) {
        return Err(ValidationError);
      }
      r := store.Cancel(id, now);
    }

    /** What every read of a job begins with. */
    method GetTrainingJob(id: Text, now: int, stamp: int) returns (r: Result<TrainingJobRecord>)
      requires Valid()
      modifies store`file, store.values, store.Backend()
      ensures Valid()
      ensures var reply := Serial.ServeRead(old(World()), id, now, stamp);
              World() == reply.world && Answers(r, reply.error, id, store.values)
      ensures SavedIfChanged(store.calendar, store.persistent, old(KeptBy(store)), KeptBy(store))
      ensures old(Current()) ==> Current()
    {
      hide AllWritable, store.Indexed, Snapshots, InSync, IsJobId, Expire, ExpiredKey, Find;
      if !IsJobId(id) {
        return Err(ValidationError);
      }
      r := store.EvaluateExpiry(id, now, stamp);
    }

    /** A receipt that is verified says that no record holds a digest of the deleted artifact any more. */
    method DeleteArtifact(id: Text, artifactId: Text, now: int) returns (r: Result<Receipt>)
      requires Valid()
      modifies store`file, store.values, store.Backend()
      ensures Valid()
      ensures var reply := Serial.ServeDelete(old(World()), id, artifactId, now);
              && World() == reply.world
              && (if reply.error.Some? then r == Err(reply.error.value)
                  else
                    && r.Ok? && r.value.deleted && r.value.jobId == id && r.value.artifactId == artifactId
                    && Holds(old(World()).jobs, id)
                    && (r.value.alreadyDeleted <==> Serial.StatusOf(old(World()).jobs, id) == Deleted))
      ensures r.Ok? ==>
                (r.value.verified <==>
                 r.value.alreadyDeleted || FoundGone(store.calendar, old(store.Model()), id, artifactId, store.Model()))
      ensures r.Ok? && r.value.verified && !r.value.alreadyDeleted ==> Purged(old(store.Model()), id, artifactId, store.Model())
      ensures SavedIfChanged(store.calendar, store.persistent, old(KeptBy(store)), KeptBy(store))
      ensures old(Current()) ==> Current()
    {
      hide AllWritable, Snapshots, InSync, Find, Purged, FoundGone, Tombstone, FindArtifact, IsJobId, IsArtifactId,
        store.Indexed;
      var deletion := store.DeleteArtifact(id, artifactId, now);
      if deletion.Err? {
        return Err(deletion.code);
      }
      return Ok(deletion.value.0);
    }

    method SweepExpiredArtifacts(now: int, stamp: int) returns (ids: seq<Text>, count: nat)
      requires Valid()
      modifies store`file, store.values, store.Backend()
      ensures Valid()
      ensures World() == Serial.ServeSweep(old(World()), now, stamp).world
      ensures ids == ExpiredIds(SortById(old(World()).jobs), now) && count == |ids|
      ensures SavedIfChanged(store.calendar, store.persistent, old(KeptBy(store)), KeptBy(store))
      ensures old(Current()) ==> Current()
    {
      hide AllWritable, store.Indexed, Snapshots, InSync, Sweep, Remaining, SortById, ExpiredKeys, ExpiredIds;
      var keys;
      ids, count, keys := store.SweepExpired(now, stamp);
      NoObjects(keys);
    }

    lemma NoObjects(keys: seq<Text>)
      ensures Remaining(map[], keys) == map[]
    {
    }
  }
}
