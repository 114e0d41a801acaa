/**
 What a worker run and its uploads make of a job, told by the records and the environment alone: which jobs
 succeed and with what, what is stored for them, and which queued jobs get the freed slot.
 */
module Outcomes {
  import opened Texts
  import opened Utf8
  import opened Json
  import opened Contracts
  import opened StateMachine
  import opened Jobs
  import opened JobFacts
  import opened JobInvariants
  import opened Datasets
  import opened Tokens
  import opened Protocol
  import opened ProtocolInvariants
  import opened TrainingStores
  import opened Workers
  import opened Serial
  import opened SerialFacts
  import opened SerialTheorems

  // --- Counting by sets

  function WithStatus(s: Jobs, status: Status): (js: set<nat>) {
    set j: nat | j < |s| && s[j].status == status
  }

  lemma {:induction false} CountIsSize(s: Jobs, status: Status)
    ensures Count(s, status) == |WithStatus(s, status)|
  {
    if s != [] {
      var n := |s| - 1;
      CountIsSize(s[..n], status);
      var before := WithStatus(s[..n], status);
      assert WithStatus(s, status) == if s[n].status == status then before + {n} else before;
    }
  }

  /** The jobs that count against the queue limit. */
  function Occupying(s: Jobs): (js: set<nat>) {
    set j: nat | j < |s| && (s[j].status == Queued || s[j].status == Running)
  }

  lemma ActiveIsSize(s: Jobs)
    ensures ActiveCount(s) == |Occupying(s)|
  {
    CountIsSize(s, Queued);
    CountIsSize(s, Running);
    var a, b := WithStatus(s, Queued), WithStatus(s, Running);
    assert Occupying(s) == a + b && a !! b;
  }

  // --- What a run produces

  /** The hashes, the base model and the instant of a result. */
  datatype Report = Report(datasetHash: Text, artifactHash: Text, model: Text, configHash: Text, at: int)

  /** What the isolated process reported, if it ended with a result of the right shape. */
  function GpuReport(training: Training): Option<Report> {
    if training.Ended? && training.outcome.Produced?
       && IsHash(training.outcome.datasetHash) && IsHash(training.outcome.artifactHash)
       && IsHash(training.outcome.trainingConfigHash) && SafeIdentifier(training.outcome.baseModelId)
    then
      Some(Report(training.outcome.datasetHash, training.outcome.artifactHash, training.outcome.baseModelId,
                  training.outcome.trainingConfigHash, training.outcome.createdAt))
    else None
  }

  /** What the fake worker reports of any request. */
  function FixtureReport(setup: Setup, id: Text, q: Request, now: int): Report {
    var fixture := HexDigest(setup.cfg.sha, setup.fixture);
    Report(fixture, PlaceholderHash(setup.cfg.sha, id, q, fixture), q.modelId, ConfigHash(setup.cfg.sha, q), now)
  }

  function ReportOf(setup: Setup, id: Text, q: Request, env: Env): (report: Option<Report>) {
    if q.modelId == Lit("scooling-lab-gpu-personal-v1") then GpuReport(env.training)
    else Some(FixtureReport(setup, id, q, env.now))
  }

  function ReportedId(report: Report): Text {
    Lit("artifact_") + if |report.artifactHash| >= 24 then report.artifactHash[..24] else []
  }

  /** The job with the one artifact and the provenance of the report, the artifact stored under the key if there is one. */
  function SucceededWith(r: Record, q: Request, report: Report, key: Option<Text>, now: int): Record {
    r.(status := Succeeded,
       artifacts := [Artifact(ReportedId(report), r.id, report.datasetHash, report.artifactHash, report.at,
                              Lit("provenance_") + r.id, q.retention, key)],
       provenance := Some(Provenance(r.id, report.datasetHash, report.artifactHash, report.model, report.configHash,
                                     report.at, Lit("scooling-lab.provenance.v1"))),
       updatedAt := now)
  }

  function ObjectKey(id: Text, report: Report): Text {
    id + [47] + ReportedId(report) + [47] + Lit("artifact.tar.gz")
  }

  /**
   How a run of the job ends. A crash leaves it running and raises. Without a usable report it fails. With one it
   has succeeded, and the tarball, if there is one and storage is on, is the content of the new object under the
   artifact's key; no other object is touched.
   */
  predicate Ends(setup: Setup, r: Record, q: Request, env: Env, t: Record, before: map<Text, Bytes>,
      after: map<Text, Bytes>, error: Option<ErrorCode>) {
    var report := ReportOf(setup, r.id, q, env);
    if q.modelId == Lit("scooling-lab-gpu-personal-v1") && env.training.Crashed? then
      && t == (if r.status == Running then r else r.(status := Running, updatedAt := env.now))
      && after == before && error == Some(InternalError)
    else if report.None? then
      t == r.(status := Failed, updatedAt := env.now) && after == before && error == None
    else if setup.stored && env.tarball.Tarball? then
      && t == SucceededWith(r, q, report.value, Some(ObjectKey(r.id, report.value)), env.now)
      && after == before[ObjectKey(r.id, report.value) := env.tarball.content] && error == None
    else
      && t == SucceededWith(r, q, report.value, None, env.now) && after == before
      && error == if setup.stored && env.tarball.NoRoot? then Some(InternalError) else None
  }

  /** The others while job `i` goes on running: as they were. */
  predicate OthersStay(s: Jobs, t: Jobs, i: nat) {
    |t| == |s| && forall j :: 0 <= j < |s| && j != i ==> t[j] == s[j]
  }

  /** The free slots once job `i` no longer runs. */
  function SlotsBut(cfg: Config, s: Jobs, i: nat): nat {
    var busy := |set j: nat | j < |s| && j != i && s[j].status == Running|;
    if busy < cfg.maxRunning then cfg.maxRunning - busy else 0
  }

  /** The place of a job in the queue without job `i`. */
  function Ahead(s: Jobs, i: nat, j: nat): nat {
    |set k: nat | k < j && k < |s| && k != i && s[k].status == Queued|
  }

  /** The others once job `i` has come to an end: as many as slots are free, first come first served, are started. */
  predicate OthersMoveUp(cfg: Config, s: Jobs, t: Jobs, i: nat, now: int) {
    && |t| == |s|
    && forall j :: 0 <= j < |s| && j != i ==>
         t[j] == if s[j].status == Queued && Ahead(s, i, j) < SlotsBut(cfg, s, i)
                 then s[j].(status := Running, updatedAt := now) else s[j]
  }

  // --- The steps of a run

  lemma BusyBut(s: Jobs, i: nat)
    requires i < |s| && s[i].status == Running
    ensures Count(s, Running) - 1 == |set j: nat | j < |s| && j != i && s[j].status == Running|
  {
    CountIsSize(s, Running);
    var others := set j: nat | j < |s| && j != i && s[j].status == Running;
    assert WithStatus(s, Running) == others + {i};
  }

  lemma AheadIsCount(s: Jobs, i: nat, j: nat)
    requires i < |s| && j < |s| && s[i].status == Running
    ensures Ahead(s, i, j) == Count(s[..j], Queued)
  {
    CountIsSize(s[..j], Queued);
    assert WithStatus(s[..j], Queued) == set k: nat | k < j && k < |s| && k != i && s[k].status == Queued;
  }

  lemma MovesUp(cfg: Config, s: Jobs, i: nat, status: Status, now: int)
    requires i < |s| && s[i].status == Running && !Active(status)
    ensures var t := Move(cfg, s, i, status, now);
            t[i] == s[i].(status := status, updatedAt := now) && OthersMoveUp(cfg, s, t, i, now)
  {
    hide Count, Move, Ahead;
    FreedSlotIsReused(cfg, s, i, status, now);
    BusyBut(s, i);
    var t := Move(cfg, s, i, status, now);
    var slots := SlotsBut(cfg, s, i);
    forall j | 0 <= j < |s| && j != i
      ensures t[j] == if s[j].status == Queued && Ahead(s, i, j) < slots
                      then s[j].(status := Running, updatedAt := now) else s[j]
    {
      AheadIsCount(s, i, j);
      if s[j].status == Queued {
        QueuedInPrefix(s, j);
      }
    }
  }

  /** A queued job has fewer queued ones before it than there are. */
  lemma QueuedInPrefix(s: Jobs, j: nat)
    requires j < |s| && s[j].status == Queued
    ensures Count(s[..j], Queued) < Count(s, Queued)
  {
    CountPrefix(s, j, Queued);
  }

  /** Who else is where does not depend on what becomes of job `i`. */
  lemma SameQueue(cfg: Config, s: Jobs, t: Jobs, u: Jobs, i: nat, now: int)
    requires OthersStay(s, t, i) && OthersMoveUp(cfg, t, u, i, now)
    ensures OthersMoveUp(cfg, s, u, i, now)
  {
    assert (set j: nat | j < |s| && j != i && s[j].status == Running)
        == (set j: nat | j < |t| && j != i && t[j].status == Running);
    forall j | 0 <= j < |s| && j != i
      ensures Ahead(s, i, j) == Ahead(t, i, j)
    {
      assert (set k: nat | k < j && k < |s| && k != i && s[k].status == Queued)
          == (set k: nat | k < j && k < |t| && k != i && t[k].status == Queued);
    }
  }

  lemma GpuReportExactly(r: Text, retention: Retention, training: Training)
    requires IsJobId(r) && training.Ended?
    ensures Succeeds(r, retention, training.outcome) <==> GpuReport(training).Some?
  {
    hide IsJobId, IsHash, SafeIdentifier;
  }

  /** From the end of training on, for the report taken as given. */
  lemma ConcludedAs(cfg: Config, s: Jobs, id: Text, q: Request, o: Outcome, now: int)
    requires JobsOk(s) && OneResult(s) && Holds(s, id)
    requires s[Find(s, id).value].status == Running && s[Find(s, id).value].request == Some(q)
    ensures var i := Find(s, id).value;
            var done := Conclude(cfg, s, id, q.retention, o, now);
            var report := GpuReport(Ended(o));
            && done.error.None? && OthersMoveUp(cfg, s, done.jobs, i, now)
            && done.jobs[i] == if report.Some? then SucceededWith(s[i], q, report.value, None, now)
                               else s[i].(status := Failed, updatedAt := now)
  {
    hide RecordOk, Move, ValidProvenance, GpuReport, ReportedId, IsHash, OthersMoveUp, MadeArtifact, MadeProvenance;
    var i := Find(s, id).value;
    assert s[i] in s && HoldsOne(s[i]);
    JobIdOk(s[i]);
    GpuReportExactly(id, q.retention, Ended(o));
    if GpuReport(Ended(o)).Some? {
      MadeAs(s[i], q, o);
      RetentionOk(s[i]);
      TrainedOk(id, q.retention, o);
      var p := Finished(id, q.retention, o);
      SerialFacts.Registered(s, id, p.artifact, p.provenance, now);
      var t := Register(s, id, p.artifact, p.provenance, now).value;
      MovesUp(cfg, t, i, Succeeded, now);
      SameQueue(cfg, s, t, Move(cfg, t, i, Succeeded, now), i, now);
    } else {
      MovesUp(cfg, s, i, Failed, now);
    }
  }

  lemma MadeAs(r: Record, q: Request, o: Outcome)
    requires GpuReport(Ended(o)).Some? && IsJobId(r.id)
    ensures var p, report := Finished(r.id, q.retention, o), GpuReport(Ended(o)).value;
            && p.Trained?
            && p.artifact == Artifact(ReportedId(report), r.id, report.datasetHash, report.artifactHash, report.at,
                                      Lit("provenance_") + r.id, q.retention, None)
            && p.provenance == Provenance(r.id, report.datasetHash, report.artifactHash, report.model, report.configHash,
                                          report.at, Lit("scooling-lab.provenance.v1"))
  {
    hide IsJobId, SafeIdentifier;
  }

  lemma StartedAs(cfg: Config, s: Jobs, id: Text, now: int)
    requires JobsOk(s) && OneResult(s) && ActiveJob(s, id)
    ensures var i, t := Find(s, id).value, UpdateStatus(cfg, s, id, Running, now);
            && t.Ok? && OthersStay(s, t.value, i)
            && t.value[i] == if s[i].status == Running then s[i] else s[i].(status := Running, updatedAt := now)
  {
  }

  /** The fake worker's report, as the shape the service checks. */
  lemma FakeReport(setup: Setup, id: Text, q: Request, now: int)
    requires ValidRequest(q) && IsJobId(id)
    ensures GpuReport(Ended(FakeOutcome(setup.cfg.sha, setup.fixture, id, q, now))) == Some(FixtureReport(setup, id, q, now))
  {
    hide ValidRequest, SafeIdentifier, PlaceholderHash, ConfigHash, IsHash, HexDigest;
    ModelIsSafe(q);
  }

  /** What the run of an active job comes to, without uploads. */
  predicate RunCameTo(setup: Setup, s: Jobs, i: nat, q: Request, env: Env, done: Done)
    requires i < |s| == |done.jobs|
  {
    var report := ReportOf(setup, s[i].id, q, env);
    if q.modelId == GpuModel() && env.training.Crashed? then
      && done.error == Some(InternalError) && OthersStay(s, done.jobs, i)
      && done.jobs[i] == if s[i].status == Running then s[i] else s[i].(status := Running, updatedAt := env.now)
    else
      && done.error.None? && OthersMoveUp(setup.cfg, s, done.jobs, i, env.now)
      && done.jobs[i] == if report.Some? then SucceededWith(s[i], q, report.value, None, env.now)
                         else s[i].(status := Failed, updatedAt := env.now)
  }

  lemma RunAs(setup: Setup, s: Jobs, id: Text, env: Env)
    requires JobsOk(s) && OneResult(s) && ActiveJob(s, id)
    ensures RequestOf(s, id).Some? && ValidRequest(RequestOf(s, id).value)
    ensures var i, q := Find(s, id).value, RequestOf(s, id).value;
            var done := RunJob(setup.cfg, s, id, JobTraining(setup.cfg.sha, setup.fixture, id, q, env.training, env.now), env.now);
            |done.jobs| == |s| && RunCameTo(setup, s, i, q, env, done)
  {
    hide JobsOk, UpdateStatus, Conclude, OneResult, ValidRequest, OthersStay, OthersMoveUp, GpuReport, FakeOutcome,
      FixtureReport, Evolves, SameResults, OthersKept, Find;
    ActiveRequested(s, id);
    var i, q := Find(s, id).value, RequestOf(s, id).value;
    StartedRun(setup.cfg, s, id, env.now);
    StartedAs(setup.cfg, s, id, env.now);
    var t := UpdateStatus(setup.cfg, s, id, Running, env.now).value;
    SameResultsOne(s, t);
    StoredId(s, id);
    GpuShape(q);
    FakeReport(setup, id, q, env.now);
    var training := JobTraining(setup.cfg.sha, setup.fixture, id, q, env.training, env.now);
    if training.Ended? {
      ConcludedAs(setup.cfg, t, id, q, training.outcome, env.now);
      SameQueue(setup.cfg, s, t, Conclude(setup.cfg, t, id, q.retention, training.outcome, env.now).jobs, i, env.now);
    }
  }

  lemma StoredId(s: Jobs, id: Text)
    requires JobsOk(s) && Holds(s, id)
    ensures IsJobId(id)
  {
    hide RecordOk;
    assert s[Find(s, id).value] in s;
    JobIdOk(s[Find(s, id).value]);
  }

  lemma GpuShape(q: Request)
    requires ValidRequest(q)
    ensures q.modelId == GpuModel() ==> q.params.dryRun == Some(false)
  {
  }

  /** The upload after a success. */
  lemma UploadedAs(setup: Setup, w: World, id: Text, r: Record, q: Request, report: Report, tarball: Tarball, now: int)
    requires JobsOk(w.jobs) && OneResult(w.jobs) && Holds(w.jobs, id) && r.id == id
    requires w.jobs[Find(w.jobs, id).value] == SucceededWith(r, q, report, None, now)
    ensures var i, u := Find(w.jobs, id).value, Uploaded(setup, w, id, tarball, now);
            && u.world.datasets == w.datasets && OthersStay(w.jobs, u.world.jobs, i)
            && if setup.stored && tarball.Tarball? then
                 && u.world.jobs[i] == SucceededWith(r, q, report, Some(ObjectKey(id, report)), now)
                 && u.world.objects == w.objects[ObjectKey(id, report) := tarball.content] && u.error == None
               else
                 && u.world == w && u.error == if setup.stored && tarball.NoRoot? then Some(InternalError) else None
  {
    hide JobsOk, OneResult, UploadEach, SetStorageKey, ReportedId, Find;
    var i := Find(w.jobs, id).value;
    KeySet(w.jobs, id, now);
    if setup.stored && tarball.Tarball? {
      var a := w.jobs[i].artifacts[0];
      assert w.jobs[i].artifacts == [a];
      UploadsOne(w, id, a, tarball.content, now);
      assert StorageKey(id, a.id) == ObjectKey(id, report);
    }
  }

  /**
   A run on request, told by the record, the request it stands for and the environment: how the job ends, what is
   stored, and who moves up in the queue.
   */
  lemma RunExactly(setup: Setup, w: World, id: Text, env: Env)
    requires Calm(setup, w) && Runs(setup, w.jobs, id)
    ensures RequestOf(w.jobs, id).Some?
    ensures var i, reply := Find(w.jobs, id).value, RunIfConfigured(setup, w, id, env);
            var q := RequestOf(w.jobs, id).value;
            && reply.world.datasets == w.datasets && |reply.world.jobs| == |w.jobs|
            && Ends(setup, w.jobs[i], q, env, reply.world.jobs[i], w.objects, reply.world.objects, reply.error)
            && if q.modelId == Lit("scooling-lab-gpu-personal-v1") && env.training.Crashed?
               then OthersStay(w.jobs, reply.world.jobs, i)
               else OthersMoveUp(setup.cfg, w.jobs, reply.world.jobs, i, env.now)
  {
    hide StoreInv, Decided, StorageAgrees, OneResult, JobsOk, RunJob, Uploaded, JobTraining, GpuReport, FixtureReport,
      OthersMoveUp, ObjectKey, Find, ReportedId;
    JobsOfStore(setup.cfg, w.jobs);
    RunAs(setup, w.jobs, id, env);
    ActiveRequested(w.jobs, id);
    var q := RequestOf(w.jobs, id).value;
    var i := Find(w.jobs, id).value;
    var training := TrainingOf(setup, w.jobs, id, env);
    JobRun(setup.cfg, w.jobs, id, training, env.now);
    var done := RunJob(setup.cfg, w.jobs, id, training, env.now);
    var report := ReportOf(setup, id, q, env);
    if !(q.modelId == GpuModel() && env.training.Crashed?) && report.Some? {
      var after := w.(jobs := done.jobs);
      UploadedAs(setup, after, id, w.jobs[i], q, report.value, env.tarball, env.now);
      MovedUpToo(setup.cfg, w.jobs, done.jobs, Uploaded(setup, after, id, env.tarball, env.now).world.jobs, i, env.now);
    }
  }

  lemma MovedUpToo(cfg: Config, s: Jobs, t: Jobs, u: Jobs, i: nat, now: int)
    requires OthersMoveUp(cfg, s, t, i, now) && OthersStay(t, u, i)
    ensures OthersMoveUp(cfg, s, u, i, now)
  {
    hide Ahead, SlotsBut;
  }
}
