/** A worker run as one piece: what it makes of the store when nothing else happens in between. */
module Workers {
  import opened Texts
  import opened JsonNumbers
  import opened Json
  import opened Contracts
  import opened StateMachine
  import opened Jobs
  import opened Protocol

  /** How the isolated training process ended; a crash is an exception the worker does not catch. */
  datatype Training = Crashed | Ended(outcome: Outcome)

  function PlaceholderJson(jobId: Text, request: Request, datasetHash: Text): Value {
    Obj([
      Member(Lit("datasetHash"), Str(datasetHash)),
      Member(Lit("jobId"), Str(jobId)),
      Member(Lit("modelId"), Str(request.modelId)),
      Member(Lit("placeholder"), Str(Lit("scooling-lab-fake-artifact-v1"))),
      Member(Lit("trainingParameters"), ParamsJson(request.params))])
  }

  /** `placeholder_artifact_hash` */
  function PlaceholderHash(sha: Sha, jobId: Text, request: Request, datasetHash: Text): (h: Text)
    ensures IsHash(h)
  {
    HexDigest(sha, Dumps(PlaceholderJson(jobId, request, datasetHash), Compact))
  }

  function ConfigJson(request: Request): Value {
    Obj([
      Member(Lit("modelId"), Str(request.modelId)),
      Member(Lit("retentionPolicy"), RetentionJson(request.retention)),
      Member(Lit("trainingParameters"), ParamsJson(request.params))])
  }

  /** `training_config_hash` */
  function ConfigHash(sha: Sha, request: Request): (h: Text)
    ensures IsHash(h)
  {
    HexDigest(sha, Dumps(ConfigJson(request), Compact))
  }

  /** What the fake worker reports: the same for the same job, whatever the time. */
  function FakeOutcome(sha: Sha, fixture: Text, jobId: Text, request: Request, now: int): (o: Outcome)
    ensures o.Produced?
  {
    Produced(HexDigest(sha, fixture), PlaceholderHash(sha, jobId, request, HexDigest(sha, fixture)), request.modelId,
             ConfigHash(sha, request), now)
  }

  lemma ModelsAreSafe()
    ensures SafeIdentifier(WaveAModel()) && SafeIdentifier(GpuModel())
  {
  }

  lemma ModelIsSafe(request: Request)
    requires ValidRequest(request)
    ensures SafeIdentifier(request.modelId)
  {
    hide ValidParams, ValidRetention, Requester, OwnDatasetId, TrainingDatasetId, SafeIdentifier;
    ModelsAreSafe();
  }

  /** The provenance of a fake run is always valid. */
  lemma FakeProvenanceValid(sha: Sha, fixture: Text, jobId: Text, request: Request, now: int)
    requires ValidRequest(request) && IsJobId(jobId)
    ensures ValidProvenance(MadeProvenance(jobId, FakeOutcome(sha, fixture, jobId, request, now)))
  {
    hide ValidRequest, SafeIdentifier, PlaceholderHash, ConfigHash, IsJobId, IsHash;
    ModelIsSafe(request);
  }

  /** What the isolated worker reports: nothing for a request of another shape. */
  function GpuTraining(request: Request, training: Training): Training {
    if request.modelId != GpuModel() || request.params.dryRun != Some(false) then Ended(NoResult) else training
  }

  /** How the run of a job ends, by the model its request asks for. */
  function JobTraining(sha: Sha, fixture: Text, jobId: Text, request: Request, training: Training, now: int): Training {
    if request.modelId == GpuModel() then GpuTraining(request, training)
    else Ended(FakeOutcome(sha, fixture, jobId, request, now))
  }

  /** The store a run leaves, and the error it raises if any. */
  datatype Done = Done(jobs: Jobs, error: Option<ErrorCode>)

  function Settled(s: Jobs, r: Result<Jobs>): Done {
    if r.Ok? then Done(r.value, None) else Done(s, Some(r.code))
  }

  /** From the end of training on: the result is registered and the job succeeds, or it fails. */
  function Conclude(cfg: Config, s: Jobs, id: Text, retention: Retention, o: Outcome, now: int): Done {
    var p := Finished(id, retention, o);
    if p.Failing? then Settled(s, UpdateStatus(cfg, s, id, Failed, now))
    else
      var kept := Register(s, id, p.artifact, p.provenance, now);
      if kept.Err? then Done(s, Some(kept.code))
      else Settled(kept.value, UpdateStatus(cfg, kept.value, id, Succeeded, now))
  }

  /** `run_job` of either worker. */
  function RunJob(cfg: Config, s: Jobs, id: Text, training: Training, now: int): Done {
    var i := Find(s, id);
    if i.None? then Done(s, Some(NotFound))
    else if !Active(s[i.value].status) then Done(s, None)
    else
      var started := UpdateStatus(cfg, s, id, Running, now);
      if started.Err? then Done(s, Some(started.code))
      else
        var request := RequestOf(started.value, id);
        if request.None? || training.Crashed? then Done(started.value, Some(InternalError))
        else Conclude(cfg, started.value, id, request.value.retention, training.outcome, now)
  }
}
