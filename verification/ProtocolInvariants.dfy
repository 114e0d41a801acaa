/** What every interleaving keeps. */
module ProtocolInvariants {
  import opened Texts
  import opened Contracts
  import opened StateMachine
  import opened Jobs
  import opened JobFacts
  import opened JobInvariants
  import opened Datasets
  import opened Tokens
  import opened Protocol

  // --- Ids keep their positions

  lemma FoundLater(s: Jobs, t: Jobs, id: Text)
    requires UniqueIds(s) && UniqueIds(t) && JobsEvolve(s, t) && Holds(s, id)
    ensures Find(t, id) == Find(s, id)
  {
    var i := Find(s, id).value;
    assert t[i].id == id;
    FindAt(t, i);
  }

  // --- The queue quota

  lemma {:induction false} EvolvedActive(s: Jobs, t: Jobs)
    requires JobsEvolve(s, t) && |t| == |s|
    ensures ActiveCount(t) <= ActiveCount(s)
  {
    if s != [] {
      var n := |s| - 1;
      assert Evolves(s[n], t[n]);
      EvolvedActive(s[..n], t[..n]);
    }
  }

  /** Queued and running jobs stay within the queue limit. */
  predicate WithinQuota(cfg: Config, s: Jobs) {
    ActiveCount(s) == 0 || ActiveCount(s) <= cfg.queueLimit
  }

  lemma QuotaKept(cfg: Config, s: Jobs, t: Jobs)
    requires WithinQuota(cfg, s) && JobsEvolve(s, t) && |t| == |s|
    ensures WithinQuota(cfg, t)
  {
    EvolvedActive(s, t);
  }

  lemma QuotaAppend(cfg: Config, s: Jobs, r: Record)
    requires ActiveCount(s) < cfg.queueLimit
    ensures WithinQuota(cfg, s + [r])
  {
    CountAppend(s, r, Queued);
    CountAppend(s, r, Running);
  }

  // --- Retry lineage

  /** The job a retry was made from: in the store, over for good, with the same request. */
  predicate IsParent(s: Jobs, k: nat, i: nat) {
    && k < |s| && i < |s|
    && s[i].retryOf == Some(s[k].id)
    && (s[k].status == Failed || s[k].status == Cancelled)
    && s[k].request.Some?
    && (s[i].request.Some? ==> s[i].request == s[k].request)
  }

  ghost predicate HasParent(s: Jobs, rank: Text -> nat, i: nat) {
    exists k: nat :: k < |s| && i < |s| && IsParent(s, k, i) && rank(s[k].id) < rank(s[i].id)
  }

  ghost predicate Ranked(s: Jobs, rank: Text -> nat) {
    forall i: nat :: i < |s| && s[i].retryOf.Some? ==> HasParent(s, rank, i)
  }

  /** Every retry has its parent, and some rank of the ids falls along the links: they form a forest. */
  ghost predicate Lineage(s: Jobs) {
    exists rank :: Ranked(s, rank)
  }

  lemma ParentKept(s: Jobs, t: Jobs, k: nat, i: nat)
    requires JobsEvolve(s, t) && IsParent(s, k, i)
    ensures IsParent(t, k, i)
  {
    assert Evolves(s[k], t[k]) && Evolves(s[i], t[i]);
  }

  lemma LineageKept(s: Jobs, t: Jobs)
    requires Lineage(s) && JobsEvolve(s, t) && |t| == |s|
    ensures Lineage(t)
  {
    hide IsParent;
    var rank :| Ranked(s, rank);
    forall i: nat | i < |t| && t[i].retryOf.Some?
      ensures HasParent(t, rank, i)
    {
      assert Evolves(s[i], t[i]) && HasParent(s, rank, i);
      var k: nat :| k < |s| && IsParent(s, k, i) && rank(s[k].id) < rank(s[i].id);
      ParentKept(s, t, k, i);
      assert Evolves(s[k], t[k]);
    }
    assert Ranked(t, rank);
  }

  lemma LineageAppend(s: Jobs, r: Record)
    requires Lineage(s) && !Holds(s, r.id)
    requires r.retryOf.Some? ==> exists k: nat :: k < |s| && IsParent(s + [r], k, |s|)
    ensures Lineage(s + [r])
  {
    var t := s + [r];
    var rank :| Ranked(s, rank);
    var parent: nat := if k: nat :| r.retryOf.Some? && k < |s| && IsParent(t, k, |s|) then k else 0;
    var top := if r.retryOf.Some? then rank(t[parent].id) + 1 else 0;
    var higher := (id: Text) => if id == r.id then top else rank(id);
    forall i: nat | i < |t| && t[i].retryOf.Some?
      ensures HasParent(t, higher, i)
    {
      if i < |s| {
        assert HasParent(s, rank, i);
        var k: nat :| k < |s| && IsParent(s, k, i) && rank(s[k].id) < rank(s[i].id);
        assert IsParent(t, k, i);
        assert s[k].id != r.id && s[i].id != r.id;
      } else {
        assert IsParent(t, parent, i) && t[parent].id != r.id;
      }
    }
    assert Ranked(t, higher);
  }

  // --- Where ids come from

  /** A job has the id of its request, or of an attempt at the job it retries. */
  ghost predicate IdOrigin(sha: Sha, r: Record) {
    && (r.request.Some? ==> ValidRequest(r.request.value))
    && (r.retryOf.None? && r.request.Some? ==> r.id == StableJobId(sha, r.request.value))
    && (r.retryOf.Some? ==> exists n :: r.id == RetryId(sha, r.retryOf.value, n))
  }

  ghost predicate IdOrigins(sha: Sha, s: Jobs) {
    forall i :: 0 <= i < |s| ==> IdOrigin(sha, s[i])
  }

  lemma OriginKept(sha: Sha, r: Record, t: Record)
    requires IdOrigin(sha, r) && Evolves(r, t)
    ensures IdOrigin(sha, t)
  {
    hide StableJobId, RetryId, ValidRequest;
  }

  lemma OriginsKept(sha: Sha, s: Jobs, t: Jobs)
    requires IdOrigins(sha, s) && JobsEvolve(s, t) && |t| == |s|
    ensures IdOrigins(sha, t)
  {
    hide IdOrigin;
    forall i | 0 <= i < |t|
      ensures IdOrigin(sha, t[i])
    {
      OriginKept(sha, s[i], t[i]);
    }
  }

  // --- Everything about the jobs

  ghost predicate StoreInv(cfg: Config, s: Jobs) {
    JobsOk(s) && WithinQuota(cfg, s) && Lineage(s) && IdOrigins(cfg.sha, s)
  }

  /** Operations that add no job keep all of it. */
  lemma StoreKept(cfg: Config, s: Jobs, t: Jobs)
    requires StoreInv(cfg, s) && JobsOk(t) && JobsEvolve(s, t) && |t| == |s|
    ensures StoreInv(cfg, t)
  {
    hide JobsOk, IdOrigins, Lineage, WithinQuota;
    QuotaKept(cfg, s, t);
    LineageKept(s, t);
    OriginsKept(cfg.sha, s, t);
  }

  lemma Standing(ds: Registry)
    ensures DecisionsStand(ds, ds)
  {
  }

  lemma StoreKeptByCreate(cfg: Config, s: Jobs, request: Request, now: int)
    requires StoreInv(cfg, s) && ValidRequest(request)
    requires Create(cfg, s, request, now).Ok?
    ensures var t := Create(cfg, s, request, now).value;
            && StoreInv(cfg, t) && JobsEvolve(s, t) && Holds(t, StableJobId(cfg.sha, request))
  {
    hide JobsOk, Lineage, WithinQuota, StableJobId, ValidRequest;
    CreateOk(cfg, s, request, now);
    var id := StableJobId(cfg.sha, request);
    if !Holds(s, id) {
      var r := NewRecord(id, request, None, now);
      QuotaAppend(cfg, s, r);
      LineageAppend(s, r);
      assert (s + [r])[|s|].id == id;
    }
  }

  lemma RetriedParent(cfg: Config, s: Jobs, id: Text, attempt: nat, now: int)
    requires JobsOk(s) && RetryRefusal(cfg, s, id).None?
    ensures IsParent(Retried(cfg, s, id, attempt, now), Find(s, id).value, |s|)
  {
  }

  lemma StoreKeptByRetry(cfg: Config, s: Jobs, id: Text, attempt: nat, now: int)
    requires StoreInv(cfg, s) && RetryRefusal(cfg, s, id).None? && FreeAttempt(cfg.sha, s, id, attempt)
    ensures var t := Retried(cfg, s, id, attempt, now);
            && StoreInv(cfg, t) && JobsEvolve(s, t) && Holds(t, RetryId(cfg.sha, id, attempt))
  {
    hide JobsOk, Lineage, WithinQuota, RetryId, ValidRequest, IsParent;
    RetriedOk(cfg, s, id, attempt, now);
    RetriedParent(cfg, s, id, attempt, now);
    var i := Find(s, id).value;
    var r := NewRecord(RetryId(cfg.sha, id, attempt), s[i].request.value, Some(id), now);
    QuotaAppend(cfg, s, r);
    LineageAppend(s, r);
    assert IdOrigin(cfg.sha, s[i]);
    assert (s + [r])[|s|].id == r.id;
  }

  // --- The requests in flight

  /** What a request in flight may rely on. */
  predicate PhaseOk(s: Jobs, ds: Registry, p: Phase) {
    && (p.Requested? ==> ValidRequest(p.request))
    && (p.Gated? ==> ValidRequest(p.request) && IsApproved(ds, p.request.datasetId))
    && (HasJob(p) ==> Holds(s, p.job))
    && (p.Trained? ==>
          && ArtifactOk(p.artifact, p.job)
          && ValidProvenance(p.provenance)
          && p.provenance.jobId == p.job
          && p.provenance.artifactHash == p.artifact.artifactHash
          && p.provenance.datasetHash == p.artifact.datasetHash)
    && (p.ArtifactKept? ==>
          s[Find(s, p.job).value].artifacts != [] || s[Find(s, p.job).value].status == Deleted)
  }

  lemma PhaseKept(s: Jobs, t: Jobs, ds: Registry, later: Registry, p: Phase)
    requires PhaseOk(s, ds, p) && UniqueIds(s) && UniqueIds(t) && JobsEvolve(s, t) && DecisionsStand(ds, later)
    ensures PhaseOk(t, later, p)
  {
    hide ArtifactOk, ValidRequest, IsApproved;
    if p.Gated? {
      ApprovedStands(ds, later, p.request.datasetId);
    }
    if HasJob(p) {
      FoundLater(s, t, p.job);
      assert Evolves(s[Find(s, p.job).value], t[Find(s, p.job).value]);
    }
  }

  /** Permits are conserved: each is free or held by one request, and only by one that is past the semaphore. */
  predicate PermitsConserved(cfg: Config, s: System) {
    && s.permits >= 0
    && s.permits + |s.holders| == cfg.maxRunning
    && s.holders <= s.calls.Keys
    && forall c :: c in s.calls ==> (c in s.holders <==> HoldsPermit(s.calls[c]))
  }

  predicate PhasesOk(s: System) {
    forall c :: c in s.calls ==> PhaseOk(s.jobs, s.datasets, s.calls[c])
  }

  ghost predicate Inv(cfg: Config, forbidden: LabelTest, s: System) {
    && StoreInv(cfg, s.jobs)
    && Decided(forbidden, s.datasets)
    && PhasesOk(s)
    && PermitsConserved(cfg, s)
  }

  /** What one event does to jobs and datasets. */
  ghost predicate Progress(s: System, t: System) {
    JobsEvolve(s.jobs, t.jobs) && DecisionsStand(s.datasets, t.datasets)
  }

  lemma EndKeeps(cfg: Config, forbidden: LabelTest, s: System, c: nat)
    requires Inv(cfg, forbidden, s) && c in s.calls
    ensures Inv(cfg, forbidden, End(s, c)) && Progress(s, End(s, c))
  {
    hide StoreInv, Decided, PhaseOk;
    Standing(s.datasets);
  }

  /** A request goes on to its next phase after a store call that succeeded. */
  lemma PutKeeps(cfg: Config, forbidden: LabelTest, s: System, jobs: Jobs, c: nat, p: Phase)
    requires Inv(cfg, forbidden, s) && c in s.calls
    requires StoreInv(cfg, jobs) && JobsEvolve(s.jobs, jobs)
    requires PhaseOk(jobs, s.datasets, p) && HoldsPermit(p) == HoldsPermit(s.calls[c])
    ensures Inv(cfg, forbidden, Put(s.(jobs := jobs), c, p)) && Progress(s, Put(s.(jobs := jobs), c, p))
  {
    hide Decided, PhaseOk, Lineage, IdOrigins, WithinQuota, RecordOk;
    Standing(s.datasets);
    var t := Put(s.(jobs := jobs), c, p);
    forall d | d in t.calls
      ensures PhaseOk(t.jobs, t.datasets, t.calls[d])
    {
      if d != c {
        PhaseKept(s.jobs, jobs, s.datasets, s.datasets, s.calls[d]);
      }
    }
  }

  lemma JobsKeep(cfg: Config, forbidden: LabelTest, s: System, jobs: Jobs)
    requires Inv(cfg, forbidden, s) && JobsOk(jobs) && JobsEvolve(s.jobs, jobs) && |jobs| == |s.jobs|
    ensures Inv(cfg, forbidden, s.(jobs := jobs)) && Progress(s, s.(jobs := jobs))
  {
    hide Decided, PhaseOk, Lineage, IdOrigins, WithinQuota, RecordOk;
    Standing(s.datasets);
    StoreKept(cfg, s.jobs, jobs);
    forall d | d in s.calls
      ensures PhaseOk(jobs, s.datasets, s.calls[d])
    {
      PhaseKept(s.jobs, jobs, s.datasets, s.datasets, s.calls[d]);
    }
  }

  lemma ReviewKeeps(cfg: Config, forbidden: LabelTest, s: System, later: Registry)
    requires Inv(cfg, forbidden, s) && Decided(forbidden, later) && DecisionsStand(s.datasets, later)
    ensures Inv(cfg, forbidden, s.(datasets := later)) && Progress(s, s.(datasets := later))
  {
    hide Decided, PhaseOk, Lineage, IdOrigins, WithinQuota, RecordOk, DecisionsStand;
    assert JobsEvolve(s.jobs, s.jobs);
    forall d | d in s.calls
      ensures PhaseOk(s.jobs, later, s.calls[d])
    {
      PhaseKept(s.jobs, s.jobs, s.datasets, later, s.calls[d]);
    }
  }

  lemma BeginKeeps(cfg: Config, forbidden: LabelTest, s: System, c: nat, p: Phase)
    requires Inv(cfg, forbidden, s) && c !in s.calls && PhaseOk(s.jobs, s.datasets, p) && !HoldsPermit(p)
    ensures Inv(cfg, forbidden, Put(s, c, p)) && Progress(s, Put(s, c, p))
  {
    hide Decided, PhaseOk, StoreInv;
    Standing(s.datasets);
  }

  lemma AcquireKeeps(cfg: Config, forbidden: LabelTest, s: System, c: nat)
    requires Inv(cfg, forbidden, s) && c in s.calls && s.calls[c].Waiting? && s.permits > 0
    ensures var t := Put(s.(permits := s.permits - 1, holders := s.holders + {c}), c, Admitted(s.calls[c].job));
            Inv(cfg, forbidden, t) && Progress(s, t)
  {
    hide Decided, StoreInv, ArtifactOk, ValidRequest, ValidProvenance, IsApproved, Find;
    Standing(s.datasets);
  }

  lemma UnmovedKeeps(cfg: Config, forbidden: LabelTest, s: System)
    requires Inv(cfg, forbidden, s)
    ensures Progress(s, s)
  {
    Standing(s.datasets);
  }

  // --- Each event

  lemma CreateStepKeeps(cfg: Config, forbidden: LabelTest, s: System, c: nat, e: Event)
    requires Inv(cfg, forbidden, s) && c in s.calls && e.StoreCreate? && s.calls[c].Gated?
    ensures Inv(cfg, forbidden, CallStep(cfg, s, c, e)) && Progress(s, CallStep(cfg, s, c, e))
  {
    hide StoreInv, Decided, PermitsConserved, Create, StableJobId, ValidRequest, Inv, Progress;
    InvParts(cfg, forbidden, s, c);
    var request := s.calls[c].request;
    if Create(cfg, s.jobs, request, e.now).Ok? {
      StoreKeptByCreate(cfg, s.jobs, request, e.now);
      PutKeeps(cfg, forbidden, s, Create(cfg, s.jobs, request, e.now).value, c, Entered(StableJobId(cfg.sha, request)));
    } else {
      EndKeeps(cfg, forbidden, s, c);
    }
  }

  lemma InvParts(cfg: Config, forbidden: LabelTest, s: System, c: nat)
    requires Inv(cfg, forbidden, s) && c in s.calls
    ensures StoreInv(cfg, s.jobs) && JobsOk(s.jobs) && PhaseOk(s.jobs, s.datasets, s.calls[c])
  {
  }

  lemma RetryStepKeeps(cfg: Config, forbidden: LabelTest, s: System, c: nat, e: Event)
    requires Inv(cfg, forbidden, s) && c in s.calls && e.StoreRetry? && s.calls[c].Retrying?
    ensures Inv(cfg, forbidden, CallStep(cfg, s, c, e)) && Progress(s, CallStep(cfg, s, c, e))
  {
    hide StoreInv, Decided, PermitsConserved, RetryAttempt, RetryId, Retried, RetryRefusal, Inv, Progress;
    InvParts(cfg, forbidden, s, c);
    UnmovedKeeps(cfg, forbidden, s);
    var original := s.calls[c].original;
    if RetryRefusal(cfg, s.jobs, original).Some? {
      EndKeeps(cfg, forbidden, s, c);
    } else if RetryAttempt(cfg.sha, s.jobs, original).Some? {
      var n := RetryAttempt(cfg.sha, s.jobs, original).value;
      StoreKeptByRetry(cfg, s.jobs, original, n, e.now);
      PutKeeps(cfg, forbidden, s, Retried(cfg, s.jobs, original, n, e.now), c, Entered(RetryId(cfg.sha, original, n)));
    }
  }

  /** A status step of a worker: it cannot delete, and it succeeds only with an artifact in place. */
  lemma StatusStepKeeps(cfg: Config, forbidden: LabelTest, s: System, c: nat, target: Status, p: Phase, now: int)
    requires Inv(cfg, forbidden, s) && c in s.calls && HasJob(s.calls[c]) && HoldsPermit(s.calls[c])
    requires target == Running || target == Failed || target == Succeeded
    requires target == Succeeded ==> s.calls[c].ArtifactKept?
    requires (p.Training? || p.Completed?) && p.job == s.calls[c].job
    ensures var t := After(s, c, UpdateStatus(cfg, s.jobs, p.job, target, now), p);
            Inv(cfg, forbidden, t) && Progress(s, t)
  {
    hide StoreInv, Decided, PermitsConserved, UpdateStatus, RecordOk, Inv, Progress;
    InvParts(cfg, forbidden, s, c);
    var r := UpdateStatus(cfg, s.jobs, p.job, target, now);
    if r.Ok? {
      UpdateStatusOk(cfg, s.jobs, p.job, target, now);
      UpdateStatusSize(cfg, s.jobs, p.job, target, now);
      StoreKept(cfg, s.jobs, r.value);
      FoundLater(s.jobs, r.value, p.job);
      PutKeeps(cfg, forbidden, s, r.value, c, p);
    } else {
      EndKeeps(cfg, forbidden, s, c);
    }
  }

  lemma UpdateStatusSize(cfg: Config, s: Jobs, id: Text, target: Status, now: int)
    requires UpdateStatus(cfg, s, id, target, now).Ok?
    ensures |UpdateStatus(cfg, s, id, target, now).value| == |s|
  {
  }

  lemma MadeOk(job: Text, retention: Retention, o: Outcome)
    requires o.Produced? && ValidProvenance(MadeProvenance(job, o)) && ValidRetention(retention)
    ensures ArtifactOk(MadeArtifact(job, o, retention), job)
  {
  }

  lemma TrainStepKeeps(cfg: Config, forbidden: LabelTest, s: System, c: nat, e: Event)
    requires Inv(cfg, forbidden, s) && c in s.calls && e.Train? && s.calls[c].Training?
    ensures Inv(cfg, forbidden, CallStep(cfg, s, c, e)) && Progress(s, CallStep(cfg, s, c, e))
  {
    hide StoreInv, Decided, PermitsConserved, ValidProvenance, ArtifactOk, MadeArtifact, Inv, Progress;
    InvParts(cfg, forbidden, s, c);
    var job := s.calls[c].job;
    if RequestOf(s.jobs, job).None? {
      EndKeeps(cfg, forbidden, s, c);
    } else {
      var r := s.jobs[Find(s.jobs, job).value];
      assert r in s.jobs && RecordOk(r);
      var retention := r.request.value.retention;
      if e.outcome.Produced? && ValidProvenance(MadeProvenance(job, e.outcome)) {
        MadeOk(job, retention, e.outcome);
        MadeHashes(job, retention, e.outcome);
      }
      assert JobsEvolve(s.jobs, s.jobs);
      PutKeeps(cfg, forbidden, s, s.jobs, c, Finished(job, retention, e.outcome));
      assert s.(jobs := s.jobs) == s;
    }
  }

  lemma MadeHashes(job: Text, retention: Retention, o: Outcome)
    requires o.Produced? && ValidProvenance(MadeProvenance(job, o))
    ensures var a := MadeArtifact(job, o, retention);
            a.artifactHash == MadeProvenance(job, o).artifactHash && a.datasetHash == MadeProvenance(job, o).datasetHash
  {
  }

  /** A result kept is one that the request may go on from. */
  lemma RegisterKeeps(cfg: Config, s: Jobs, ds: Registry, p: Phase, now: int)
    requires StoreInv(cfg, s) && p.Trained? && PhaseOk(s, ds, p)
    requires Register(s, p.job, p.artifact, p.provenance, now).Ok?
    ensures var t := Register(s, p.job, p.artifact, p.provenance, now).value;
            StoreInv(cfg, t) && JobsEvolve(s, t) && |t| == |s| && PhaseOk(t, ds, ArtifactKept(p.job))
  {
    hide RecordOk, ArtifactOk, ValidProvenance, Evolves, IdOrigins, Lineage, WithinQuota;
    RegisterOk(s, p.job, p.artifact, p.provenance, now);
    var t := Register(s, p.job, p.artifact, p.provenance, now).value;
    StoreKept(cfg, s, t);
    FoundLater(s, t, p.job);
  }

  lemma KeepStepKeeps(cfg: Config, forbidden: LabelTest, s: System, c: nat, e: Event)
    requires Inv(cfg, forbidden, s) && c in s.calls && e.KeepArtifact? && s.calls[c].Trained?
    ensures Inv(cfg, forbidden, CallStep(cfg, s, c, e)) && Progress(s, CallStep(cfg, s, c, e))
  {
    hide StoreInv, Decided, PermitsConserved, PhaseOk, Register, JobsOk, JobsEvolve, Inv, Progress, UpdateStatus,
      Create, SetStorageKey, RetryRefusal, RetryAttempt, Finished, Find;
    InvParts(cfg, forbidden, s, c);
    var p := s.calls[c];
    var r := Register(s.jobs, p.job, p.artifact, p.provenance, e.now);
    if r.Ok? {
      RegisterKeeps(cfg, s.jobs, s.datasets, p, e.now);
      PutKeeps(cfg, forbidden, s, r.value, c, ArtifactKept(p.job));
    } else {
      EndKeeps(cfg, forbidden, s, c);
    }
  }

  lemma UploadStepKeeps(cfg: Config, forbidden: LabelTest, s: System, c: nat, e: Event)
    requires Inv(cfg, forbidden, s) && c in s.calls && e.Upload? && s.calls[c].Completed?
    ensures Inv(cfg, forbidden, CallStep(cfg, s, c, e)) && Progress(s, CallStep(cfg, s, c, e))
  {
    hide StoreInv, Decided, PermitsConserved, SetStorageKey, StorageKey, RecordOk, Inv, Progress, ArtifactOk,
      ValidProvenance, ValidRequest, IsApproved, Evolves, UniqueIds;
    InvParts(cfg, forbidden, s, c);
    var job := s.calls[c].job;
    var r := SetStorageKey(s.jobs, job, e.artifactId, StorageKey(job, e.artifactId), e.now);
    if r.Ok? {
      SetStorageKeyOk(s.jobs, job, e.artifactId, e.now);
      SetStorageKeySize(s.jobs, job, e.artifactId, StorageKey(job, e.artifactId), e.now);
      StoreKept(cfg, s.jobs, r.value);
      FoundLater(s.jobs, r.value, job);
      PutKeeps(cfg, forbidden, s, r.value, c, Completed(job));
    } else {
      EndKeeps(cfg, forbidden, s, c);
    }
  }

  lemma SetStorageKeySize(s: Jobs, id: Text, artifactId: Text, key: Text, now: int)
    requires SetStorageKey(s, id, artifactId, key, now).Ok?
    ensures |SetStorageKey(s, id, artifactId, key, now).value| == |s|
  {
  }

  /** Steps that read the store and move the request on. */
  lemma ReadStepKeeps(cfg: Config, forbidden: LabelTest, s: System, c: nat, e: Event)
    requires Inv(cfg, forbidden, s) && c in s.calls
    requires e.CheckGate? || e.ReadStatus? || e.Acquire? || e.Dispatch? || e.ReadTerminal? || e.Leave?
    ensures Inv(cfg, forbidden, CallStep(cfg, s, c, e)) && Progress(s, CallStep(cfg, s, c, e))
  {
    hide Inv, Progress, CallStep, PhaseOk;
    if e.CheckGate? || e.Acquire? || e.Leave? {
      GateStepKeeps(cfg, forbidden, s, c, e);
    } else {
      LookStepKeeps(cfg, forbidden, s, c, e);
    }
  }

  lemma GateStepKeeps(cfg: Config, forbidden: LabelTest, s: System, c: nat, e: Event)
    requires Inv(cfg, forbidden, s) && c in s.calls && (e.CheckGate? || e.Acquire? || e.Leave?)
    ensures Inv(cfg, forbidden, CallStep(cfg, s, c, e)) && Progress(s, CallStep(cfg, s, c, e))
  {
    hide StoreInv, Decided, PermitsConserved, ArtifactOk, JobsOk, ValidRequest, IsApproved, Inv, Progress;
    InvParts(cfg, forbidden, s, c);
    UnmovedKeeps(cfg, forbidden, s);
    EndKeeps(cfg, forbidden, s, c);
    assert JobsEvolve(s.jobs, s.jobs);
    assert s.(jobs := s.jobs) == s;
    match (e, s.calls[c])
    case (CheckGate(_), Requested(request)) =>
      if IsApproved(s.datasets, request.datasetId) {
        PutKeeps(cfg, forbidden, s, s.jobs, c, Gated(request));
      }
    case (Acquire(_), Waiting(job)) =>
      if s.permits > 0 {
        AcquireKeeps(cfg, forbidden, s, c);
      }
    case _ =>
  }

  lemma LookStepKeeps(cfg: Config, forbidden: LabelTest, s: System, c: nat, e: Event)
    requires Inv(cfg, forbidden, s) && c in s.calls && (e.ReadStatus? || e.Dispatch? || e.ReadTerminal?)
    ensures Inv(cfg, forbidden, CallStep(cfg, s, c, e)) && Progress(s, CallStep(cfg, s, c, e))
  {
    hide StoreInv, Decided, PermitsConserved, ArtifactOk, JobsOk, ValidRequest, ValidProvenance, IsApproved, Inv,
      Progress, Find, RecordOk, Evolves;
    InvParts(cfg, forbidden, s, c);
    UnmovedKeeps(cfg, forbidden, s);
    EndKeeps(cfg, forbidden, s, c);
    Unmoved(s.jobs);
    assert s.(jobs := s.jobs) == s;
    match (e, s.calls[c])
    case (ReadStatus(_), Entered(job)) => PutKeeps(cfg, forbidden, s, s.jobs, c, Waiting(job));
    case (Dispatch(_), Admitted(job)) => PutKeeps(cfg, forbidden, s, s.jobs, c, Dispatched(job));
    case (ReadTerminal(_), Dispatched(job)) =>
      PutKeeps(cfg, forbidden, s, s.jobs, c, Starting(job));
      PutKeeps(cfg, forbidden, s, s.jobs, c, Completed(job));
    case _ =>
  }

  lemma StatusEventKeeps(cfg: Config, forbidden: LabelTest, s: System, c: nat, e: Event)
    requires Inv(cfg, forbidden, s) && c in s.calls && (e.MarkRunning? || e.MarkFailed? || e.MarkSucceeded?)
    ensures Inv(cfg, forbidden, CallStep(cfg, s, c, e)) && Progress(s, CallStep(cfg, s, c, e))
  {
    hide Inv, Progress, After, Put, End, UpdateStatus;
    UnmovedKeeps(cfg, forbidden, s);
    match (e, s.calls[c])
    case (MarkRunning(_, now), Starting(job)) => StatusStepKeeps(cfg, forbidden, s, c, Running, Training(job), now);
    case (MarkFailed(_, now), Failing(job)) => StatusStepKeeps(cfg, forbidden, s, c, Failed, Completed(job), now);
    case (MarkSucceeded(_, now), ArtifactKept(job)) => StatusStepKeeps(cfg, forbidden, s, c, Succeeded, Completed(job), now);
    case _ =>
  }

  /** A store call of a request that does not stand where it would be made. */
  lemma IdleStep(cfg: Config, s: System, c: nat, e: Event)
    requires c in s.calls && (e.StoreCreate? || e.StoreRetry? || e.Train? || e.KeepArtifact? || e.Upload?)
    requires e.StoreCreate? ==> !s.calls[c].Gated?
    requires e.StoreRetry? ==> !s.calls[c].Retrying?
    requires e.Train? ==> !s.calls[c].Training?
    requires e.KeepArtifact? ==> !s.calls[c].Trained?
    requires e.Upload? ==> !s.calls[c].Completed?
    ensures CallStep(cfg, s, c, e) == s
  {
    hide After, Put, End, UpdateStatus, Create, RetryAttempt, Retried, Register, SetStorageKey, Finished, Find,
      StableJobId, RetryId;
  }

  lemma StoreEventKeeps(cfg: Config, forbidden: LabelTest, s: System, c: nat, e: Event)
    requires Inv(cfg, forbidden, s) && c in s.calls
    requires e.StoreCreate? || e.StoreRetry? || e.Train? || e.KeepArtifact? || e.Upload?
    ensures Inv(cfg, forbidden, CallStep(cfg, s, c, e)) && Progress(s, CallStep(cfg, s, c, e))
  {
    hide Inv, Progress, CallStep;
    var p := s.calls[c];
    if e.StoreCreate? && p.Gated? {
      CreateStepKeeps(cfg, forbidden, s, c, e);
    } else if e.StoreRetry? && p.Retrying? {
      RetryStepKeeps(cfg, forbidden, s, c, e);
    } else if e.Train? && p.Training? {
      TrainStepKeeps(cfg, forbidden, s, c, e);
    } else if e.KeepArtifact? && p.Trained? {
      KeepStepKeeps(cfg, forbidden, s, c, e);
    } else if e.Upload? && p.Completed? {
      UploadStepKeeps(cfg, forbidden, s, c, e);
    } else {
      IdleStep(cfg, s, c, e);
      UnmovedKeeps(cfg, forbidden, s);
    }
  }

  lemma CallStepKeeps(cfg: Config, forbidden: LabelTest, s: System, c: nat, e: Event)
    requires Inv(cfg, forbidden, s) && c in s.calls
    requires !(e.BeginCreate? || e.BeginRetry? || e.CancelJob? || e.DeleteJobArtifact? || e.SweepJobs? || e.ReadJob?)
    requires !(e.RegisterDataset? || e.SubmitDataset? || e.ApproveDataset? || e.RejectDataset?)
    ensures Inv(cfg, forbidden, CallStep(cfg, s, c, e)) && Progress(s, CallStep(cfg, s, c, e))
  {
    hide Inv, Progress, CallStep;
    if e.MarkRunning? || e.MarkFailed? || e.MarkSucceeded? {
      StatusEventKeeps(cfg, forbidden, s, c, e);
    } else if e.StoreCreate? || e.StoreRetry? || e.Train? || e.KeepArtifact? || e.Upload? {
      StoreEventKeeps(cfg, forbidden, s, c, e);
    } else {
      ReadStepKeeps(cfg, forbidden, s, c, e);
    }
  }

  /** Requests that need one store call. */
  lemma JobEventKeeps(cfg: Config, forbidden: LabelTest, s: System, e: Event)
    requires Inv(cfg, forbidden, s)
    requires e.CancelJob? || e.DeleteJobArtifact? || e.SweepJobs? || e.ReadJob?
    ensures Inv(cfg, forbidden, Next(cfg, forbidden, s, e)) && Progress(s, Next(cfg, forbidden, s, e))
  {
    hide Inv, Progress, Cancel, DeleteArtifact, Sweep, EvaluateExpiry, JobsOk, JobsEvolve, Decided;
    UnmovedKeeps(cfg, forbidden, s);
    JobsOfInv(cfg, forbidden, s);
    match e
    case CancelJob(id, now) =>
      if Cancel(cfg, s.jobs, id, now).Ok? {
        CancelOk(cfg, s.jobs, id, now);
        CancelSize(cfg, s.jobs, id, now);
        JobsKeep(cfg, forbidden, s, Cancel(cfg, s.jobs, id, now).value);
      }
    case DeleteJobArtifact(id, artifactId, now) =>
      if DeleteArtifact(s.jobs, id, artifactId, now).Ok? {
        DeleteArtifactOk(s.jobs, id, artifactId, now);
        DeleteArtifactSize(s.jobs, id, artifactId, now);
        JobsKeep(cfg, forbidden, s, DeleteArtifact(s.jobs, id, artifactId, now).value.0);
      }
    case SweepJobs(now, stamp) =>
      SweepOk(s.jobs, now, stamp);
      JobsKeep(cfg, forbidden, s, Sweep(s.jobs, now, stamp));
    case ReadJob(id, now, stamp) =>
      if EvaluateExpiry(s.jobs, id, now, stamp).Ok? {
        EvaluateExpiryOk(s.jobs, id, now, stamp);
        EvaluateExpirySize(s.jobs, id, now, stamp);
        JobsKeep(cfg, forbidden, s, EvaluateExpiry(s.jobs, id, now, stamp).value);
      }
  }

  lemma JobsOfInv(cfg: Config, forbidden: LabelTest, s: System)
    requires Inv(cfg, forbidden, s)
    ensures JobsOk(s.jobs) && Decided(forbidden, s.datasets)
  {
  }

  lemma CancelSize(cfg: Config, s: Jobs, id: Text, now: int)
    requires Cancel(cfg, s, id, now).Ok?
    ensures |Cancel(cfg, s, id, now).value| == |s|
  {
  }

  lemma DeleteArtifactSize(s: Jobs, id: Text, artifactId: Text, now: int)
    requires DeleteArtifact(s, id, artifactId, now).Ok?
    ensures |DeleteArtifact(s, id, artifactId, now).value.0| == |s|
  {
  }

  lemma EvaluateExpirySize(s: Jobs, id: Text, now: int, stamp: int)
    requires EvaluateExpiry(s, id, now, stamp).Ok?
    ensures |EvaluateExpiry(s, id, now, stamp).value| == |s|
  {
  }

  lemma DatasetEventKeeps(cfg: Config, forbidden: LabelTest, s: System, e: Event)
    requires Inv(cfg, forbidden, s)
    requires e.RegisterDataset? || e.SubmitDataset? || e.ApproveDataset? || e.RejectDataset?
    ensures Inv(cfg, forbidden, Next(cfg, forbidden, s, e)) && Progress(s, Next(cfg, forbidden, s, e))
  {
    hide Inv, Progress, Next;
    if e.RegisterDataset? || e.SubmitDataset? {
      SubmissionKeeps(cfg, forbidden, s, e);
    } else {
      DecisionKeeps(cfg, forbidden, s, e);
    }
  }

  lemma SubmissionKeeps(cfg: Config, forbidden: LabelTest, s: System, e: Event)
    requires Inv(cfg, forbidden, s) && (e.RegisterDataset? || e.SubmitDataset?)
    ensures Inv(cfg, forbidden, Next(cfg, forbidden, s, e)) && Progress(s, Next(cfg, forbidden, s, e))
  {
    hide Inv, Progress, RegisterShape, Submit, Decided, DecisionsStand, Verdict;
    UnmovedKeeps(cfg, forbidden, s);
    JobsOfInv(cfg, forbidden, s);
    match e
    case RegisterDataset(id, shape, now) =>
      if RegisterShape(s.datasets, id, shape, now).Ok? {
        RegisterDecided(forbidden, s.datasets, id, shape, now);
        ReviewKeeps(cfg, forbidden, s, RegisterShape(s.datasets, id, shape, now).value);
      }
    case SubmitDataset(id, now) =>
      if Submit(forbidden, s.datasets, id, now).Ok? {
        SubmitDecides(forbidden, s.datasets, id, now);
        ReviewKeeps(cfg, forbidden, s, Submit(forbidden, s.datasets, id, now).value);
      }
  }

  lemma DecisionKeeps(cfg: Config, forbidden: LabelTest, s: System, e: Event)
    requires Inv(cfg, forbidden, s) && (e.ApproveDataset? || e.RejectDataset?)
    ensures Inv(cfg, forbidden, Next(cfg, forbidden, s, e)) && Progress(s, Next(cfg, forbidden, s, e))
  {
    hide Inv, Progress, Approve, Reject, Decided, DecisionsStand, IsApproved, TrainingDatasetId;
    UnmovedKeeps(cfg, forbidden, s);
    JobsOfInv(cfg, forbidden, s);
    match e
    case ApproveDataset(id, now) =>
      ApproveIsIdle(forbidden, s.datasets, id, now);
      if Approve(s.datasets, id, now).Ok? {
        ReviewKeeps(cfg, forbidden, s, Approve(s.datasets, id, now).value);
      }
    case RejectDataset(id, reason, now) =>
      RejectIsIdle(forbidden, s.datasets, id, reason, now);
      assert Reject(s.datasets, id, reason, now).Ok? ==> s.(datasets := Reject(s.datasets, id, reason, now).value) == s;
  }

  lemma BeginEventKeeps(cfg: Config, forbidden: LabelTest, s: System, e: Event)
    requires Inv(cfg, forbidden, s) && (e.BeginCreate? || e.BeginRetry?)
    ensures Inv(cfg, forbidden, Next(cfg, forbidden, s, e)) && Progress(s, Next(cfg, forbidden, s, e))
  {
    hide Inv, Progress, Put, ValidRequest;
    UnmovedKeeps(cfg, forbidden, s);
    match e
    case BeginCreate(c, request) =>
      if c !in s.calls && ValidRequest(request) {
        BeginKeeps(cfg, forbidden, s, c, Requested(request));
      }
    case BeginRetry(c, original) =>
      if c !in s.calls {
        BeginKeeps(cfg, forbidden, s, c, Retrying(original));
      }
  }

  /** Every event keeps the invariant, and moves jobs and datasets forward only. */
  lemma NextKeeps(cfg: Config, forbidden: LabelTest, s: System, e: Event)
    requires Inv(cfg, forbidden, s)
    ensures Inv(cfg, forbidden, Next(cfg, forbidden, s, e)) && Progress(s, Next(cfg, forbidden, s, e))
  {
    if e.BeginCreate? || e.BeginRetry? {
      BeginEventKeeps(cfg, forbidden, s, e);
    } else if e.CancelJob? || e.DeleteJobArtifact? || e.SweepJobs? || e.ReadJob? {
      JobEventKeeps(cfg, forbidden, s, e);
    } else if e.RegisterDataset? || e.SubmitDataset? || e.ApproveDataset? || e.RejectDataset? {
      DatasetEventKeeps(cfg, forbidden, s, e);
    } else {
      CallEventKeeps(cfg, forbidden, s, e);
    }
  }

  lemma CallEventKeeps(cfg: Config, forbidden: LabelTest, s: System, e: Event)
    requires Inv(cfg, forbidden, s)
    requires !(e.BeginCreate? || e.BeginRetry? || e.CancelJob? || e.DeleteJobArtifact? || e.SweepJobs? || e.ReadJob?)
    requires !(e.RegisterDataset? || e.SubmitDataset? || e.ApproveDataset? || e.RejectDataset?)
    ensures Inv(cfg, forbidden, Next(cfg, forbidden, s, e)) && Progress(s, Next(cfg, forbidden, s, e))
  {
    hide Inv, Progress, CallStep;
    UnmovedKeeps(cfg, forbidden, s);
    if e.c in s.calls {
      CallStepKeeps(cfg, forbidden, s, e.c, e);
    }
  }

  lemma InitialInv(cfg: Config, forbidden: LabelTest, now: int)
    requires SchemaAllowed(forbidden)
    ensures Inv(cfg, forbidden, Initial(cfg, now))
  {
    InitialDecided(forbidden, now);
    assert Ranked([], (id: Text) => 0);
  }

  lemma ProgressTransitive(a: System, b: System, c: System)
    requires Progress(a, b) && Progress(b, c)
    ensures Progress(a, c)
  {
    JobsEvolveTransitive(a.jobs, b.jobs, c.jobs);
    DecisionsStandTransitive(a.datasets, b.datasets, c.datasets);
  }

  /** Every interleaving, of any length, keeps the invariant and moves forward only. */
  lemma {:induction false} RunKeeps(cfg: Config, forbidden: LabelTest, s: System, events: seq<Event>)
    requires Inv(cfg, forbidden, s)
    ensures Inv(cfg, forbidden, Run(cfg, forbidden, s, events)) && Progress(s, Run(cfg, forbidden, s, events))
    decreases |events|
  {
    hide Inv, Progress, Next;
    if events == [] {
      UnmovedKeeps(cfg, forbidden, s);
    } else {
      var before := Run(cfg, forbidden, s, events[..|events| - 1]);
      RunKeeps(cfg, forbidden, s, events[..|events| - 1]);
      NextKeeps(cfg, forbidden, before, events[|events| - 1]);
      ProgressTransitive(s, before, Run(cfg, forbidden, s, events));
    }
  }
}
