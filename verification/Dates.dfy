/** Instants stay within the calendar: a store fed with dates of the calendar holds no others. */
module Dates {
  import opened Texts
  import opened Utf8
  import opened Json
  import opened Contracts
  import opened StateMachine
  import opened Jobs
  import opened JobFacts
  import opened JobInvariants
  import opened Datasets
  import opened Persistence
  import opened Tokens
  import opened Protocol
  import opened ProtocolInvariants
  import opened TrainingStores
  import opened Workers
  import opened Serial
  import opened SerialFacts
  import opened SerialTheorems

  /** The longest time to live any policy allows. */
  const LONGEST_TTL := 63_072_000

  /** An instant at which an artifact can be made and still expire within the calendar. */
  predicate InTime(t: int) {
    InCalendar(t) && InCalendar(t + LONGEST_TTL)
  }

  lemma PolicyEnds(r: Retention, t: int)
    requires ValidRetention(r) && InTime(t)
    ensures InCalendar(t + r.ttl)
  {
  }

  lemma AppendDated(s: Jobs, r: Record)
    requires AllDated(s) && Dated(r)
    ensures AllDated(s + [r])
  {
    hide Dated;
  }

  lemma MoveDated(cfg: Config, s: Jobs, i: nat, status: Status, now: int)
    requires AllDated(s) && i < |s| && InCalendar(now)
    ensures AllDated(Move(cfg, s, i, status, now))
  {
    hide Promote, Count;
    if s[i].status != status {
      var moved := s[i := s[i].(status := status, updatedAt := now)];
      PromotionIsFifo(cfg.maxRunning, moved, now);
    }
  }

  lemma StatusDated(cfg: Config, s: Jobs, id: Text, target: Status, now: int)
    requires AllDated(s) && InCalendar(now) && UpdateStatus(cfg, s, id, target, now).Ok?
    ensures AllDated(UpdateStatus(cfg, s, id, target, now).value)
  {
    hide Move, AllDated;
    MoveDated(cfg, s, Find(s, id).value, target, now);
  }

  lemma RegisterDated(s: Jobs, id: Text, a: Artifact, p: Provenance, now: int)
    requires AllDated(s) && InCalendar(now) && DatedArtifact(a) && InCalendar(p.createdAt)
    requires Register(s, id, a, p, now).Ok?
    ensures AllDated(Register(s, id, a, p, now).value)
  {
    hide IsJobId, IsArtifactId, ValidProvenance, HasArtifact;
  }

  lemma SetStorageKeyDated(s: Jobs, id: Text, artifactId: Text, key: Text, now: int)
    requires AllDated(s) && InCalendar(now) && SetStorageKey(s, id, artifactId, key, now).Ok?
    ensures AllDated(SetStorageKey(s, id, artifactId, key, now).value)
  {
    hide IsJobId, IsArtifactId, HasArtifact;
  }

  lemma ExpireDated(r: Record, now: int, stamp: int)
    requires Dated(r) && InCalendar(stamp)
    ensures Dated(Expire(r, now, stamp))
  {
    hide Expired;
  }

  // --- Worker runs

  /** What the training reports was made in time. */
  predicate TrainingInTime(training: Training) {
    training.Ended? && training.outcome.Produced? ==> InTime(training.outcome.createdAt)
  }

  lemma ConcludeDated(cfg: Config, s: Jobs, id: Text, retention: Retention, o: Outcome, now: int)
    requires AllDated(s) && InCalendar(now) && ValidRetention(retention) && (o.Produced? ==> InTime(o.createdAt))
    ensures AllDated(Conclude(cfg, s, id, retention, o, now).jobs)
  {
    hide AllDated, UpdateStatus, Register, ValidProvenance, ValidRetention;
    var p := Finished(id, retention, o);
    if p.Failing? {
      if UpdateStatus(cfg, s, id, Failed, now).Ok? {
        StatusDated(cfg, s, id, Failed, now);
      }
    } else {
      PolicyEnds(retention, o.createdAt);
      var kept := Register(s, id, p.artifact, p.provenance, now);
      if kept.Ok? {
        RegisterDated(s, id, p.artifact, p.provenance, now);
        if UpdateStatus(cfg, kept.value, id, Succeeded, now).Ok? {
          StatusDated(cfg, kept.value, id, Succeeded, now);
        }
      }
    }
  }

  lemma RunJobDated(cfg: Config, s: Jobs, id: Text, training: Training, now: int)
    requires JobsOk(s) && OneResult(s) && AllDated(s) && InCalendar(now) && TrainingInTime(training)
    ensures AllDated(RunJob(cfg, s, id, training, now).jobs)
  {
    hide AllDated, UpdateStatus, Conclude, JobsOk, OneResult, ValidRetention;
    if ActiveJob(s, id) {
      StartedRun(cfg, s, id, now);
      StatusDated(cfg, s, id, Running, now);
      var t := UpdateStatus(cfg, s, id, Running, now).value;
      if training.Ended? {
        StoredPolicy(t, Find(t, id).value);
        ConcludeDated(cfg, t, id, RequestOf(t, id).value.retention, training.outcome, now);
      }
    }
  }

  lemma StoredPolicy(s: Jobs, i: nat)
    requires JobsOk(s) && i < |s| && s[i].request.Some?
    ensures ValidRetention(s[i].request.value.retention)
  {
    hide ValidRetention;
    assert s[i] in s && RecordOk(s[i]);
  }

  lemma {:induction false} UploadsDated(w: World, id: Text, artifacts: seq<Artifact>, content: Bytes, now: int)
    requires AllDated(w.jobs) && InCalendar(now)
    ensures AllDated(UploadEach(w, id, artifacts, content, now).world.jobs)
  {
    hide AllDated, SetStorageKey, StorageKey;
    if artifacts != [] {
      var before := UploadEach(w, id, artifacts[..|artifacts| - 1], content, now);
      UploadsDated(w, id, artifacts[..|artifacts| - 1], content, now);
      var a := artifacts[|artifacts| - 1];
      if SetStorageKey(before.world.jobs, id, a.id, StorageKey(id, a.id), now).Ok? {
        SetStorageKeyDated(before.world.jobs, id, a.id, StorageKey(id, a.id), now);
      }
    }
  }

  // --- Requests

  predicate EnvInTime(env: Env) {
    InTime(env.now) && TrainingInTime(env.training)
  }

  /** Every instant the request brings is in time. */
  predicate CallInTime(call: Call) {
    match call
    case CreateJob(_, env) => EnvInTime(env)
    case RetryJob(_, env) => EnvInTime(env)
    case CancelCall(_, now) => InTime(now)
    case ReadCall(_, _, stamp) => InTime(stamp)
    case DeleteCall(_, _, now) => InTime(now)
    case SweepCall(_, stamp) => InTime(stamp)
    case _ => true
  }

  lemma JobTrainingInTime(setup: Setup, s: Jobs, id: Text, env: Env)
    requires EnvInTime(env) && RequestOf(s, id).Some?
    ensures TrainingInTime(TrainingOf(setup, s, id, env))
  {
  }

  lemma RunIfConfiguredDated(setup: Setup, w: World, id: Text, env: Env)
    requires JobsOk(w.jobs) && OneResult(w.jobs) && AllDated(w.jobs) && EnvInTime(env)
    ensures AllDated(RunIfConfigured(setup, w, id, env).world.jobs)
  {
    hide AllDated, RunJob, JobTraining, JobsOk, OneResult, UploadEach, Find;
    if RequestOf(w.jobs, id).Some? {
      var training := TrainingOf(setup, w.jobs, id, env);
      JobTrainingInTime(setup, w.jobs, id, env);
      RunJobDated(setup.cfg, w.jobs, id, training, env.now);
      var done := RunJob(setup.cfg, w.jobs, id, training, env.now);
      if Holds(done.jobs, id) && env.tarball.Tarball? {
        UploadsDated(w.(jobs := done.jobs), id, done.jobs[Find(done.jobs, id).value].artifacts, env.tarball.content, env.now);
      }
    }
  }

  lemma CreateDated(setup: Setup, w: World, payload: seq<Member>, env: Env)
    requires Rest(setup, w) && AllDated(w.jobs) && EnvInTime(env)
    ensures AllDated(ServeCreate(setup, w, payload, env).world.jobs)
  {
    hide AllDated, StoreInv, Decided, StorageAgrees, RunIfConfigured, OneResult, FromMapping, ValidRequest,
      StableJobId, IsApproved, Count;
    var q := FromMapping(payload);
    if q.Ok? && IsApproved(w.datasets, q.value.datasetId) && Create(setup.cfg, w.jobs, q.value, env.now).Ok? {
      var t := Create(setup.cfg, w.jobs, q.value, env.now).value;
      var id := StableJobId(setup.cfg.sha, q.value);
      StoreKeptByCreate(setup.cfg, w.jobs, q.value, env.now);
      JobsOfStore(setup.cfg, t);
      if !Holds(w.jobs, id) {
        AppendedRest(w.jobs, NewRecord(id, q.value, None, env.now), w.objects);
        AppendDated(w.jobs, NewRecord(id, q.value, None, env.now));
      }
      RunIfConfiguredDated(setup, w.(jobs := t), id, env);
    }
  }

  lemma RetryDated(setup: Setup, w: World, id: Text, env: Env)
    requires Rest(setup, w) && AllDated(w.jobs) && EnvInTime(env)
    ensures AllDated(ServeRetry(setup, w, id, env).world.jobs)
  {
    hide AllDated, StoreInv, Decided, StorageAgrees, RunIfConfigured, OneResult, RetryId, RetryRefusal, IsJobId;
    if IsJobId(id) && RetryRefusal(setup.cfg, w.jobs, id).None? && RetryAttempt(setup.cfg.sha, w.jobs, id).Some? {
      var n := RetryAttempt(setup.cfg.sha, w.jobs, id).value;
      var t := Retried(setup.cfg, w.jobs, id, n, env.now);
      StoreKeptByRetry(setup.cfg, w.jobs, id, n, env.now);
      JobsOfStore(setup.cfg, t);
      AppendedRest(w.jobs, t[|w.jobs|], w.objects);
      AppendDated(w.jobs, t[|w.jobs|]);
      RunIfConfiguredDated(setup, w.(jobs := t), RetryId(setup.cfg.sha, id, n), env);
    }
  }

  lemma CancelDated(cfg: Config, s: Jobs, id: Text, now: int)
    requires AllDated(s) && InCalendar(now) && Cancel(cfg, s, id, now).Ok?
    ensures AllDated(Cancel(cfg, s, id, now).value)
  {
    hide AllDated, Move;
    var i := Find(s, id).value;
    MoveDated(cfg, s, i, CancelTarget(s[i].status), now);
  }

  lemma ReadDated(w: World, id: Text, now: int, stamp: int)
    requires AllDated(w.jobs) && InCalendar(stamp)
    ensures AllDated(ServeRead(w, id, now, stamp).world.jobs)
  {
    hide Dated, Expire, IsJobId;
    if EvaluateExpiry(w.jobs, id, now, stamp).Ok? {
      ExpireDated(w.jobs[Find(w.jobs, id).value], now, stamp);
    }
  }

  lemma DeleteDated(w: World, id: Text, artifactId: Text, now: int)
    requires AllDated(w.jobs) && InCalendar(now)
    ensures AllDated(ServeDelete(w, id, artifactId, now).world.jobs)
  {
    hide IsJobId, IsArtifactId, FindArtifact;
  }

  lemma SweepDated(w: World, now: int, stamp: int)
    requires AllDated(w.jobs) && InCalendar(stamp)
    ensures AllDated(ServeSweep(w, now, stamp).world.jobs)
  {
    hide Dated, Expire;
    forall i | 0 <= i < |w.jobs|
      ensures Dated(Expire(w.jobs[i], now, stamp))
    {
      ExpireDated(w.jobs[i], now, stamp);
    }
  }

  /** A request in time leaves every written instant in the calendar. */
  lemma ServeDated(setup: Setup, w: World, call: Call)
    requires Rest(setup, w) && AllDated(w.jobs) && CallInTime(call)
    ensures AllDated(Serve(setup, w, call).world.jobs)
  {
    hide Rest, AllDated, ServeCreate, ServeRetry, ServeRead, ServeDelete, ServeSweep, Cancel, RegisterShape, Submit,
      Approve, Reject, IsJobId;
    match call
    case CreateJob(payload, env) => CreateDated(setup, w, payload, env);
    case RetryJob(id, env) => RetryDated(setup, w, id, env);
    case CancelCall(id, now) =>
      if Cancel(setup.cfg, w.jobs, id, now).Ok? {
        CancelDated(setup.cfg, w.jobs, id, now);
      }
    case ReadCall(id, now, stamp) => ReadDated(w, id, now, stamp);
    case DeleteCall(id, artifactId, now) => DeleteDated(w, id, artifactId, now);
    case SweepCall(now, stamp) => SweepDated(w, now, stamp);
    case _ =>
  }

  /** So does every run of requests in time. */
  lemma {:induction false} RunKeepsDates(setup: Setup, w: World, calls: seq<Call>)
    requires Rest(setup, w) && AllDated(w.jobs) && forall i :: 0 <= i < |calls| ==> CallInTime(calls[i])
    ensures AllDated(ServeAll(setup, w, calls).jobs)
    decreases |calls|
  {
    hide Rest, Serve, Dated, CallInTime;
    if calls != [] {
      RunKeepsDates(setup, w, calls[..|calls| - 1]);
      RunKeepsRest(setup, w, calls[..|calls| - 1]);
      ServeDated(setup, ServeAll(setup, w, calls[..|calls| - 1]), calls[|calls| - 1]);
    }
  }
}
