/** The two descriptions of the service agree: whatever requests do one after another, some interleaving does. */
module SerialInterleavings {
  import opened Texts
  import opened Utf8
  import opened Json
  import opened Contracts
  import opened StateMachine
  import opened Jobs
  import opened JobFacts
  import opened JobInvariants
  import opened Datasets
  import opened Sorting
  import opened Tokens
  import opened Protocol
  import opened ProtocolInvariants
  import opened ProtocolTheorems
  import opened TrainingStores
  import opened Workers
  import opened Serial
  import opened SerialFacts
  import opened SerialTheorems

  // --- Reaching one system from another

  ghost predicate Leads(cfg: Config, forbidden: LabelTest, s: System, t: System) {
    exists events :: Run(cfg, forbidden, s, events) == t
  }

  lemma LeadsNowhere(cfg: Config, forbidden: LabelTest, s: System)
    ensures Leads(cfg, forbidden, s, s)
  {
    assert Run(cfg, forbidden, s, []) == s;
  }

  lemma LeadsByOne(cfg: Config, forbidden: LabelTest, s: System, e: Event)
    ensures Leads(cfg, forbidden, s, Next(cfg, forbidden, s, e))
  {
    hide Next;
    assert [e][..0] == [];
    assert Run(cfg, forbidden, s, [e]) == Next(cfg, forbidden, Run(cfg, forbidden, s, []), e);
  }

  lemma LeadsOn(cfg: Config, forbidden: LabelTest, s: System, t: System, u: System)
    requires Leads(cfg, forbidden, s, t) && Leads(cfg, forbidden, t, u)
    ensures Leads(cfg, forbidden, s, u)
  {
    hide Run;
    var a :| Run(cfg, forbidden, s, a) == t;
    var b :| Run(cfg, forbidden, t, b) == u;
    RunSplits(cfg, forbidden, s, a, b);
  }

  /** One step more. */
  lemma LeadsStep(cfg: Config, forbidden: LabelTest, s: System, t: System, e: Event)
    requires Leads(cfg, forbidden, s, t)
    ensures Leads(cfg, forbidden, s, Next(cfg, forbidden, t, e))
  {
    hide Leads, Next;
    LeadsByOne(cfg, forbidden, t, e);
    LeadsOn(cfg, forbidden, s, t, Next(cfg, forbidden, t, e));
  }

  // --- One request in flight

  /** No request in flight. */
  function Idle(cfg: Config, s: Jobs, ds: Registry): System {
    System(s, ds, cfg.maxRunning, map[], {})
  }

  /** Only request 0, in the phase. */
  function Alone(cfg: Config, s: Jobs, ds: Registry, p: Phase): System {
    if HoldsPermit(p) then System(s, ds, cfg.maxRunning - 1, map[0 := p], {0})
    else System(s, ds, cfg.maxRunning, map[0 := p], {})
  }

  lemma Leaves(cfg: Config, forbidden: LabelTest, s: Jobs, ds: Registry, p: Phase)
    ensures Next(cfg, forbidden, Alone(cfg, s, ds, p), Leave(0)) == Idle(cfg, s, ds)
  {
    var t := Next(cfg, forbidden, Alone(cfg, s, ds, p), Leave(0));
    assert t.calls == map[] && t.holders == {};
  }

  lemma PutAlone(cfg: Config, s: Jobs, ds: Registry, t: Jobs, p: Phase, q: Phase)
    requires HoldsPermit(p) == HoldsPermit(q)
    ensures Put(Alone(cfg, s, ds, p).(jobs := t), 0, q) == Alone(cfg, t, ds, q)
    ensures Put(Alone(cfg, s, ds, p), 0, q) == Alone(cfg, s, ds, q)
  {
    assert map[0 := p][0 := q] == map[0 := q];
  }

  lemma EndAlone(cfg: Config, s: Jobs, ds: Registry, p: Phase)
    ensures End(Alone(cfg, s, ds, p), 0) == Idle(cfg, s, ds)
  {
    assert map[0 := p] - {0} == map[] && {0} - {0} == {};
  }

  /** A store call of the request: it goes on when the call succeeds, and is over otherwise. */
  lemma AfterAlone(cfg: Config, s: Jobs, ds: Registry, r: Result<Jobs>, p: Phase, q: Phase)
    requires HoldsPermit(p) == HoldsPermit(q)
    ensures After(Alone(cfg, s, ds, p), 0, r, q) == if r.Ok? then Alone(cfg, r.value, ds, q) else Idle(cfg, s, ds)
  {
    hide HoldsPermit;
    if r.Ok? {
      PutAlone(cfg, s, ds, r.value, p, q);
    } else {
      EndAlone(cfg, s, ds, p);
    }
  }

  // --- A worker run

  /** From taking up the job to the start of training. */
  lemma LeadsToTraining(cfg: Config, forbidden: LabelTest, s: Jobs, ds: Registry, id: Text, now: int)
    requires ActiveJob(s, id) && RequestOf(s, id).Some? && cfg.maxRunning > 0
    requires UpdateStatus(cfg, s, id, Running, now).Ok?
    ensures Leads(cfg, forbidden, Alone(cfg, s, ds, Entered(id)),
                  Alone(cfg, UpdateStatus(cfg, s, id, Running, now).value, ds, Training(id)))
  {
    hide Leads, UpdateStatus, Find, Alone, Put, After;
    var start := Alone(cfg, s, ds, Entered(id));
    LeadsNowhere(cfg, forbidden, start);
    LeadsStep(cfg, forbidden, start, start, ReadStatus(0));
    Looks(cfg, forbidden, s, ds, id);
    LeadsStep(cfg, forbidden, start, Alone(cfg, s, ds, Phase.Waiting(id)), Acquire(0));
    LeadsStep(cfg, forbidden, start, Alone(cfg, s, ds, Admitted(id)), Dispatch(0));
    LeadsStep(cfg, forbidden, start, Alone(cfg, s, ds, Dispatched(id)), ReadTerminal(0));
    LeadsStep(cfg, forbidden, start, Alone(cfg, s, ds, Starting(id)), MarkRunning(0, now));
    Starts(cfg, forbidden, s, ds, id, now);
  }

  /** The steps that only look at the store, or take a permit. */
  lemma Looks(cfg: Config, forbidden: LabelTest, s: Jobs, ds: Registry, id: Text)
    requires ActiveJob(s, id) && RequestOf(s, id).Some? && cfg.maxRunning > 0
    ensures Next(cfg, forbidden, Alone(cfg, s, ds, Entered(id)), ReadStatus(0)) == Alone(cfg, s, ds, Phase.Waiting(id))
    ensures Next(cfg, forbidden, Alone(cfg, s, ds, Phase.Waiting(id)), Acquire(0)) == Alone(cfg, s, ds, Admitted(id))
    ensures Next(cfg, forbidden, Alone(cfg, s, ds, Admitted(id)), Dispatch(0)) == Alone(cfg, s, ds, Dispatched(id))
    ensures Next(cfg, forbidden, Alone(cfg, s, ds, Dispatched(id)), ReadTerminal(0)) == Alone(cfg, s, ds, Starting(id))
  {
    hide Next, ActiveJob, RequestOf, Alone;
    LooksFirst(cfg, forbidden, s, ds, id);
    LooksAgain(cfg, forbidden, s, ds, id);
  }

  lemma LooksFirst(cfg: Config, forbidden: LabelTest, s: Jobs, ds: Registry, id: Text)
    requires ActiveJob(s, id) && cfg.maxRunning > 0
    ensures Next(cfg, forbidden, Alone(cfg, s, ds, Entered(id)), ReadStatus(0)) == Alone(cfg, s, ds, Phase.Waiting(id))
    ensures Next(cfg, forbidden, Alone(cfg, s, ds, Phase.Waiting(id)), Acquire(0)) == Alone(cfg, s, ds, Admitted(id))
  {
    hide Find, ActiveJob, RequestOf, UpdateStatus, Register, Create, SetStorageKey, Finished, After;
    PutAlone(cfg, s, ds, s, Entered(id), Phase.Waiting(id));
    assert map[0 := Phase.Waiting(id)][0 := Admitted(id)] == map[0 := Admitted(id)];
  }

  lemma LooksAgain(cfg: Config, forbidden: LabelTest, s: Jobs, ds: Registry, id: Text)
    requires ActiveJob(s, id) && RequestOf(s, id).Some?
    ensures Next(cfg, forbidden, Alone(cfg, s, ds, Admitted(id)), Dispatch(0)) == Alone(cfg, s, ds, Dispatched(id))
    ensures Next(cfg, forbidden, Alone(cfg, s, ds, Dispatched(id)), ReadTerminal(0)) == Alone(cfg, s, ds, Starting(id))
  {
    hide Find, ActiveJob, RequestOf, UpdateStatus, Register, Create, SetStorageKey, Finished, After;
    PutAlone(cfg, s, ds, s, Admitted(id), Dispatched(id));
    PutAlone(cfg, s, ds, s, Dispatched(id), Starting(id));
  }

  lemma Starts(cfg: Config, forbidden: LabelTest, s: Jobs, ds: Registry, id: Text, now: int)
    requires UpdateStatus(cfg, s, id, Running, now).Ok?
    ensures Next(cfg, forbidden, Alone(cfg, s, ds, Starting(id)), MarkRunning(0, now)) ==
            Alone(cfg, UpdateStatus(cfg, s, id, Running, now).value, ds, Training(id))
  {
    hide UpdateStatus, After;
    AfterAlone(cfg, s, ds, UpdateStatus(cfg, s, id, Running, now), Starting(id), Training(id));
  }

  /** From the end of training to the end of the worker. */
  lemma LeadsToEnd(cfg: Config, forbidden: LabelTest, s: Jobs, ds: Registry, id: Text, q: Request, o: Outcome, now: int)
    requires RequestOf(s, id) == Some(q) && Conclude(cfg, s, id, q.retention, o, now).error.None?
    ensures Leads(cfg, forbidden, Alone(cfg, s, ds, Training(id)),
                  Alone(cfg, Conclude(cfg, s, id, q.retention, o, now).jobs, ds, Completed(id)))
  {
    hide Leads, UpdateStatus, Register, Alone, Finished;
    var start := Alone(cfg, s, ds, Training(id));
    var p := Finished(id, q.retention, o);
    FinishedForm(id, q.retention, o);
    LeadsByOne(cfg, forbidden, start, Train(0, o));
    Trains(cfg, forbidden, s, ds, id, q, o);
    if p.Failing? {
      LeadsStep(cfg, forbidden, start, Alone(cfg, s, ds, p), MarkFailed(0, now));
      Fails(cfg, forbidden, s, ds, id, now);
    } else {
      LeadsStep(cfg, forbidden, start, Alone(cfg, s, ds, p), KeepArtifact(0, now));
      var t := Register(s, id, p.artifact, p.provenance, now).value;
      KeepsResult(cfg, forbidden, s, ds, p, now);
      LeadsStep(cfg, forbidden, start, Alone(cfg, t, ds, ArtifactKept(id)), MarkSucceeded(0, now));
      MarksSucceeded(cfg, forbidden, t, ds, id, now);
    }
  }

  lemma FinishedForm(id: Text, retention: Retention, o: Outcome)
    ensures Finished(id, retention, o).Failing? || Finished(id, retention, o).Trained?
    ensures Finished(id, retention, o).job == id
  {
    hide ValidProvenance;
  }

  lemma Trains(cfg: Config, forbidden: LabelTest, s: Jobs, ds: Registry, id: Text, q: Request, o: Outcome)
    requires RequestOf(s, id) == Some(q)
    ensures Next(cfg, forbidden, Alone(cfg, s, ds, Training(id)), Train(0, o)) ==
            Alone(cfg, s, ds, Finished(id, q.retention, o))
  {
    hide RequestOf, Finished;
    FinishedForm(id, q.retention, o);
    PutAlone(cfg, s, ds, s, Training(id), Finished(id, q.retention, o));
  }

  lemma Fails(cfg: Config, forbidden: LabelTest, s: Jobs, ds: Registry, id: Text, now: int)
    ensures var r := UpdateStatus(cfg, s, id, Failed, now);
            r.Ok? ==> Next(cfg, forbidden, Alone(cfg, s, ds, Failing(id)), MarkFailed(0, now)) ==
                      Alone(cfg, r.value, ds, Completed(id))
  {
    hide UpdateStatus, After;
    AfterAlone(cfg, s, ds, UpdateStatus(cfg, s, id, Failed, now), Failing(id), Completed(id));
  }

  lemma KeepsResult(cfg: Config, forbidden: LabelTest, s: Jobs, ds: Registry, p: Phase, now: int)
    requires p.Trained?
    ensures var r := Register(s, p.job, p.artifact, p.provenance, now);
            r.Ok? ==> Next(cfg, forbidden, Alone(cfg, s, ds, p), KeepArtifact(0, now)) ==
                      Alone(cfg, r.value, ds, ArtifactKept(p.job))
  {
    hide Register, After;
    AfterAlone(cfg, s, ds, Register(s, p.job, p.artifact, p.provenance, now), p, ArtifactKept(p.job));
  }

  lemma MarksSucceeded(cfg: Config, forbidden: LabelTest, s: Jobs, ds: Registry, id: Text, now: int)
    ensures var r := UpdateStatus(cfg, s, id, Succeeded, now);
            r.Ok? ==> Next(cfg, forbidden, Alone(cfg, s, ds, ArtifactKept(id)), MarkSucceeded(0, now)) ==
                      Alone(cfg, r.value, ds, Completed(id))
  {
    hide UpdateStatus, After;
    AfterAlone(cfg, s, ds, UpdateStatus(cfg, s, id, Succeeded, now), ArtifactKept(id), Completed(id));
  }

  lemma Uploads(cfg: Config, forbidden: LabelTest, s: Jobs, ds: Registry, id: Text, artifactId: Text, now: int)
    requires SetStorageKey(s, id, artifactId, StorageKey(id, artifactId), now).Ok?
    ensures Next(cfg, forbidden, Alone(cfg, s, ds, Completed(id)), Upload(0, artifactId, now)) ==
            Alone(cfg, SetStorageKey(s, id, artifactId, StorageKey(id, artifactId), now).value, ds, Completed(id))
  {
    hide SetStorageKey, StorageKey, After;
    AfterAlone(cfg, s, ds, SetStorageKey(s, id, artifactId, StorageKey(id, artifactId), now), Completed(id), Completed(id));
  }

  /** The upload of the one artifact, if there is an upload. */
  lemma LeadsThroughUpload(setup: Setup, w: World, id: Text, tarball: Tarball, now: int)
    requires JobsOk(w.jobs) && OneResult(w.jobs) && Holds(w.jobs, id) && StatusOf(w.jobs, id) == Succeeded
    requires KeyOf(w.jobs[Find(w.jobs, id).value]).None?
    ensures Leads(setup.cfg, setup.forbidden, Alone(setup.cfg, w.jobs, w.datasets, Completed(id)),
                  Alone(setup.cfg, Uploaded(setup, w, id, tarball, now).world.jobs, w.datasets, Completed(id)))
  {
    hide Leads, JobsOk, OneResult, SetStorageKey, StorageKey, Alone, Find, Next, UploadEach;
    var start := Alone(setup.cfg, w.jobs, w.datasets, Completed(id));
    LeadsNowhere(setup.cfg, setup.forbidden, start);
    KeySet(w.jobs, id, now);
    if setup.stored && tarball.Tarball? {
      var a := w.jobs[Find(w.jobs, id).value].artifacts[0];
      assert w.jobs[Find(w.jobs, id).value].artifacts == [a];
      UploadsOne(w, id, a, tarball.content, now);
      LeadsByOne(setup.cfg, setup.forbidden, start, Upload(0, a.id, now));
      Uploads(setup.cfg, setup.forbidden, w.jobs, w.datasets, id, a.id, now);
    }
  }

  /** Running a job on request, as steps of the protocol. */
  lemma RunLeads(setup: Setup, v: World, id: Text, env: Env)
    requires Calm(setup, v) && Holds(v.jobs, id)
    ensures Leads(setup.cfg, setup.forbidden, Alone(setup.cfg, v.jobs, v.datasets, Entered(id)),
                  Idle(setup.cfg, RunIfConfigured(setup, v, id, env).world.jobs, v.datasets))
  {
    hide Leads, Calm, RunNow, Alone, Next, ActiveJob, Idle;
    if Runs(setup, v.jobs, id) {
      RunningLeads(setup, v, id, env);
    } else {
      LeadsByOne(setup.cfg, setup.forbidden, Alone(setup.cfg, v.jobs, v.datasets, Entered(id)), Leave(0));
      Leaves(setup.cfg, setup.forbidden, v.jobs, v.datasets, Entered(id));
    }
  }

  /** The job after the worker: where training ended, or still running. */
  lemma WorkerLeads(setup: Setup, v: World, id: Text, env: Env)
    requires JobsOk(v.jobs) && OneResult(v.jobs) && Runs(setup, v.jobs, id)
    ensures RequestOf(v.jobs, id).Some?
    ensures var training := TrainingOf(setup, v.jobs, id, env);
            var done := RunJob(setup.cfg, v.jobs, id, training, env.now);
            Leads(setup.cfg, setup.forbidden, Alone(setup.cfg, v.jobs, v.datasets, Entered(id)),
                  Alone(setup.cfg, done.jobs, v.datasets, if training.Crashed? then Training(id) else Completed(id)))
  {
    hide Leads, JobsOk, OneResult, UpdateStatus, Conclude, Alone, Next, JobTraining, Find, Evolves, SameResults,
      OthersKept;
    ActiveRequested(v.jobs, id);
    StartedRun(setup.cfg, v.jobs, id, env.now);
    var t := UpdateStatus(setup.cfg, v.jobs, id, Running, env.now).value;
    var q := RequestOf(v.jobs, id).value;
    var training := TrainingOf(setup, v.jobs, id, env);
    var start := Alone(setup.cfg, v.jobs, v.datasets, Entered(id));
    LeadsToTraining(setup.cfg, setup.forbidden, v.jobs, v.datasets, id, env.now);
    if training.Ended? {
      SameResultsOne(v.jobs, t);
      Concluded(setup.cfg, t, id, training.outcome, env.now);
      LeadsToEnd(setup.cfg, setup.forbidden, t, v.datasets, id, q, training.outcome, env.now);
      var done := Conclude(setup.cfg, t, id, q.retention, training.outcome, env.now).jobs;
      LeadsOn(setup.cfg, setup.forbidden, start, Alone(setup.cfg, t, v.datasets, Training(id)),
              Alone(setup.cfg, done, v.datasets, Completed(id)));
    }
  }

  lemma RunningLeads(setup: Setup, v: World, id: Text, env: Env)
    requires Calm(setup, v) && Runs(setup, v.jobs, id)
    ensures Leads(setup.cfg, setup.forbidden, Alone(setup.cfg, v.jobs, v.datasets, Entered(id)),
                  Idle(setup.cfg, RunIfConfigured(setup, v, id, env).world.jobs, v.datasets))
  {
    hide Leads, StoreInv, Decided, StorageAgrees, JobsOk, OneResult, RunJob, Uploaded, Alone, Idle, Next, JobTraining,
      Find, KeysKept, Evolves, OthersKept, StatusAfter;
    JobsOfStore(setup.cfg, v.jobs);
    WorkerLeads(setup, v, id, env);
    var training := TrainingOf(setup, v.jobs, id, env);
    JobRun(setup.cfg, v.jobs, id, training, env.now);
    var done := RunJob(setup.cfg, v.jobs, id, training, env.now).jobs;
    var start := Alone(setup.cfg, v.jobs, v.datasets, Entered(id));
    var u := RunIfConfigured(setup, v, id, env).world.jobs;
    if training.Crashed? {
      LeadsStep(setup.cfg, setup.forbidden, start, Alone(setup.cfg, done, v.datasets, Training(id)), Leave(0));
      Leaves(setup.cfg, setup.forbidden, done, v.datasets, Training(id));
    } else {
      var completed := Alone(setup.cfg, done, v.datasets, Completed(id));
      LeadsNowhere(setup.cfg, setup.forbidden, completed);
      if StatusOf(done, id) == Succeeded {
        ActiveKeyless(v.jobs, done, id);
        LeadsThroughUpload(setup, v.(jobs := done), id, env.tarball, env.now);
      }
      LeadsOn(setup.cfg, setup.forbidden, start, completed, Alone(setup.cfg, u, v.datasets, Completed(id)));
      LeadsStep(setup.cfg, setup.forbidden, start, Alone(setup.cfg, u, v.datasets, Completed(id)), Leave(0));
      Leaves(setup.cfg, setup.forbidden, u, v.datasets, Completed(id));
    }
  }

  // --- Requests

  function IdleAt(setup: Setup, w: World): System {
    Idle(setup.cfg, w.jobs, w.datasets)
  }

  lemma Begins(cfg: Config, forbidden: LabelTest, s: Jobs, ds: Registry, q: Request)
    requires ValidRequest(q)
    ensures Next(cfg, forbidden, Idle(cfg, s, ds), BeginCreate(0, q)) == Alone(cfg, s, ds, Requested(q))
    ensures Next(cfg, forbidden, Alone(cfg, s, ds, Requested(q)), CheckGate(0)) ==
            if IsApproved(ds, q.datasetId) then Alone(cfg, s, ds, Gated(q)) else Idle(cfg, s, ds)
  {
    hide ValidRequest, IsApproved, UpdateStatus, Register, Create, SetStorageKey, Finished, After, StableJobId;
    var none: map<nat, Phase> := map[];
    assert none[0 := Requested(q)] == map[0 := Requested(q)];
    PutAlone(cfg, s, ds, s, Requested(q), Gated(q));
    EndAlone(cfg, s, ds, Requested(q));
  }

  lemma Creates(cfg: Config, forbidden: LabelTest, s: Jobs, ds: Registry, q: Request, now: int)
    requires ValidRequest(q)
    ensures Next(cfg, forbidden, Alone(cfg, s, ds, Gated(q)), StoreCreate(0, now)) ==
            if Create(cfg, s, q, now).Ok? then Alone(cfg, Create(cfg, s, q, now).value, ds, Entered(StableJobId(cfg.sha, q)))
            else Idle(cfg, s, ds)
  {
    hide ValidRequest, Create, After, StableJobId;
    AfterAlone(cfg, s, ds, Create(cfg, s, q, now), Gated(q), Entered(StableJobId(cfg.sha, q)));
  }

  lemma CreateLeads(setup: Setup, w: World, payload: seq<Member>, env: Env)
    requires Calm(setup, w)
    ensures Leads(setup.cfg, setup.forbidden, IdleAt(setup, w), IdleAt(setup, ServeCreate(setup, w, payload, env).world))
  {
    hide Leads, Calm, Alone, Idle, Next, FromMapping, StableJobId, RunIfConfigured, Create, IsApproved, ValidRequest;
    var cfg, forbidden, start := setup.cfg, setup.forbidden, IdleAt(setup, w);
    LeadsNowhere(cfg, forbidden, start);
    var q := FromMapping(payload);
    if q.Ok? {
      LeadsByOne(cfg, forbidden, start, BeginCreate(0, q.value));
      Begins(cfg, forbidden, w.jobs, w.datasets, q.value);
      LeadsStep(cfg, forbidden, start, Alone(cfg, w.jobs, w.datasets, Requested(q.value)), CheckGate(0));
      if IsApproved(w.datasets, q.value.datasetId) {
        Creates(cfg, forbidden, w.jobs, w.datasets, q.value, env.now);
        LeadsStep(cfg, forbidden, start, Alone(cfg, w.jobs, w.datasets, Gated(q.value)), StoreCreate(0, env.now));
        if Create(cfg, w.jobs, q.value, env.now).Ok? {
          CreatedLeads(setup, w, q.value, env, start);
        }
      }
    }
  }

  lemma CreatedLeads(setup: Setup, w: World, q: Request, env: Env, start: System)
    requires Calm(setup, w) && ValidRequest(q) && Create(setup.cfg, w.jobs, q, env.now).Ok?
    requires var t := Create(setup.cfg, w.jobs, q, env.now).value;
             Leads(setup.cfg, setup.forbidden, start, Alone(setup.cfg, t, w.datasets, Entered(StableJobId(setup.cfg.sha, q))))
    ensures Leads(setup.cfg, setup.forbidden, start, IdleAt(setup, ServeAccepted(setup, w, q, env).world))
  {
    hide Leads, StoreInv, Decided, StorageAgrees, OneResult, Alone, Idle, StableJobId, RunIfConfigured, ValidRequest,
      Count;
    var t := Create(setup.cfg, w.jobs, q, env.now).value;
    var id := StableJobId(setup.cfg.sha, q);
    var v := w.(jobs := t);
    StoreKeptByCreate(setup.cfg, w.jobs, q, env.now);
    if !Holds(w.jobs, id) {
      AppendedOne(w.jobs, NewRecord(id, q, None, env.now));
    }
    RunLeads(setup, v, id, env);
    SameDatasets(setup, v, id, env);
    LeadsOn(setup.cfg, setup.forbidden, start, Alone(setup.cfg, t, w.datasets, Entered(id)),
            Idle(setup.cfg, RunIfConfigured(setup, v, id, env).world.jobs, w.datasets));
  }

  lemma Retries(cfg: Config, forbidden: LabelTest, s: Jobs, ds: Registry, id: Text, now: int)
    ensures Next(cfg, forbidden, Idle(cfg, s, ds), BeginRetry(0, id)) == Alone(cfg, s, ds, Retrying(id))
    ensures RetryRefusal(cfg, s, id).None? && RetryAttempt(cfg.sha, s, id).Some? ==>
              var n := RetryAttempt(cfg.sha, s, id).value;
              Next(cfg, forbidden, Alone(cfg, s, ds, Retrying(id)), StoreRetry(0, now)) ==
              Alone(cfg, Retried(cfg, s, id, n, now), ds, Entered(RetryId(cfg.sha, id, n)))
  {
    hide RetryRefusal, RetryAttempt, Retried, RetryId, UpdateStatus, Register, Create, SetStorageKey, Finished;
    var none: map<nat, Phase> := map[];
    assert none[0 := Retrying(id)] == map[0 := Retrying(id)];
    if RetryRefusal(cfg, s, id).None? && RetryAttempt(cfg.sha, s, id).Some? {
      var n := RetryAttempt(cfg.sha, s, id).value;
      PutAlone(cfg, s, ds, Retried(cfg, s, id, n, now), Retrying(id), Entered(RetryId(cfg.sha, id, n)));
    }
  }

  lemma RetryLeads(setup: Setup, w: World, id: Text, env: Env)
    requires Calm(setup, w)
    ensures Leads(setup.cfg, setup.forbidden, IdleAt(setup, w), IdleAt(setup, ServeRetry(setup, w, id, env).world))
  {
    hide Leads, StoreInv, Decided, StorageAgrees, OneResult, Alone, Idle, Next, RetryId, RetryRefusal,
      RunIfConfigured, IsJobId;
    var cfg, forbidden, start := setup.cfg, setup.forbidden, IdleAt(setup, w);
    LeadsNowhere(cfg, forbidden, start);
    if IsJobId(id) && RetryRefusal(cfg, w.jobs, id).None? && RetryAttempt(cfg.sha, w.jobs, id).Some? {
      var n := RetryAttempt(cfg.sha, w.jobs, id).value;
      var t := Retried(cfg, w.jobs, id, n, env.now);
      LeadsByOne(cfg, forbidden, start, BeginRetry(0, id));
      Retries(cfg, forbidden, w.jobs, w.datasets, id, env.now);
      LeadsStep(cfg, forbidden, start, Alone(cfg, w.jobs, w.datasets, Retrying(id)), StoreRetry(0, env.now));
      StoreKeptByRetry(cfg, w.jobs, id, n, env.now);
      AppendedOne(w.jobs, t[|w.jobs|]);
      var v := w.(jobs := t);
      RunLeads(setup, v, RetryId(cfg.sha, id, n), env);
      SameDatasets(setup, v, RetryId(cfg.sha, id, n), env);
      LeadsOn(cfg, forbidden, start, Alone(cfg, t, w.datasets, Entered(RetryId(cfg.sha, id, n))),
              Idle(cfg, RunIfConfigured(setup, v, RetryId(cfg.sha, id, n), env).world.jobs, w.datasets));
    }
  }

  /** The event that stands for a request that is one store call. */
  function EventOf(call: Call): Event
    requires !call.CreateJob? && !call.RetryJob?
  {
    match call
    case CancelCall(id, now) => CancelJob(id, now)
    case ReadCall(id, now, stamp) => ReadJob(id, now, stamp)
    case DeleteCall(id, artifactId, now) => DeleteJobArtifact(id, artifactId, now)
    case SweepCall(now, stamp) => SweepJobs(now, stamp)
    case RegisterCall(id, shape, now) => RegisterDataset(id, shape, now)
    case SubmitCall(id, now) => SubmitDataset(id, now)
    case ApproveCall(id, now) => ApproveDataset(id, now)
    case RejectCall(id, reason, now) => RejectDataset(id, reason, now)
  }

  lemma OneEvent(setup: Setup, w: World, call: Call)
    requires Calm(setup, w) && !call.CreateJob? && !call.RetryJob?
    ensures Next(setup.cfg, setup.forbidden, IdleAt(setup, w), EventOf(call)) == IdleAt(setup, Serve(setup, w, call).world)
  {
    hide StoreInv, Decided, StorageAgrees, OneResult, Move, Tombstone, Expire, FindArtifact, Sweep, RegisterShape,
      Submit, Approve, Reject, Remaining, Without, ExpiredKey, ExpiredKeys, Find, IsArtifactId, CallStep, ServeCreate,
      ServeRetry, UniqueIds, JobsOk;
    JobsOfStore(setup.cfg, w.jobs);
    if call.CancelCall? && Holds(w.jobs, call.id) {
      StoredJobId(w.jobs, call.id);
    }
  }

  lemma StoredJobId(s: Jobs, id: Text)
    requires JobsOk(s) && Holds(s, id)
    ensures IsJobId(id)
  {
    hide RecordOk;
    assert s[Find(s, id).value] in s;
    JobIdOk(s[Find(s, id).value]);
  }

  /** Every request to a service at rest does what some interleaving of its steps does. */
  lemma ServeLeads(setup: Setup, w: World, call: Call)
    requires Calm(setup, w)
    ensures Leads(setup.cfg, setup.forbidden, IdleAt(setup, w), IdleAt(setup, Serve(setup, w, call).world))
  {
    hide Leads, Calm, IdleAt, Next, Serve, ServeCreate, ServeRetry;
    ServedSeparately(setup, w, call);
    match call
    case CreateJob(payload, env) => CreateLeads(setup, w, payload, env);
    case RetryJob(id, env) => RetryLeads(setup, w, id, env);
    case _ =>
      OneEvent(setup, w, call);
      LeadsByOne(setup.cfg, setup.forbidden, IdleAt(setup, w), EventOf(call));
  }

  /** So the runs of requests served one at a time are among the interleavings, and all said of those holds of them. */
  lemma RunsAreInterleavings(setup: Setup, now: int, calls: seq<Call>)
    requires SchemaAllowed(setup.forbidden)
    ensures exists events ::
              Reached(setup.cfg, setup.forbidden, now, events) == IdleAt(setup, ServeAll(setup, Fresh(now), calls))
  {
    hide Calm, Serve, SchemaAllowed, Run;
    RunLeadsAll(setup, now, calls);
    var events :| Run(setup.cfg, setup.forbidden, IdleAt(setup, Fresh(now)), events) ==
                  IdleAt(setup, ServeAll(setup, Fresh(now), calls));
    assert IdleAt(setup, Fresh(now)) == Initial(setup.cfg, now);
    assert Reached(setup.cfg, setup.forbidden, now, events) == IdleAt(setup, ServeAll(setup, Fresh(now), calls));
  }

  lemma {:induction false} RunLeadsAll(setup: Setup, now: int, calls: seq<Call>)
    requires SchemaAllowed(setup.forbidden)
    ensures Leads(setup.cfg, setup.forbidden, IdleAt(setup, Fresh(now)), IdleAt(setup, ServeAll(setup, Fresh(now), calls)))
    decreases |calls|
  {
    hide Rest, Calm, Serve, SchemaAllowed, Leads, IdleAt, Fresh;
    if calls == [] {
      LeadsNowhere(setup.cfg, setup.forbidden, IdleAt(setup, Fresh(now)));
    } else {
      var before := ServeAll(setup, Fresh(now), calls[..|calls| - 1]);
      RunLeadsAll(setup, now, calls[..|calls| - 1]);
      RunOfRequestsRests(setup, now, calls[..|calls| - 1]);
      RestIsCalm(setup, before);
      ServeLeads(setup, before, calls[|calls| - 1]);
      LeadsOn(setup.cfg, setup.forbidden, IdleAt(setup, Fresh(now)), IdleAt(setup, before),
              IdleAt(setup, ServeAll(setup, Fresh(now), calls)));
    }
  }
}
