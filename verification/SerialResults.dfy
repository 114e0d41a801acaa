/** The results about serial service that a client can observe: storage, quiescence, tombstones. */
module SerialResults {
  import opened Texts
  import opened Utf8
  import opened Json
  import opened Contracts
  import opened StateMachine
  import opened Jobs
  import opened JobFacts
  import opened JobInvariants
  import opened Datasets
  import opened Tokens
  import opened Protocol
  import opened ProtocolInvariants
  import opened Persistence
  import opened Restarts
  import opened Sorting
  import opened TrainingStores
  import opened Workers
  import opened Serial
  import opened SerialFacts
  import opened SerialTheorems

  /** The world after a run of requests from a fresh start. */
  ghost function Served(setup: Setup, now: int, calls: seq<Call>): World {
    ServeAll(setup, Fresh(now), calls)
  }

  // --- Storage

  /** A succeeded record holds the artifact that is stored under the key. */
  ghost predicate HeldBy(s: Jobs, i: nat, key: Text) {
    i < |s| && s[i].status == Succeeded && |s[i].artifacts| == 1 && s[i].artifacts[0].storageKey == Some(key)
  }

  /**
   After any run of requests the objects in storage are just those whose keys succeeded jobs hold, and each
   belongs to one job: nothing is lost and nothing is left behind.
   */
  lemma StorageIsExact(setup: Setup, now: int, calls: seq<Call>, key: Text)
    requires SchemaAllowed(setup.forbidden)
    ensures var w := Served(setup, now, calls);
            && (key in w.objects <==> exists i :: HeldBy(w.jobs, i, key))
            && forall i, k :: HeldBy(w.jobs, i, key) && HeldBy(w.jobs, k, key) ==> i == k
  {
    hide ServeAll, SchemaAllowed, RecordOk;
    RunOfRequestsRests(setup, now, calls);
    var w := Served(setup, now, calls);
    JobsOfStore(setup.cfg, w.jobs);
    HolderExists(w.jobs, key);
    forall i, k | HeldBy(w.jobs, i, key) && HeldBy(w.jobs, k, key)
      ensures i == k
    {
      if i != k {
        KeysDiffer(w.jobs, i, k);
      }
    }
  }

  lemma HolderExists(s: Jobs, key: Text)
    requires OneResult(s)
    ensures KeyHeld(s, key) <==> exists i :: HeldBy(s, i, key)
  {
    if KeyHeld(s, key) {
      var i :| 0 <= i < |s| && KeyOf(s[i]) == Some(key);
      assert HoldsOne(s[i]);
      assert HeldBy(s, i, key);
    }
    if i: nat :| HeldBy(s, i, key) {
      assert KeyOf(s[i]) == Some(key);
    }
  }

  // --- Quiescence

  predicate Quiet(s: Jobs) {
    forall i :: 0 <= i < |s| ==> !Active(s[i].status)
  }

  lemma {:induction false} QuietExactly(s: Jobs)
    ensures Quiet(s) <==> ActiveCount(s) == 0
  {
    if s != [] {
      QuietExactly(s[..|s| - 1]);
      assert s == s[..|s| - 1] + [s[|s| - 1]];
      assert Quiet(s) <==> Quiet(s[..|s| - 1]) && !Active(s[|s| - 1].status);
    }
  }

  /** The job a request adds to a quiet store, if it adds one: its id and what it asks for. */
  ghost function Added(setup: Setup, w: World, call: Call): Option<(Text, Request, Env)> {
    match call
    case CreateJob(payload, env) =>
      var q := FromMapping(payload);
      if q.Err? || !IsApproved(w.datasets, q.value.datasetId) || Holds(w.jobs, StableJobId(setup.cfg.sha, q.value))
         || setup.cfg.queueLimit <= 0 then None
      else Some((StableJobId(setup.cfg.sha, q.value), q.value, env))
    case RetryJob(id, env) =>
      if !IsJobId(id) || RetryRefusal(setup.cfg, w.jobs, id).Some? || RetryAttempt(setup.cfg.sha, w.jobs, id).None? then None
      else
        Some((RetryId(setup.cfg.sha, id, RetryAttempt(setup.cfg.sha, w.jobs, id).value),
              w.jobs[Find(w.jobs, id).value].request.value, env))
    case _ => None
  }

  /** A job is added and no worker brings it to an end: workers are off, there is no permit, or the worker crashes. */
  ghost predicate LeavesWork(setup: Setup, w: World, call: Call) {
    var added := Added(setup, w, call);
    && added.Some?
    && (!setup.autoRun || setup.cfg.maxRunning == 0
        || (added.value.1.modelId == GpuModel() && added.value.2.training.Crashed?))
  }

  /** A fake run always succeeds. */
  lemma FakeSucceeds(sha: Sha, fixture: Text, id: Text, request: Request, retention: Retention, now: int)
    requires ValidRequest(request) && IsJobId(id)
    ensures Succeeds(id, retention, FakeOutcome(sha, fixture, id, request, now))
  {
    hide ValidProvenance, FakeOutcome, ValidRequest, IsJobId;
    FakeProvenanceValid(sha, fixture, id, request, now);
  }

  /** In which status the run of a valid request ends. */
  lemma EndOfRun(setup: Setup, id: Text, request: Request, env: Env)
    requires ValidRequest(request) && IsJobId(id)
    ensures var training := JobTraining(setup.cfg.sha, setup.fixture, id, request, env.training, env.now);
            var status := StatusAfter(id, request.retention, training);
            && (status == Running <==> request.modelId == GpuModel() && env.training.Crashed?)
            && (status == Succeeded || status == Failed || status == Running)
            && (request.modelId != GpuModel() ==> status == Succeeded)
  {
    hide Succeeds, FakeOutcome;
    GpuShape(request);
    FakeSucceeds(setup.cfg.sha, setup.fixture, id, request, request.retention, env.now);
  }

  lemma GpuShape(request: Request)
    requires ValidRequest(request)
    ensures request.modelId == GpuModel() ==> request.params.dryRun == Some(false)
  {
  }

  /** Running the one active job of a store leaves it quiet unless the job cannot be brought to an end. */
  lemma RunQuiets(setup: Setup, w: World, id: Text, request: Request, env: Env)
    requires Rest(setup, w) && ActiveJob(w.jobs, id) && RequestOf(w.jobs, id) == Some(request) && ValidRequest(request) && IsJobId(id)
    requires forall k :: 0 <= k < |w.jobs| && k != Find(w.jobs, id).value ==> !Active(w.jobs[k].status)
    ensures var u := RunIfConfigured(setup, w, id, env).world;
            var i := Find(w.jobs, id).value;
            && |u.jobs| == |w.jobs|
            && (Quiet(u.jobs) <==> !(!setup.autoRun || setup.cfg.maxRunning == 0
                                     || (request.modelId == GpuModel() && env.training.Crashed?)))
            && (Quiet(u.jobs) ==> u.jobs[i].status == Succeeded || u.jobs[i].status == Failed)
            && (Quiet(u.jobs) && request.modelId != GpuModel() ==> u.jobs[i].status == Succeeded)
  {
    hide Rest, RunIfConfigured, JobTraining, StatusAfter, ValidRequest, IsJobId, Find;
    RunRests(setup, w, id, env);
    EndOfRun(setup, id, request, env);
    var u := RunIfConfigured(setup, w, id, env).world;
    var i := Find(w.jobs, id).value;
    assert Active(w.jobs[i].status);
    if Runs(setup, w.jobs, id) {
      OthersQuiet(w.jobs, u.jobs, i, env.now);
    }
    assert Quiet(u.jobs) <==> !Active(u.jobs[i].status);
  }

  lemma OthersQuiet(s: Jobs, t: Jobs, i: nat, now: int)
    requires OthersKept(s, t, i, now) && forall k :: 0 <= k < |s| && k != i ==> !Active(s[k].status)
    ensures forall k :: 0 <= k < |t| && k != i ==> !Active(t[k].status)
  {
  }

  lemma AddedRuns(setup: Setup, w: World, r: Record, env: Env)
    requires Rest(setup, w.(jobs := w.jobs + [r])) && Quiet(w.jobs) && r.status == Queued
    requires r.request.Some? && ValidRequest(r.request.value) && IsJobId(r.id)
    ensures var v := w.(jobs := w.jobs + [r]);
            var u := RunIfConfigured(setup, v, r.id, env).world;
            && |u.jobs| == |w.jobs| + 1
            && (Quiet(u.jobs) <==> !(!setup.autoRun || setup.cfg.maxRunning == 0
                                     || (r.request.value.modelId == GpuModel() && env.training.Crashed?)))
            && (Quiet(u.jobs) ==> u.jobs[|w.jobs|].status == Succeeded || u.jobs[|w.jobs|].status == Failed)
            && (Quiet(u.jobs) && r.request.value.modelId != GpuModel() ==> u.jobs[|w.jobs|].status == Succeeded)
  {
    hide Rest, RunIfConfigured, ValidRequest, IsJobId, Find;
    var v := w.(jobs := w.jobs + [r]);
    LastFound(w.jobs, r);
    RunQuiets(setup, v, r.id, r.request.value, env);
  }

  lemma LastFound(s: Jobs, r: Record)
    ensures Find(s + [r], r.id) == Some(|s|)
  {
  }

  /** One statement of what a request does to a quiet store. */
  ghost predicate Settles(setup: Setup, w: World, call: Call, u: World) {
    && (Quiet(u.jobs) <==> !LeavesWork(setup, w, call))
    && |u.jobs| == |w.jobs| + (if Added(setup, w, call).Some? then 1 else 0)
    && (Added(setup, w, call).Some? && Quiet(u.jobs) ==>
          && (u.jobs[|w.jobs|].status == Succeeded || u.jobs[|w.jobs|].status == Failed)
          && (Added(setup, w, call).value.1.modelId != GpuModel() ==> u.jobs[|w.jobs|].status == Succeeded))
  }

  lemma CreateSettles(setup: Setup, w: World, payload: seq<Member>, env: Env)
    requires Rest(setup, w) && Quiet(w.jobs)
    ensures Settles(setup, w, CreateJob(payload, env), ServeCreate(setup, w, payload, env).world)
  {
    hide Rest, RunIfConfigured, ValidRequest, StableJobId, IsApproved, FromMapping, Quiet, Count, RetryRefusal;
    QuietExactly(w.jobs);
    var q := FromMapping(payload);
    if q.Ok? && IsApproved(w.datasets, q.value.datasetId) {
      var id := StableJobId(setup.cfg.sha, q.value);
      if Holds(w.jobs, id) {
        QuietRunsNothing(setup, w, id, env);
      } else if setup.cfg.queueLimit > 0 {
        CreatedRests(setup, w, q.value, env.now);
        AddedRuns(setup, w, NewRecord(id, q.value, None, env.now), env);
      }
    }
  }

  lemma QuietRunsNothing(setup: Setup, w: World, id: Text, env: Env)
    requires Quiet(w.jobs)
    ensures RunIfConfigured(setup, w, id, env) == Reply(w, None)
  {
  }

  lemma CreatedRests(setup: Setup, w: World, q: Request, now: int)
    requires Rest(setup, w) && ValidRequest(q) && IsApproved(w.datasets, q.datasetId)
    requires !Holds(w.jobs, StableJobId(setup.cfg.sha, q)) && Create(setup.cfg, w.jobs, q, now).Ok?
    ensures Rest(setup, w.(jobs := w.jobs + [NewRecord(StableJobId(setup.cfg.sha, q), q, None, now)]))
  {
    hide StoreInv, Decided, StorageAgrees, OneResult, ValidRequest, StableJobId, IsApproved, Count;
    StoreKeptByCreate(setup.cfg, w.jobs, q, now);
    AppendedRest(w.jobs, NewRecord(StableJobId(setup.cfg.sha, q), q, None, now), w.objects);
  }

  lemma RetrySettles(setup: Setup, w: World, id: Text, env: Env)
    requires Rest(setup, w) && Quiet(w.jobs)
    ensures Settles(setup, w, RetryJob(id, env), ServeRetry(setup, w, id, env).world)
  {
    hide Rest, RunIfConfigured, ValidRequest, RetryId, RetryRefusal, Quiet, IsJobId, FromMapping;
    if IsJobId(id) && RetryRefusal(setup.cfg, w.jobs, id).None? && RetryAttempt(setup.cfg.sha, w.jobs, id).Some? {
      var n := RetryAttempt(setup.cfg.sha, w.jobs, id).value;
      RetriedRests(setup, w, id, n, env.now);
      AddedRuns(setup, w, NewRecord(RetryId(setup.cfg.sha, id, n), w.jobs[Find(w.jobs, id).value].request.value, Some(id), env.now), env);
    }
  }

  lemma RetriedRests(setup: Setup, w: World, id: Text, n: nat, now: int)
    requires Rest(setup, w) && RetryRefusal(setup.cfg, w.jobs, id).None? && FreeAttempt(setup.cfg.sha, w.jobs, id, n)
    ensures var r := NewRecord(RetryId(setup.cfg.sha, id, n), w.jobs[Find(w.jobs, id).value].request.value, Some(id), now);
            Rest(setup, w.(jobs := w.jobs + [r])) && ValidRequest(r.request.value)
  {
    hide StoreInv, Decided, StorageAgrees, OneResult, ValidRequest, RetryId, RetryRefusal;
    StoreKeptByRetry(setup.cfg, w.jobs, id, n, now);
    var i := Find(w.jobs, id).value;
    AppendedRest(w.jobs, NewRecord(RetryId(setup.cfg.sha, id, n), w.jobs[i].request.value, Some(id), now), w.objects);
    StoredValid(setup, w, i);
  }

  lemma StoredValid(setup: Setup, w: World, i: nat)
    requires Rest(setup, w) && i < |w.jobs| && w.jobs[i].request.Some?
    ensures ValidRequest(w.jobs[i].request.value)
  {
    assert w.jobs[i] in w.jobs && RecordOk(w.jobs[i]);
  }

  lemma StillQuiet(s: Jobs, t: Jobs)
    requires Quiet(s) && |t| == |s| && JobsEvolve(s, t)
    ensures Quiet(t)
  {
    forall i | 0 <= i < |t|
      ensures !Active(t[i].status)
    {
      assert Evolves(s[i], t[i]);
    }
  }

  /**
   Serial quiescence. A request to a quiet store leaves it quiet exactly when it does not add a job that no
   worker brings to an end; the job it adds, if any, has then succeeded or failed, and a job for the fixture
   model has succeeded.
   */
  lemma RequestsSettle(setup: Setup, w: World, call: Call)
    requires Rest(setup, w) && Quiet(w.jobs)
    ensures Settles(setup, w, call, Serve(setup, w, call).world)
  {
    hide Rest, Quiet, Serve, JobsEvolve, ServeCreate, ServeRetry, FromMapping, RetryRefusal, IsJobId;
    match call
    case CreateJob(payload, env) =>
      CreateSettles(setup, w, payload, env);
      assert Serve(setup, w, call) == ServeCreate(setup, w, payload, env) by { ServedSeparately(setup, w, call); }
    case RetryJob(id, env) =>
      RetrySettles(setup, w, id, env);
      assert Serve(setup, w, call) == ServeRetry(setup, w, id, env) by { ServedSeparately(setup, w, call); }
    case _ =>
      ServeRests(setup, w, call);
      SameNumber(setup, w, call);
      StillQuiet(w.jobs, Serve(setup, w, call).world.jobs);
  }

  /** The world after the first `k` requests of a run. */
  ghost function ServedUpTo(setup: Setup, now: int, calls: seq<Call>, k: nat): World
    requires k <= |calls|
  {
    Served(setup, now, calls[..k])
  }

  lemma ServedNext(setup: Setup, now: int, calls: seq<Call>, k: nat)
    requires k < |calls|
    ensures ServedUpTo(setup, now, calls, k + 1) == Serve(setup, ServedUpTo(setup, now, calls, k), calls[k]).world
  {
    hide Serve, Fresh;
    assert calls[..k + 1][..k] == calls[..k];
  }

  /** One request later: quiet if and only if no work is left. */
  lemma QuietNext(setup: Setup, now: int, calls: seq<Call>, k: nat)
    requires SchemaAllowed(setup.forbidden) && k < |calls|
    requires ActiveCount(ServedUpTo(setup, now, calls, k).jobs) == 0
    ensures ActiveCount(ServedUpTo(setup, now, calls, k + 1).jobs) == 0 <==>
            !LeavesWork(setup, ServedUpTo(setup, now, calls, k), calls[k])
  {
    hide Rest, Serve, SchemaAllowed, Count, LeavesWork, Added, Served;
    var w := ServedUpTo(setup, now, calls, k);
    RunOfRequestsRests(setup, now, calls[..k]);
    ServedNext(setup, now, calls, k);
    IsServed(setup, now, calls, k);
    QuietExactly(w.jobs);
    RequestsSettle(setup, w, calls[k]);
    QuietExactly(ServedUpTo(setup, now, calls, k + 1).jobs);
  }

  lemma IsServed(setup: Setup, now: int, calls: seq<Call>, k: nat)
    requires k <= |calls|
    ensures ServedUpTo(setup, now, calls, k) == ServeAll(setup, Fresh(now), calls[..k])
  {
    hide ServeAll, Fresh;
  }

  lemma {:induction false} QuietUpTo(setup: Setup, now: int, calls: seq<Call>, k: nat)
    requires SchemaAllowed(setup.forbidden) && k <= |calls|
    requires forall j: nat :: j < |calls| ==> !LeavesWork(setup, ServedUpTo(setup, now, calls, j), calls[j])
    ensures ActiveCount(ServedUpTo(setup, now, calls, k).jobs) == 0
  {
    hide SchemaAllowed, LeavesWork;
    if k > 0 {
      hide ServedUpTo;
      QuietUpTo(setup, now, calls, k - 1);
      QuietNext(setup, now, calls, k - 1);
    } else {
      assert calls[..0] == [];
    }
  }

  /** Serial quiescence of runs: no request of a run ends with an active job exactly when none leaves work behind. */
  lemma RunsAreQuietExactly(setup: Setup, now: int, calls: seq<Call>)
    requires SchemaAllowed(setup.forbidden)
    ensures (forall k: nat :: k <= |calls| ==> ActiveCount(ServedUpTo(setup, now, calls, k).jobs) == 0) <==>
            (forall k: nat :: k < |calls| ==> !LeavesWork(setup, ServedUpTo(setup, now, calls, k), calls[k]))
  {
    hide SchemaAllowed, LeavesWork, ServedUpTo, ActiveCount;
    if forall k: nat :: k < |calls| ==> !LeavesWork(setup, ServedUpTo(setup, now, calls, k), calls[k]) {
      forall k: nat | k <= |calls|
        ensures ActiveCount(ServedUpTo(setup, now, calls, k).jobs) == 0
      {
        QuietUpTo(setup, now, calls, k);
      }
    }
    if forall k: nat :: k <= |calls| ==> ActiveCount(ServedUpTo(setup, now, calls, k).jobs) == 0 {
      forall k: nat | k < |calls|
        ensures !LeavesWork(setup, ServedUpTo(setup, now, calls, k), calls[k])
      {
        assert ActiveCount(ServedUpTo(setup, now, calls, k + 1).jobs) == 0;
        QuietNext(setup, now, calls, k);
      }
    }
  }

  /** The request adds no job for the isolated worker, or its training process does not crash. */
  ghost predicate Crashless(setup: Setup, w: World, call: Call) {
    var added := Added(setup, w, call);
    added.Some? && added.value.1.modelId == GpuModel() ==> added.value.2.training.Ended?
  }

  /**
   With workers on, a permit, and training processes that do not crash where they are used, every run of requests
   ends with no active job.
   */
  lemma RunsAreQuiet(setup: Setup, now: int, calls: seq<Call>)
    requires SchemaAllowed(setup.forbidden) && setup.autoRun && setup.cfg.maxRunning > 0
    requires forall k: nat :: k < |calls| ==> Crashless(setup, ServedUpTo(setup, now, calls, k), calls[k])
    ensures ActiveCount(Served(setup, now, calls).jobs) == 0
  {
    hide SchemaAllowed, Added, Served, ActiveCount;
    forall k: nat | k < |calls|
      ensures !LeavesWork(setup, ServedUpTo(setup, now, calls, k), calls[k])
    {
      assert Crashless(setup, ServedUpTo(setup, now, calls, k), calls[k]);
    }
    QuietUpTo(setup, now, calls, |calls|);
    assert calls[..|calls|] == calls;
  }

  // --- Tombstones

  /** Every tombstone stays just as it is. */
  predicate TombstonesStand(s: Jobs, t: Jobs) {
    |s| <= |t| && forall i :: 0 <= i < |s| && s[i].status == Deleted ==> t[i] == s[i]
  }

  lemma OthersKeptTombstones(s: Jobs, t: Jobs, i: nat, now: int)
    requires OthersKept(s, t, i, now) && i < |s| && s[i].status != Deleted
    ensures TombstonesStand(s, t)
  {
  }

  lemma RunTombstones(setup: Setup, w: World, id: Text, env: Env)
    requires Rest(setup, w) && Holds(w.jobs, id)
    ensures TombstonesStand(w.jobs, RunIfConfigured(setup, w, id, env).world.jobs)
  {
    hide Rest, RunIfConfigured, Find, StatusAfter, JobTraining, OthersKept;
    RunRests(setup, w, id, env);
    if Runs(setup, w.jobs, id) {
      OthersKeptTombstones(w.jobs, RunIfConfigured(setup, w, id, env).world.jobs, Find(w.jobs, id).value, env.now);
    }
  }

  lemma AppendedTombstones(s: Jobs, r: Record, t: Jobs)
    requires TombstonesStand(s + [r], t)
    ensures TombstonesStand(s, t)
  {
    forall i | 0 <= i < |s| && s[i].status == Deleted
      ensures t[i] == s[i]
    {
      assert (s + [r])[i] == s[i];
    }
  }

  lemma CreateTombstones(setup: Setup, w: World, payload: seq<Member>, env: Env)
    requires Rest(setup, w)
    ensures TombstonesStand(w.jobs, ServeCreate(setup, w, payload, env).world.jobs)
  {
    hide Rest, RunIfConfigured, ValidRequest, StableJobId, IsApproved, FromMapping, TombstonesStand, Count;
    Standstill(w.jobs);
    var q := FromMapping(payload);
    if q.Ok? && IsApproved(w.datasets, q.value.datasetId) && Create(setup.cfg, w.jobs, q.value, env.now).Ok? {
      var id := StableJobId(setup.cfg.sha, q.value);
      if Holds(w.jobs, id) {
        RunTombstones(setup, w, id, env);
      } else {
        var r := NewRecord(id, q.value, None, env.now);
        CreatedRests(setup, w, q.value, env.now);
        LastFound(w.jobs, r);
        RunTombstones(setup, w.(jobs := w.jobs + [r]), id, env);
        AppendedTombstones(w.jobs, r, ServeCreate(setup, w, payload, env).world.jobs);
      }
    }
  }

  lemma Standstill(s: Jobs)
    ensures TombstonesStand(s, s)
  {
  }

  lemma RetryTombstones(setup: Setup, w: World, id: Text, env: Env)
    requires Rest(setup, w)
    ensures TombstonesStand(w.jobs, ServeRetry(setup, w, id, env).world.jobs)
  {
    hide Rest, RunIfConfigured, ValidRequest, RetryId, RetryRefusal, IsJobId, TombstonesStand;
    Standstill(w.jobs);
    if IsJobId(id) && RetryRefusal(setup.cfg, w.jobs, id).None? && RetryAttempt(setup.cfg.sha, w.jobs, id).Some? {
      var n := RetryAttempt(setup.cfg.sha, w.jobs, id).value;
      var r := NewRecord(RetryId(setup.cfg.sha, id, n), w.jobs[Find(w.jobs, id).value].request.value, Some(id), env.now);
      RetriedRests(setup, w, id, n, env.now);
      LastFound(w.jobs, r);
      RunTombstones(setup, w.(jobs := w.jobs + [r]), r.id, env);
      AppendedTombstones(w.jobs, r, ServeRetry(setup, w, id, env).world.jobs);
    }
  }

  lemma CancelTombstones(cfg: Config, s: Jobs, id: Text, now: int)
    requires Cancel(cfg, s, id, now).Ok?
    ensures TombstonesStand(s, Cancel(cfg, s, id, now).value)
  {
    hide Move;
    var i := Find(s, id).value;
    if Active(s[i].status) {
      MovedAt(cfg, s, i, Cancelled, now);
      OthersKeptTombstones(s, Cancel(cfg, s, id, now).value, i, now);
    } else {
      MoveNowhere(cfg, s, i, now);
    }
  }

  /** No request changes a tombstone; deleting it again in particular does nothing. */
  lemma TombstonesAreFinal(setup: Setup, w: World, call: Call)
    requires Rest(setup, w)
    ensures TombstonesStand(w.jobs, Serve(setup, w, call).world.jobs)
  {
    hide Rest, ServeCreate, ServeRetry, TombstonesStand, Cancel, IsJobId, ServeRead, ServeDelete, Sweep,
      RegisterShape, Submit, Approve, Reject;
    Standstill(w.jobs);
    match call
    case CreateJob(payload, env) => CreateTombstones(setup, w, payload, env);
    case RetryJob(id, env) => RetryTombstones(setup, w, id, env);
    case CancelCall(id, now) =>
      if Cancel(setup.cfg, w.jobs, id, now).Ok? {
        CancelTombstones(setup.cfg, w.jobs, id, now);
      }
    case ReadCall(id, now, stamp) => DeletionTombstones(w, call);
    case DeleteCall(id, artifactId, now) => DeletionTombstones(w, call);
    case SweepCall(now, stamp) => DeletionTombstones(w, call);
    case _ =>
  }

  lemma DeletionTombstones(w: World, call: Call)
    ensures call.ReadCall? ==> TombstonesStand(w.jobs, ServeRead(w, call.id, call.now, call.stamp).world.jobs)
    ensures call.DeleteCall? ==> TombstonesStand(w.jobs, ServeDelete(w, call.id, call.artifactId, call.now).world.jobs)
    ensures call.SweepCall? ==> TombstonesStand(w.jobs, ServeSweep(w, call.now, call.stamp).world.jobs)
  {
    hide FindArtifact, FirstExpired, IsJobId, IsArtifactId;
  }

  /**
   A job turns into a tombstone only from success and only by deletion or expiry. Its request and artifacts are
   gone; its provenance is gone after deletion and still the same after expiry.
   */
  lemma DeletionLeavesTombstone(setup: Setup, w: World, call: Call, i: nat)
    requires Rest(setup, w) && i < |w.jobs| && w.jobs[i].status != Deleted
    requires i < |Serve(setup, w, call).world.jobs| && Serve(setup, w, call).world.jobs[i].status == Deleted
    ensures var r, t := w.jobs[i], Serve(setup, w, call).world.jobs[i];
            && r.status == Succeeded
            && t.request.None? && t.artifacts == [] && t.deletedAt.Some?
            && ((call.DeleteCall? && t.provenance.None?)
                || ((call.ReadCall? || call.SweepCall?) && t.provenance == r.provenance && r.provenance.Some?))
  {
    hide Rest, ServeCreate, ServeRetry, IsJobId, IsArtifactId, FindArtifact, FirstExpired, RegisterShape, Submit,
      Approve, Reject, Move;
    match call
    case CreateJob(payload, env) => CreateBuriesNone(setup, w, call, i);
    case RetryJob(id, env) => CreateBuriesNone(setup, w, call, i);
    case CancelCall(id, now) => CancelBuriesNone(setup.cfg, w.jobs, id, now, i);
    case ReadCall(id, now, stamp) => ProvenanceThere(setup, w, i);
    case DeleteCall(id, artifactId, now) =>
    case SweepCall(now, stamp) => ProvenanceThere(setup, w, i);
    case _ =>
  }

  lemma ProvenanceThere(setup: Setup, w: World, i: nat)
    requires Rest(setup, w) && i < |w.jobs|
    ensures w.jobs[i].status == Succeeded ==> w.jobs[i].provenance.Some?
  {
    assert w.jobs[i] in w.jobs && RecordOk(w.jobs[i]);
  }

  lemma CancelBuriesNone(cfg: Config, s: Jobs, id: Text, now: int, i: nat)
    requires i < |s| && s[i].status != Deleted
    ensures Cancel(cfg, s, id, now).Ok? ==> Cancel(cfg, s, id, now).value[i].status != Deleted
  {
    hide Move;
    if Holds(s, id) {
      var k := Find(s, id).value;
      if Active(s[k].status) {
        MovedAt(cfg, s, k, Cancelled, now);
      } else {
        MoveNowhere(cfg, s, k, now);
      }
    }
  }

  lemma RunBuriesNone(setup: Setup, w: World, id: Text, env: Env, i: nat)
    requires Rest(setup, w) && Holds(w.jobs, id) && i < |w.jobs| && w.jobs[i].status != Deleted
    ensures var u := RunIfConfigured(setup, w, id, env).world; |u.jobs| == |w.jobs| && u.jobs[i].status != Deleted
  {
    hide Rest, RunIfConfigured, Find, JobTraining;
    RunRests(setup, w, id, env);
  }

  lemma CreateBuriesNone(setup: Setup, w: World, call: Call, i: nat)
    requires Rest(setup, w) && i < |w.jobs| && w.jobs[i].status != Deleted && (call.CreateJob? || call.RetryJob?)
    ensures |w.jobs| <= |Serve(setup, w, call).world.jobs| && Serve(setup, w, call).world.jobs[i].status != Deleted
  {
    hide Rest, RunIfConfigured, ValidRequest, StableJobId, IsApproved, FromMapping, Count, RetryId, RetryRefusal,
      IsJobId;
    match call
    case CreateJob(payload, env) =>
      var q := FromMapping(payload);
      if q.Ok? && IsApproved(w.datasets, q.value.datasetId) && Create(setup.cfg, w.jobs, q.value, env.now).Ok? {
        var id := StableJobId(setup.cfg.sha, q.value);
        if Holds(w.jobs, id) {
          RunBuriesNone(setup, w, id, env, i);
        } else {
          var r := NewRecord(id, q.value, None, env.now);
          CreatedRests(setup, w, q.value, env.now);
          LastFound(w.jobs, r);
          RunBuriesNone(setup, w.(jobs := w.jobs + [r]), id, env, i);
        }
      }
    case RetryJob(id, env) =>
      if IsJobId(id) && RetryRefusal(setup.cfg, w.jobs, id).None? && RetryAttempt(setup.cfg.sha, w.jobs, id).Some? {
        var n := RetryAttempt(setup.cfg.sha, w.jobs, id).value;
        var r := NewRecord(RetryId(setup.cfg.sha, id, n), w.jobs[Find(w.jobs, id).value].request.value, Some(id), env.now);
        RetriedRests(setup, w, id, n, env.now);
        LastFound(w.jobs, r);
        RunBuriesNone(setup, w.(jobs := w.jobs + [r]), r.id, env, i);
      }
  }

  /** After any run of requests: a record is a tombstone just when its request is gone, and then it holds no artifact. */
  lemma TombstonesAreBare(setup: Setup, now: int, calls: seq<Call>, i: nat)
    requires SchemaAllowed(setup.forbidden)
    requires i < |Served(setup, now, calls).jobs|
    ensures var r := Served(setup, now, calls).jobs[i];
            && (r.status == Deleted <==> r.request.None?)
            && (r.status != Succeeded ==> r.artifacts == [])
            && (r.status == Succeeded ==> |r.artifacts| == 1)
  {
    hide ServeAll, SchemaAllowed;
    RunOfRequestsRests(setup, now, calls);
    RestRecord(setup, Served(setup, now, calls), i);
  }

  lemma RestRecord(setup: Setup, w: World, i: nat)
    requires Rest(setup, w) && i < |w.jobs|
    ensures HoldsOne(w.jobs[i]) && RecordOk(w.jobs[i])
  {
    hide RecordOk;
    assert w.jobs[i] in w.jobs;
  }

  // --- Storage does not survive a restart

  /** A restarted store holds no object key, so storage agrees with it exactly when there are no objects. */
  lemma RestartOrphansObjects(setup: Setup, w: World)
    requires Rest(setup, w)
    ensures OneResult(AfterRestart(w.jobs))
    ensures StorageAgrees(AfterRestart(w.jobs), w.objects) <==> w.objects == map[]
  {
    hide StoreInv, Decided, SortById;
    JobsOfStore(setup.cfg, w.jobs);
    SortByIdSorts(w.jobs);
    var u, t := SortById(w.jobs), AfterRestart(w.jobs);
    forall i | 0 <= i < |t|
      ensures HoldsOne(t[i]) && KeyOf(t[i]).None?
    {
      assert u[i] in w.jobs;
      var k :| 0 <= k < |w.jobs| && w.jobs[k] == u[i];
      assert HoldsOne(w.jobs[k]);
    }
    assert forall key :: !KeyHeld(t, key);
    if StorageAgrees(t, w.objects) {
      assert w.objects.Keys == {};
    }
  }
}
