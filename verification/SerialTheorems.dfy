/** Storage agreement, quiescence and tombstones, over all runs of requests served one at a time. */
module SerialTheorems {
  import opened Texts
  import opened Utf8
  import opened Json
  import opened Contracts
  import opened StateMachine
  import opened Jobs
  import opened JobFacts
  import opened JobInvariants
  import opened Datasets
  import opened Sorting
  import opened Tokens
  import opened Protocol
  import opened ProtocolInvariants
  import opened ProtocolFreshStart
  import opened TrainingStores
  import opened Workers
  import opened Serial
  import opened SerialFacts

  // --- A whole worker run

  lemma OthersKeptTransitive(s: Jobs, t: Jobs, u: Jobs, i: nat, now: int)
    requires OthersKept(s, t, i, now) && OthersKept(t, u, i, now)
    ensures OthersKept(s, u, i, now)
  {
    forall k | 0 <= k < |s| && k != i
      ensures u[k] == s[k] || (s[k].status == Queued && u[k] == Started(s[k], now))
    {
      assert t[k] == s[k] || (s[k].status == Queued && t[k] == Started(s[k], now));
      assert u[k] == t[k] || (t[k].status == Queued && u[k] == Started(t[k], now));
    }
  }

  /** The status in which a run leaves an active job. */
  function StatusAfter(id: Text, retention: Retention, training: Training): Status {
    if training.Crashed? then Running
    else if Succeeds(id, retention, training.outcome) then Succeeded
    else Failed
  }

  /** A run ends the job unless it crashes; then it has succeeded with one artifact, or failed with none. */
  lemma JobRun(cfg: Config, s: Jobs, id: Text, training: Training, now: int)
    requires JobsOk(s) && OneResult(s) && ActiveJob(s, id)
    ensures var i := Find(s, id).value;
            var done := RunJob(cfg, s, id, training, now);
            && s[i].request.Some?
            && JobsOk(done.jobs) && JobsEvolve(s, done.jobs) && |done.jobs| == |s|
            && OneResult(done.jobs) && KeysKept(s, done.jobs) && OthersKept(s, done.jobs, i, now)
            && Find(done.jobs, id) == Some(i)
            && done.jobs[i].status == StatusAfter(id, s[i].request.value.retention, training)
            && (done.error.Some? <==> training.Crashed?)
  {
    hide JobsOk, UpdateStatus, Conclude, Succeeds, OthersKept, KeysKept, SameResults, Evolves, Find, OneResult;
    var i := Find(s, id).value;
    StartedRun(cfg, s, id, now);
    var t := UpdateStatus(cfg, s, id, Running, now).value;
    SameResultsOne(s, t);
    assert RequestOf(t, id) == s[i].request;
    if training.Ended? {
      Concluded(cfg, t, id, training.outcome, now);
      var u := Conclude(cfg, t, id, s[i].request.value.retention, training.outcome, now).jobs;
      JobsEvolveTransitive(s, t, u);
      KeysKeptTransitive(s, t, u);
      OthersKeptTransitive(s, t, u, i, now);
      FoundAgain(t, u, id);
    }
  }

  lemma KeysKeptTransitive(s: Jobs, t: Jobs, u: Jobs)
    requires KeysKept(s, t) && KeysKept(t, u)
    ensures KeysKept(s, u)
  {
    hide KeyOf;
  }

  lemma FoundAgain(s: Jobs, t: Jobs, id: Text)
    requires JobsOk(s) && JobsOk(t) && JobsEvolve(s, t) && Holds(s, id)
    ensures Find(t, id) == Find(s, id)
  {
    hide RecordOk;
    FoundLater(s, t, id);
  }

  // --- Uploads

  lemma KeyGiven(s: Jobs, i: nat, r: Record, key: Text, content: Bytes, objects: map<Text, Bytes>)
    requires StorageAgrees(s, objects) && i < |s| && KeyOf(s[i]).None? && KeyOf(r) == Some(key)
    ensures StorageAgrees(s[i := r], objects[key := content])
  {
    hide KeyOf;
    var t := s[i := r];
    assert KeyOf(t[i]) == Some(key);
    forall x
      ensures KeyHeld(t, x) <==> KeyHeld(s, x) || x == key
    {
      if KeyHeld(s, x) {
        var k :| 0 <= k < |s| && KeyOf(s[k]) == Some(x);
        assert KeyOf(t[k]) == Some(x);
      }
      if KeyHeld(t, x) {
        var k :| 0 <= k < |t| && KeyOf(t[k]) == Some(x);
        assert k != i ==> KeyOf(s[k]) == Some(x);
      }
    }
  }

  lemma KeySet(s: Jobs, id: Text, now: int)
    requires JobsOk(s) && OneResult(s) && Holds(s, id) && StatusOf(s, id) == Succeeded
    ensures var i := Find(s, id).value;
            |s[i].artifacts| == 1
            && var a := s[i].artifacts[0];
               var r := SetStorageKey(s, id, a.id, StorageKey(id, a.id), now);
               && r.Ok? && JobsOk(r.value) && JobsEvolve(s, r.value)
               && r.value == s[i := s[i].(artifacts := [a.(storageKey := Some(StorageKey(id, a.id)))], updatedAt := now)]
  {
    hide RecordOk, StorageKey, Evolves;
    var i := Find(s, id).value;
    assert s[i] in s && HoldsOne(s[i]);
    var a := s[i].artifacts[0];
    IdsOk(s[i]);
    assert a in s[i].artifacts && a.id == a.id;
    SetStorageKeyOk(s, id, a.id, now);
    assert WithKey([a], a.id, StorageKey(id, a.id)) == [a.(storageKey := Some(StorageKey(id, a.id)))];
    assert s[i].artifacts == [a];
  }

  lemma IdsOk(r: Record)
    requires RecordOk(r) && |r.artifacts| == 1
    ensures IsJobId(r.id) && IsArtifactId(r.artifacts[0].id)
  {
    assert r.artifacts[0] in r.artifacts;
  }

  lemma UploadsOne(w: World, id: Text, a: Artifact, content: Bytes, now: int)
    ensures UploadEach(w, id, [a], content, now) == UploadOne(w, id, a, content, now)
  {
    assert [a][..0] == [];
  }

  /** An upload puts the object of the job's artifact under the key the artifact gets. */
  lemma UploadAgrees(setup: Setup, w: World, id: Text, tarball: Tarball, now: int)
    requires JobsOk(w.jobs) && OneResult(w.jobs) && StorageAgrees(w.jobs, w.objects)
    requires Holds(w.jobs, id) && StatusOf(w.jobs, id) == Succeeded && KeyOf(w.jobs[Find(w.jobs, id).value]).None?
    ensures var u := Uploaded(setup, w, id, tarball, now).world;
            && u.datasets == w.datasets && JobsOk(u.jobs) && JobsEvolve(w.jobs, u.jobs) && |u.jobs| == |w.jobs|
            && OneResult(u.jobs) && StorageAgrees(u.jobs, u.objects)
            && u.jobs[Find(w.jobs, id).value].status == Succeeded
            && forall k :: 0 <= k < |w.jobs| && k != Find(w.jobs, id).value ==> u.jobs[k] == w.jobs[k]
  {
    hide RecordOk, StorageKey, StorageAgrees, UploadEach;
    var s := w.jobs;
    var i := Find(s, id).value;
    KeySet(s, id, now);
    Unmoved(s);
    if setup.stored && tarball.Tarball? {
      var a := s[i].artifacts[0];
      assert s[i].artifacts == [a];
      UploadsOne(w, id, a, tarball.content, now);
      var r := s[i].(artifacts := [a.(storageKey := Some(StorageKey(id, a.id)))], updatedAt := now);
      KeyGiven(s, i, r, StorageKey(id, a.id), tarball.content, w.objects);
      OneReplaced(s, i, r);
    }
  }

  lemma OneReplaced(s: Jobs, i: nat, r: Record)
    requires OneResult(s) && i < |s| && HoldsOne(r)
    ensures OneResult(s[i := r])
  {
    hide HoldsOne;
  }

  // --- Running a job on request

  predicate Runs(setup: Setup, s: Jobs, id: Text) {
    setup.autoRun && ActiveJob(s, id) && setup.cfg.maxRunning > 0
  }

  function TrainingOf(setup: Setup, s: Jobs, id: Text, env: Env): Training
    requires RequestOf(s, id).Some?
  {
    JobTraining(setup.cfg.sha, setup.fixture, id, RequestOf(s, id).value, env.training, env.now)
  }

  /** Running a job keeps what holds between requests, and leaves every other job as it was or promoted. */
  lemma RunRests(setup: Setup, w: World, id: Text, env: Env)
    requires Rest(setup, w) && Holds(w.jobs, id)
    ensures var u := RunIfConfigured(setup, w, id, env).world;
            && Rest(setup, u) && JobsEvolve(w.jobs, u.jobs) && |u.jobs| == |w.jobs|
            && (!Runs(setup, w.jobs, id) ==> u == w)
            && (Runs(setup, w.jobs, id) ==>
                  && RequestOf(w.jobs, id).Some?
                  && var i := Find(w.jobs, id).value;
                     var retention := RequestOf(w.jobs, id).value.retention;
                     && u.jobs[i].status == StatusAfter(id, retention, TrainingOf(setup, w.jobs, id, env))
                     && OthersKept(w.jobs, u.jobs, i, env.now))
  {
    hide StoreInv, Decided, StorageAgrees, RunJob, Uploaded, JobTraining, StatusAfter, Evolves, KeysKept, Find,
      OneResult, OthersKept;
    JobsOfStore(setup.cfg, w.jobs);
    Unmoved(w.jobs);
    if Runs(setup, w.jobs, id) {
      var request := RequestOf(w.jobs, id);
      ActiveRequested(w.jobs, id);
      var training := TrainingOf(setup, w.jobs, id, env);
      JobRun(setup.cfg, w.jobs, id, training, env.now);
      var done := RunJob(setup.cfg, w.jobs, id, training, env.now);
      var after := w.(jobs := done.jobs);
      SameKeys(w.jobs, done.jobs, w.objects);
      StoreKept(setup.cfg, w.jobs, done.jobs);
      if done.error.None? && StatusOf(done.jobs, id) == Succeeded {
        ActiveKeyless(w.jobs, done.jobs, id);
        UploadAgrees(setup, after, id, env.tarball, env.now);
        var u := Uploaded(setup, after, id, env.tarball, env.now).world;
        StoreKept(setup.cfg, done.jobs, u.jobs);
        JobsEvolveTransitive(w.jobs, done.jobs, u.jobs);
        OthersUntouched(w.jobs, done.jobs, u.jobs, Find(w.jobs, id).value, env.now);
      }
    }
  }

  lemma OthersUntouched(s: Jobs, t: Jobs, u: Jobs, i: nat, now: int)
    requires OthersKept(s, t, i, now) && |u| == |t| && forall k :: 0 <= k < |t| && k != i ==> u[k] == t[k]
    ensures OthersKept(s, u, i, now)
  {
  }

  lemma JobsOfStore(cfg: Config, s: Jobs)
    requires StoreInv(cfg, s)
    ensures JobsOk(s)
  {
  }

  lemma ActiveRequested(s: Jobs, id: Text)
    requires JobsOk(s) && ActiveJob(s, id)
    ensures RequestOf(s, id).Some? && ValidRequest(RequestOf(s, id).value)
  {
    hide RecordOk, ValidRequest;
    assert s[Find(s, id).value] in s;
    ActiveHasRequest(s[Find(s, id).value]);
  }

  lemma ActiveKeyless(s: Jobs, t: Jobs, id: Text)
    requires OneResult(s) && ActiveJob(s, id) && KeysKept(s, t) && Find(t, id) == Find(s, id)
    ensures KeyOf(t[Find(t, id).value]).None?
  {
    assert HoldsOne(s[Find(s, id).value]);
  }

  // --- Each request

  lemma CreateRests(setup: Setup, w: World, payload: seq<Member>, env: Env)
    requires Rest(setup, w)
    ensures Rest(setup, ServeCreate(setup, w, payload, env).world)
    ensures JobsEvolve(w.jobs, ServeCreate(setup, w, payload, env).world.jobs)
  {
    hide StoreInv, Decided, StorageAgrees, RunIfConfigured, Evolves, OneResult, FromMapping, ValidRequest,
      StableJobId, IsApproved, Count;
    Unmoved(w.jobs);
    var q := FromMapping(payload);
    if q.Ok? && IsApproved(w.datasets, q.value.datasetId) && Create(setup.cfg, w.jobs, q.value, env.now).Ok? {
      var t := Create(setup.cfg, w.jobs, q.value, env.now).value;
      var id := StableJobId(setup.cfg.sha, q.value);
      StoreKeptByCreate(setup.cfg, w.jobs, q.value, env.now);
      if !Holds(w.jobs, id) {
        AppendedRest(w.jobs, NewRecord(id, q.value, None, env.now), w.objects);
      }
      RunRests(setup, w.(jobs := t), id, env);
      JobsEvolveTransitive(w.jobs, t, ServeCreate(setup, w, payload, env).world.jobs);
    }
  }

  lemma RetryRests(setup: Setup, w: World, id: Text, env: Env)
    requires Rest(setup, w)
    ensures Rest(setup, ServeRetry(setup, w, id, env).world)
    ensures JobsEvolve(w.jobs, ServeRetry(setup, w, id, env).world.jobs)
  {
    hide StoreInv, Decided, StorageAgrees, RunIfConfigured, Evolves, OneResult, RetryId, RetryRefusal, IsJobId;
    Unmoved(w.jobs);
    if IsJobId(id) && RetryRefusal(setup.cfg, w.jobs, id).None? && RetryAttempt(setup.cfg.sha, w.jobs, id).Some? {
      var n := RetryAttempt(setup.cfg.sha, w.jobs, id).value;
      var t := Retried(setup.cfg, w.jobs, id, n, env.now);
      StoreKeptByRetry(setup.cfg, w.jobs, id, n, env.now);
      AppendedRest(w.jobs, NewRecord(RetryId(setup.cfg.sha, id, n), w.jobs[Find(w.jobs, id).value].request.value, Some(id), env.now), w.objects);
      RunRests(setup, w.(jobs := t), RetryId(setup.cfg.sha, id, n), env);
      JobsEvolveTransitive(w.jobs, t, ServeRetry(setup, w, id, env).world.jobs);
    }
  }

  lemma CancelRests(setup: Setup, w: World, id: Text, now: int)
    requires Rest(setup, w)
    ensures Rest(setup, WithStore(w, Cancel(setup.cfg, w.jobs, id, now)).world)
    ensures JobsEvolve(w.jobs, WithStore(w, Cancel(setup.cfg, w.jobs, id, now)).world.jobs)
  {
    hide StoreInv, Decided, StorageAgrees, OneResult, Move, Evolves;
    Unmoved(w.jobs);
    JobsOfStore(setup.cfg, w.jobs);
    if Holds(w.jobs, id) {
      var i := Find(w.jobs, id).value;
      var t := Cancel(setup.cfg, w.jobs, id, now).value;
      CancelOk(setup.cfg, w.jobs, id, now);
      CancelSize(setup.cfg, w.jobs, id, now);
      StoreKept(setup.cfg, w.jobs, t);
      if Active(w.jobs[i].status) {
        MoveSameResults(setup.cfg, w.jobs, i, Cancelled, now);
        SameResultsRest(w.jobs, t, w.objects);
      } else {
        MoveNowhere(setup.cfg, w.jobs, i, now);
      }
    }
  }

  lemma MoveNowhere(cfg: Config, s: Jobs, i: nat, now: int)
    requires i < |s|
    ensures Move(cfg, s, i, s[i].status, now) == s
  {
  }

  // --- Deletion

  lemma KeyIsOwn(s: Jobs, i: nat)
    requires JobsOk(s) && i < |s| && KeyOf(s[i]).Some?
    ensures exists a :: IsArtifactId(a) && IsJobId(s[i].id) && KeyOf(s[i]) == Some(StorageKey(s[i].id, a))
  {
    hide StorageKey, IsArtifactId, IsJobId;
    var r := s[i];
    assert r in s && RecordOk(r);
    var a := r.artifacts[|r.artifacts| - 1];
    assert a in r.artifacts && ArtifactOk(a, r.id);
  }

  /** No two records hold the same object key. */
  lemma KeysDiffer(s: Jobs, i: nat, k: nat)
    requires JobsOk(s) && i < |s| && k < |s| && i != k && KeyOf(s[i]).Some?
    ensures KeyOf(s[k]) != KeyOf(s[i])
  {
    hide StorageKey, IsArtifactId, IsJobId, KeyOf, RecordOk;
    if KeyOf(s[k]) == KeyOf(s[i]) {
      KeyIsOwn(s, i);
      KeyIsOwn(s, k);
      var a :| IsArtifactId(a) && IsJobId(s[i].id) && KeyOf(s[i]) == Some(StorageKey(s[i].id, a));
      var b :| IsArtifactId(b) && IsJobId(s[k].id) && KeyOf(s[k]) == Some(StorageKey(s[k].id, b));
      StorageKeyInjective(s[i].id, a, s[k].id, b);
      DifferentIds(s, i, k);
      assert false;
    }
  }

  /** Deleting a record's artifact and the object under its key leaves all other objects where they belong. */
  lemma BuriedAgrees(s: Jobs, objects: map<Text, Bytes>, i: nat, r: Record)
    requires JobsOk(s) && StorageAgrees(s, objects) && i < |s| && r.artifacts == []
    ensures StorageAgrees(s[i := r], Without(objects, KeyOf(s[i])))
  {
    hide JobsOk;
    var t := s[i := r];
    forall x
      ensures KeyHeld(t, x) <==> KeyHeld(s, x) && KeyOf(s[i]) != Some(x)
    {
      if KeyHeld(t, x) {
        var k :| 0 <= k < |t| && KeyOf(t[k]) == Some(x);
        assert k != i && KeyOf(s[k]) == Some(x);
        KeysDiffer(s, k, i);
      }
      if KeyHeld(s, x) && KeyOf(s[i]) != Some(x) {
        var k :| 0 <= k < |s| && KeyOf(s[k]) == Some(x);
        assert KeyOf(t[k]) == Some(x);
      }
    }
  }

  lemma ExpiresOne(r: Record, now: int)
    requires HoldsOne(r) && Expired(r, now)
    ensures ExpiredKey(r, now) == KeyOf(r)
  {
    assert r.artifacts == [r.artifacts[0]];
  }

  lemma ReadRests(setup: Setup, w: World, id: Text, now: int, stamp: int)
    requires Rest(setup, w)
    ensures Rest(setup, ServeRead(w, id, now, stamp).world)
    ensures JobsEvolve(w.jobs, ServeRead(w, id, now, stamp).world.jobs)
  {
    hide StoreInv, Decided, StorageAgrees, Evolves, IsJobId, Expired, KeyOf, HoldsOne;
    Unmoved(w.jobs);
    JobsOfStore(setup.cfg, w.jobs);
    if EvaluateExpiry(w.jobs, id, now, stamp).Ok? {
      var i := Find(w.jobs, id).value;
      var t := EvaluateExpiry(w.jobs, id, now, stamp).value;
      EvaluateExpiryOk(w.jobs, id, now, stamp);
      StoreKept(setup.cfg, w.jobs, t);
      assert HoldsOne(w.jobs[i]);
      if Expired(w.jobs[i], now) {
        ExpiresOne(w.jobs[i], now);
        BuriedAgrees(w.jobs, w.objects, i, t[i]);
        BuriedOne(w.jobs, i, t[i]);
      } else {
        assert t == w.jobs;
      }
    }
  }

  lemma BuriedOne(s: Jobs, i: nat, r: Record)
    requires OneResult(s) && i < |s| && r.artifacts == [] && r.status == Deleted
    ensures OneResult(s[i := r])
  {
  }

  lemma DeleteRests(setup: Setup, w: World, id: Text, artifactId: Text, now: int)
    requires Rest(setup, w)
    ensures Rest(setup, ServeDelete(w, id, artifactId, now).world)
    ensures JobsEvolve(w.jobs, ServeDelete(w, id, artifactId, now).world.jobs)
  {
    hide StoreInv, Decided, StorageAgrees, Evolves, IsJobId, IsArtifactId;
    Unmoved(w.jobs);
    JobsOfStore(setup.cfg, w.jobs);
    if DeleteArtifact(w.jobs, id, artifactId, now).Ok? {
      var i := Find(w.jobs, id).value;
      var t := DeleteArtifact(w.jobs, id, artifactId, now).value.0;
      DeleteArtifactOk(w.jobs, id, artifactId, now);
      StoreKept(setup.cfg, w.jobs, t);
      assert HoldsOne(w.jobs[i]);
      if w.jobs[i].status != Deleted {
        FoundOne(w.jobs[i], artifactId);
        BuriedAgrees(w.jobs, w.objects, i, t[i]);
        BuriedOne(w.jobs, i, t[i]);
      }
    }
  }

  lemma FoundOne(r: Record, artifactId: Text)
    requires HoldsOne(r) && FindArtifact(r.artifacts, artifactId).Some?
    ensures FindArtifact(r.artifacts, artifactId).value.storageKey == KeyOf(r)
  {
  }

  lemma {:induction false} ExpiredKeysHold(s: Jobs, now: int, key: Text)
    ensures key in ExpiredKeys(s, now) <==> exists r :: r in s && ExpiredKey(r, now) == Some(key)
  {
    hide ExpiredKey;
    if s != [] {
      ExpiredKeysHold(s[..|s| - 1], now, key);
      assert s == s[..|s| - 1] + [s[|s| - 1]];
    }
  }

  lemma SweptKeys(s: Jobs, now: int, key: Text)
    requires UniqueIds(s)
    ensures key in ExpiredKeys(SortById(s), now) <==> exists i :: 0 <= i < |s| && ExpiredKey(s[i], now) == Some(key)
  {
    hide SortById, ExpiredKey, ExpiredKeys;
    SortByIdSorts(s);
    ExpiredKeysHold(SortById(s), now, key);
    if r :| r in SortById(s) && ExpiredKey(r, now) == Some(key) {
      assert r in s;
    }
    if i :| 0 <= i < |s| && ExpiredKey(s[i], now) == Some(key) {
      assert s[i] in s && s[i] in SortById(s);
    }
  }

  lemma ExpireKeys(r: Record, now: int, stamp: int)
    requires HoldsOne(r)
    ensures HoldsOne(Expire(r, now, stamp))
    ensures KeyOf(Expire(r, now, stamp)) == if ExpiredKey(r, now).Some? then None else KeyOf(r)
    ensures ExpiredKey(r, now).Some? ==> ExpiredKey(r, now) == KeyOf(r)
  {
    if Expired(r, now) {
      ExpiresOne(r, now);
    }
  }

  lemma SweptAgrees(s: Jobs, objects: map<Text, Bytes>, now: int, stamp: int)
    requires JobsOk(s) && OneResult(s) && StorageAgrees(s, objects)
    ensures OneResult(Sweep(s, now, stamp))
    ensures StorageAgrees(Sweep(s, now, stamp), Remaining(objects, ExpiredKeys(SortById(s), now)))
  {
    hide RecordOk, KeyOf, ExpiredKey, Expire, HoldsOne, SortById, ExpiredKeys;
    var t := Sweep(s, now, stamp);
    forall i | 0 <= i < |s|
      ensures HoldsOne(t[i])
    {
      ExpireKeys(s[i], now, stamp);
    }
    forall x
      ensures KeyHeld(t, x) <==> KeyHeld(s, x) && x !in ExpiredKeys(SortById(s), now)
    {
      SweptKey(s, now, stamp, x);
    }
  }

  lemma SweptKey(s: Jobs, now: int, stamp: int, x: Text)
    requires JobsOk(s) && OneResult(s)
    ensures KeyHeld(Sweep(s, now, stamp), x) <==> KeyHeld(s, x) && x !in ExpiredKeys(SortById(s), now)
  {
    hide RecordOk, KeyOf, ExpiredKey, Expire, HoldsOne, SortById, ExpiredKeys;
    var t := Sweep(s, now, stamp);
    SweptKeys(s, now, x);
    if KeyHeld(t, x) {
      var k :| 0 <= k < |t| && KeyOf(t[k]) == Some(x);
      ExpireKeys(s[k], now, stamp);
      forall i | 0 <= i < |s|
        ensures ExpiredKey(s[i], now) != Some(x)
      {
        ExpireKeys(s[i], now, stamp);
        if i != k {
          KeysDiffer(s, k, i);
        }
      }
    }
    if KeyHeld(s, x) && x !in ExpiredKeys(SortById(s), now) {
      var k :| 0 <= k < |s| && KeyOf(s[k]) == Some(x);
      ExpireKeys(s[k], now, stamp);
      assert KeyOf(t[k]) == Some(x);
    }
  }

  lemma SweepRests(setup: Setup, w: World, now: int, stamp: int)
    requires Rest(setup, w)
    ensures Rest(setup, ServeSweep(w, now, stamp).world)
    ensures JobsEvolve(w.jobs, ServeSweep(w, now, stamp).world.jobs)
  {
    hide StoreInv, Decided, StorageAgrees, Evolves, OneResult, Sweep, Remaining, ExpiredKeys;
    JobsOfStore(setup.cfg, w.jobs);
    SweepOk(w.jobs, now, stamp);
    StoreKept(setup.cfg, w.jobs, Sweep(w.jobs, now, stamp));
    SweptAgrees(w.jobs, w.objects, now, stamp);
  }

  lemma ReviewRests(setup: Setup, w: World, call: Call)
    requires Rest(setup, w) && (call.RegisterCall? || call.SubmitCall? || call.ApproveCall? || call.RejectCall?)
    ensures Rest(setup, Serve(setup, w, call).world)
    ensures Serve(setup, w, call).world.jobs == w.jobs
  {
    hide StoreInv, Decided, StorageAgrees, OneResult, RegisterShape, Submit, Approve, Reject, DecisionsStand;
    match call
    case RegisterCall(id, shape, now) =>
      if RegisterShape(w.datasets, id, shape, now).Ok? {
        RegisterDecided(setup.forbidden, w.datasets, id, shape, now);
      }
    case SubmitCall(id, now) =>
      if Submit(setup.forbidden, w.datasets, id, now).Ok? {
        SubmitDecides(setup.forbidden, w.datasets, id, now);
      }
    case ApproveCall(id, now) =>
      ApproveIsIdle(setup.forbidden, w.datasets, id, now);
      if Approve(w.datasets, id, now).Ok? {
      }
    case RejectCall(id, reason, now) =>
      RejectIsIdle(setup.forbidden, w.datasets, id, reason, now);
  }

  /** Every request keeps what holds between requests. */
  lemma ServeRests(setup: Setup, w: World, call: Call)
    requires Rest(setup, w)
    ensures Rest(setup, Serve(setup, w, call).world) && JobsEvolve(w.jobs, Serve(setup, w, call).world.jobs)
  {
    hide Rest, JobsEvolve, ServeCreate, ServeRetry, ServeRead, ServeDelete, ServeSweep, Cancel, RegisterShape, Submit,
      Approve, Reject;
    Unmoved(w.jobs);
    match call
    case CreateJob(payload, env) => CreateRests(setup, w, payload, env);
    case RetryJob(id, env) => RetryRests(setup, w, id, env);
    case CancelCall(id, now) => CancelRests(setup, w, id, now);
    case ReadCall(id, now, stamp) => ReadRests(setup, w, id, now, stamp);
    case DeleteCall(id, artifactId, now) => DeleteRests(setup, w, id, artifactId, now);
    case SweepCall(now, stamp) => SweepRests(setup, w, now, stamp);
    case _ => ReviewRests(setup, w, call);
  }

  lemma FreshRests(setup: Setup, now: int)
    requires SchemaAllowed(setup.forbidden)
    ensures Rest(setup, Fresh(now))
  {
    InitialDecided(setup.forbidden, now);
    assert Ranked([], (id: Text) => 0);
  }

  /** Every run of requests keeps it, from any world in which it holds, and moves jobs forward only. */
  lemma {:induction false} RunKeepsRest(setup: Setup, w: World, calls: seq<Call>)
    requires Rest(setup, w)
    ensures Rest(setup, ServeAll(setup, w, calls)) && JobsEvolve(w.jobs, ServeAll(setup, w, calls).jobs)
    decreases |calls|
  {
    hide Rest, Serve, Evolves;
    if calls == [] {
      Unmoved(w.jobs);
    } else {
      var before := ServeAll(setup, w, calls[..|calls| - 1]);
      RunKeepsRest(setup, w, calls[..|calls| - 1]);
      ServeRests(setup, before, calls[|calls| - 1]);
      JobsEvolveTransitive(w.jobs, before.jobs, ServeAll(setup, w, calls).jobs);
    }
  }

  lemma RunOfRequestsRests(setup: Setup, now: int, calls: seq<Call>)
    requires SchemaAllowed(setup.forbidden)
    ensures Rest(setup, ServeAll(setup, Fresh(now), calls))
  {
    hide Rest, ServeAll, SchemaAllowed, Fresh;
    FreshRests(setup, now);
    RunKeepsRest(setup, Fresh(now), calls);
  }

  // --- Processes that started with an empty store

  ghost predicate FreshWorld(w: World) {
    FreshJobs(w.jobs, w.datasets)
  }

  lemma RunStaysFreshWorld(setup: Setup, w: World, id: Text, env: Env)
    requires Rest(setup, w) && FreshWorld(w) && Holds(w.jobs, id)
    ensures FreshWorld(RunIfConfigured(setup, w, id, env).world)
  {
    hide Rest, FreshJobs, Evolves, StatusAfter, OthersKept, JobTraining, DecisionsStand, RunNow;
    RunRests(setup, w, id, env);
    var u := RunIfConfigured(setup, w, id, env).world;
    SameDatasets(setup, w, id, env);
    Standing(w.datasets);
    NothingAdded(w.jobs, u.jobs, w.datasets, u.datasets);
  }

  lemma {:induction false} UploadsKeepDatasets(w: World, id: Text, artifacts: seq<Artifact>, content: Bytes, now: int)
    ensures UploadEach(w, id, artifacts, content, now).world.datasets == w.datasets
  {
    hide SetStorageKey, StorageKey;
    if artifacts != [] {
      UploadsKeepDatasets(w, id, artifacts[..|artifacts| - 1], content, now);
    }
  }

  lemma SameDatasets(setup: Setup, w: World, id: Text, env: Env)
    ensures RunIfConfigured(setup, w, id, env).world.datasets == w.datasets
  {
    hide RunJob, JobTraining, Find, UploadEach;
    if RequestOf(w.jobs, id).Some? && env.tarball.Tarball? {
      var done := RunJob(setup.cfg, w.jobs, id, TrainingOf(setup, w.jobs, id, env), env.now);
      if Holds(done.jobs, id) {
        UploadsKeepDatasets(w.(jobs := done.jobs), id, done.jobs[Find(done.jobs, id).value].artifacts, env.tarball.content, env.now);
      }
    }
  }

  lemma CreateStaysFreshWorld(setup: Setup, w: World, payload: seq<Member>, env: Env)
    requires Rest(setup, w) && FreshWorld(w)
    ensures FreshWorld(ServeCreate(setup, w, payload, env).world)
  {
    hide StoreInv, Decided, StorageAgrees, FreshJobs, RunIfConfigured, Evolves, OneResult, FromMapping, ValidRequest,
      StableJobId, IsApproved, Count;
    var q := FromMapping(payload);
    if q.Ok? && IsApproved(w.datasets, q.value.datasetId) && Create(setup.cfg, w.jobs, q.value, env.now).Ok? {
      var t := Create(setup.cfg, w.jobs, q.value, env.now).value;
      var id := StableJobId(setup.cfg.sha, q.value);
      StoreKeptByCreate(setup.cfg, w.jobs, q.value, env.now);
      if !Holds(w.jobs, id) {
        AppendedRest(w.jobs, NewRecord(id, q.value, None, env.now), w.objects);
      }
      CreatedFresh(setup.cfg, w.jobs, q.value, env.now, w.datasets);
      RunStaysFreshWorld(setup, w.(jobs := t), id, env);
    }
  }

  lemma RetryStaysFreshWorld(setup: Setup, w: World, id: Text, env: Env)
    requires Rest(setup, w) && FreshWorld(w)
    ensures FreshWorld(ServeRetry(setup, w, id, env).world)
  {
    hide StoreInv, Decided, StorageAgrees, FreshJobs, RunIfConfigured, Evolves, OneResult, RetryId, RetryRefusal,
      IsJobId;
    if IsJobId(id) && RetryRefusal(setup.cfg, w.jobs, id).None? && RetryAttempt(setup.cfg.sha, w.jobs, id).Some? {
      var n := RetryAttempt(setup.cfg.sha, w.jobs, id).value;
      var t := Retried(setup.cfg, w.jobs, id, n, env.now);
      JobsOfStore(setup.cfg, w.jobs);
      StoreKeptByRetry(setup.cfg, w.jobs, id, n, env.now);
      AppendedRest(w.jobs, t[|w.jobs|], w.objects);
      RetriedFresh(setup.cfg, w.jobs, id, n, env.now, w.datasets);
      RunStaysFreshWorld(setup, w.(jobs := t), RetryId(setup.cfg.sha, id, n), env);
    }
  }

  lemma ReviewStands(setup: Setup, w: World, call: Call)
    requires Decided(setup.forbidden, w.datasets)
    requires !call.CreateJob? && !call.RetryJob?
    ensures DecisionsStand(w.datasets, Serve(setup, w, call).world.datasets)
  {
    hide Decided, DecisionsStand, RegisterShape, Submit, Approve, Reject, Cancel, EvaluateExpiry, DeleteArtifact,
      IsJobId, Find;
    Standing(w.datasets);
    match call
    case RegisterCall(id, shape, now) =>
      if RegisterShape(w.datasets, id, shape, now).Ok? {
        RegisterDecided(setup.forbidden, w.datasets, id, shape, now);
      }
    case SubmitCall(id, now) =>
      if Submit(setup.forbidden, w.datasets, id, now).Ok? {
        SubmitDecides(setup.forbidden, w.datasets, id, now);
      }
    case ApproveCall(id, now) => ApproveIsIdle(setup.forbidden, w.datasets, id, now);
    case RejectCall(id, reason, now) => RejectIsIdle(setup.forbidden, w.datasets, id, reason, now);
    case _ =>
  }

  lemma SameNumber(setup: Setup, w: World, call: Call)
    requires !call.CreateJob? && !call.RetryJob?
    ensures |Serve(setup, w, call).world.jobs| == |w.jobs|
  {
    hide Move, Submit, RegisterShape, Approve, Reject, Remaining, Without, FindArtifact;
  }

  /** Besides, in a process that started empty every request keeps retries behind their parents and the gate shut. */
  lemma ServeStaysFresh(setup: Setup, w: World, call: Call)
    requires Rest(setup, w) && FreshWorld(w)
    ensures FreshWorld(Serve(setup, w, call).world)
  {
    hide Rest, FreshJobs, JobsEvolve, DecisionsStand, ServeCreate, ServeRetry, Serve;
    var t := Serve(setup, w, call).world;
    match call
    case CreateJob(payload, env) =>
      CreateStaysFreshWorld(setup, w, payload, env);
      ServedSeparately(setup, w, call);
    case RetryJob(id, env) =>
      RetryStaysFreshWorld(setup, w, id, env);
      ServedSeparately(setup, w, call);
    case _ =>
      ServeRests(setup, w, call);
      SameNumber(setup, w, call);
      RestDecided(setup, w);
      ReviewStands(setup, w, call);
      NothingAdded(w.jobs, t.jobs, w.datasets, t.datasets);
  }

  lemma RestDecided(setup: Setup, w: World)
    requires Rest(setup, w)
    ensures Decided(setup.forbidden, w.datasets)
  {
  }

  lemma ServedSeparately(setup: Setup, w: World, call: Call)
    ensures call.CreateJob? ==> Serve(setup, w, call) == ServeCreate(setup, w, call.payload, call.env)
    ensures call.RetryJob? ==> Serve(setup, w, call) == ServeRetry(setup, w, call.id, call.env)
  {
    hide ServeCreate, ServeRetry;
  }

  lemma {:induction false} RunOfRequestsStaysFresh(setup: Setup, now: int, calls: seq<Call>)
    requires SchemaAllowed(setup.forbidden)
    ensures FreshWorld(ServeAll(setup, Fresh(now), calls))
    decreases |calls|
  {
    hide Rest, Serve, SchemaAllowed;
    if calls != [] {
      RunOfRequestsStaysFresh(setup, now, calls[..|calls| - 1]);
      RunOfRequestsRests(setup, now, calls[..|calls| - 1]);
      ServeStaysFresh(setup, ServeAll(setup, Fresh(now), calls[..|calls| - 1]), calls[|calls| - 1]);
    }
  }
}
