/** Digests several jobs share: every fixture run records the digest of the fixture, so no deletion alone removes it. */
module SharedHashes {
  import opened Texts
  import opened Utf8
  import opened Json
  import opened Contracts
  import opened StateMachine
  import opened Jobs
  import opened JobFacts
  import opened JobInvariants
  import opened Datasets
  import opened Persistence
  import opened HashAbsence
  import opened Tokens
  import opened Protocol
  import opened ProtocolInvariants
  import opened TrainingStores
  import opened StoreFiles
  import opened Workers
  import opened Serial
  import opened SerialFacts
  import opened SerialTheorems

  function FixtureDigest(setup: Setup): Text {
    HexDigest(setup.cfg.sha, setup.fixture)
  }

  /** Provenance that names the fixture's model. */
  predicate OfFixture(r: Record) {
    r.provenance.Some? && r.provenance.value.baseModelId == WaveAModel()
  }

  /** Every such provenance, a tombstone's too, records the fixture. */
  predicate Marked(setup: Setup, s: Jobs) {
    forall i :: 0 <= i < |s| && OfFixture(s[i]) ==> s[i].provenance.value.datasetHash == FixtureDigest(setup)
  }

  /** The result is the fixture's, or names another model. */
  predicate Genuine(setup: Setup, training: Training) {
    training.Ended? && training.outcome.Produced? && training.outcome.baseModelId == WaveAModel() ==>
      training.outcome.datasetHash == FixtureDigest(setup)
  }

  /** The same records, with the provenance they had or none, and new ones without. */
  predicate NoNewProvenance(s: Jobs, t: Jobs) {
    && |s| <= |t|
    && (forall i :: 0 <= i < |s| ==> t[i].provenance.None? || t[i].provenance == s[i].provenance)
    && forall i :: |s| <= i < |t| ==> t[i].provenance.None?
  }

  lemma StaysMarked(setup: Setup, s: Jobs, t: Jobs)
    requires Marked(setup, s) && NoNewProvenance(s, t)
    ensures Marked(setup, t)
  {
  }

  lemma MoveMakesNone(cfg: Config, s: Jobs, i: nat, status: Status, now: int)
    requires i < |s|
    ensures NoNewProvenance(s, Move(cfg, s, i, status, now))
  {
    hide Promote, Count;
    if s[i].status != status {
      PromotionIsFifo(cfg.maxRunning, s[i := s[i].(status := status, updatedAt := now)], now);
    }
  }

  lemma StatusMakesNone(cfg: Config, s: Jobs, id: Text, target: Status, now: int)
    requires UpdateStatus(cfg, s, id, target, now).Ok?
    ensures NoNewProvenance(s, UpdateStatus(cfg, s, id, target, now).value)
  {
    hide Move, NoNewProvenance;
    MoveMakesNone(cfg, s, Find(s, id).value, target, now);
  }

  lemma ConcludeMarked(setup: Setup, s: Jobs, id: Text, retention: Retention, o: Outcome, now: int)
    requires Marked(setup, s) && Genuine(setup, Ended(o))
    ensures Marked(setup, Conclude(setup.cfg, s, id, retention, o, now).jobs)
  {
    hide UpdateStatus, ValidProvenance, NoNewProvenance, IsJobId, IsArtifactId, HasArtifact, HexDigest;
    var p := Finished(id, retention, o);
    if p.Failing? {
      if UpdateStatus(setup.cfg, s, id, Failed, now).Ok? {
        StatusMakesNone(setup.cfg, s, id, Failed, now);
        StaysMarked(setup, s, UpdateStatus(setup.cfg, s, id, Failed, now).value);
      }
    } else if Register(s, id, p.artifact, p.provenance, now).Ok? {
      var t := Register(s, id, p.artifact, p.provenance, now).value;
      assert Marked(setup, t);
      if UpdateStatus(setup.cfg, t, id, Succeeded, now).Ok? {
        StatusMakesNone(setup.cfg, t, id, Succeeded, now);
        StaysMarked(setup, t, UpdateStatus(setup.cfg, t, id, Succeeded, now).value);
      }
    }
  }

  lemma RunJobMarked(setup: Setup, s: Jobs, id: Text, training: Training, now: int)
    requires Marked(setup, s) && Genuine(setup, training)
    ensures Marked(setup, RunJob(setup.cfg, s, id, training, now).jobs)
  {
    hide Marked, UpdateStatus, Conclude, NoNewProvenance, FixtureDigest;
    if UpdateStatus(setup.cfg, s, id, Running, now).Ok? {
      var t := UpdateStatus(setup.cfg, s, id, Running, now).value;
      StatusMakesNone(setup.cfg, s, id, Running, now);
      StaysMarked(setup, s, t);
      if RequestOf(t, id).Some? && training.Ended? {
        ConcludeMarked(setup, t, id, RequestOf(t, id).value.retention, training.outcome, now);
      }
    }
  }

  lemma {:induction false} UploadsMarked(setup: Setup, w: World, id: Text, artifacts: seq<Artifact>, content: Bytes,
      now: int)
    requires Marked(setup, w.jobs)
    ensures Marked(setup, UploadEach(w, id, artifacts, content, now).world.jobs)
  {
    hide IsJobId, IsArtifactId, HasArtifact, StorageKey, FixtureDigest;
    if artifacts != [] {
      UploadsMarked(setup, w, id, artifacts[..|artifacts| - 1], content, now);
    }
  }

  /** The isolated process, should the request lead to it, does not pass its result off as the fixture's. */
  predicate GenuineCall(setup: Setup, call: Call) {
    (call.CreateJob? || call.RetryJob?) ==> Genuine(setup, call.env.training)
  }

  lemma RunIfConfiguredMarked(setup: Setup, w: World, id: Text, env: Env)
    requires Marked(setup, w.jobs) && Genuine(setup, env.training)
    ensures Marked(setup, RunIfConfigured(setup, w, id, env).world.jobs)
  {
    hide Marked, RunJob, UploadEach, Find, PlaceholderHash, ConfigHash, HexDigest;
    if RequestOf(w.jobs, id).Some? {
      var training := TrainingOf(setup, w.jobs, id, env);
      RunJobMarked(setup, w.jobs, id, training, env.now);
      var done := RunJob(setup.cfg, w.jobs, id, training, env.now);
      if Holds(done.jobs, id) && env.tarball.Tarball? {
        UploadsMarked(setup, w.(jobs := done.jobs), id, done.jobs[Find(done.jobs, id).value].artifacts, env.tarball.content,
                      env.now);
      }
    }
  }

  lemma CreateMarked(setup: Setup, w: World, payload: seq<Member>, env: Env)
    requires Marked(setup, w.jobs) && Genuine(setup, env.training)
    ensures Marked(setup, ServeCreate(setup, w, payload, env).world.jobs)
  {
    hide Marked, RunIfConfigured, FromMapping, ValidRequest, StableJobId, IsApproved, Count, Genuine;
    var q := FromMapping(payload);
    if q.Ok? && Create(setup.cfg, w.jobs, q.value, env.now).Ok? {
      var t := Create(setup.cfg, w.jobs, q.value, env.now).value;
      StaysMarked(setup, w.jobs, t);
      RunIfConfiguredMarked(setup, w.(jobs := t), StableJobId(setup.cfg.sha, q.value), env);
    }
  }

  lemma RetryMarked(setup: Setup, w: World, id: Text, env: Env)
    requires Marked(setup, w.jobs) && Genuine(setup, env.training)
    ensures Marked(setup, ServeRetry(setup, w, id, env).world.jobs)
  {
    hide Marked, RunIfConfigured, RetryId, RetryRefusal, IsJobId, Genuine;
    if RetryRefusal(setup.cfg, w.jobs, id).None? && RetryAttempt(setup.cfg.sha, w.jobs, id).Some? {
      var n := RetryAttempt(setup.cfg.sha, w.jobs, id).value;
      var t := Retried(setup.cfg, w.jobs, id, n, env.now);
      StaysMarked(setup, w.jobs, t);
      RunIfConfiguredMarked(setup, w.(jobs := t), RetryId(setup.cfg.sha, id, n), env);
    }
  }

  lemma CancelMakesNone(cfg: Config, s: Jobs, id: Text, now: int)
    requires Cancel(cfg, s, id, now).Ok?
    ensures NoNewProvenance(s, Cancel(cfg, s, id, now).value)
  {
    hide NoNewProvenance, Move;
    var i := Find(s, id).value;
    MoveMakesNone(cfg, s, i, CancelTarget(s[i].status), now);
  }

  lemma DeletionMakesNone(w: World, call: Call)
    ensures call.ReadCall? ==> NoNewProvenance(w.jobs, ServeRead(w, call.id, call.now, call.stamp).world.jobs)
    ensures call.DeleteCall? ==> NoNewProvenance(w.jobs, ServeDelete(w, call.id, call.artifactId, call.now).world.jobs)
    ensures call.SweepCall? ==> NoNewProvenance(w.jobs, ServeSweep(w, call.now, call.stamp).world.jobs)
  {
    hide FindArtifact, FirstExpired, IsJobId, IsArtifactId;
  }

  lemma ServeMarked(setup: Setup, w: World, call: Call)
    requires Marked(setup, w.jobs) && GenuineCall(setup, call)
    ensures Marked(setup, Serve(setup, w, call).world.jobs)
  {
    hide Marked, NoNewProvenance, Genuine, ServeCreate, ServeRetry, ServeRead, ServeDelete, ServeSweep, Cancel,
      RegisterShape, Submit, Approve, Reject, IsJobId;
    match call
    case CreateJob(payload, env) => CreateMarked(setup, w, payload, env);
    case RetryJob(id, env) => RetryMarked(setup, w, id, env);
    case CancelCall(id, now) =>
      if Cancel(setup.cfg, w.jobs, id, now).Ok? {
        CancelMakesNone(setup.cfg, w.jobs, id, now);
        StaysMarked(setup, w.jobs, Cancel(setup.cfg, w.jobs, id, now).value);
      }
    case ReadCall(_, _, _) =>
      DeletionMakesNone(w, call);
      StaysMarked(setup, w.jobs, Serve(setup, w, call).world.jobs);
    case DeleteCall(_, _, _) =>
      DeletionMakesNone(w, call);
      StaysMarked(setup, w.jobs, Serve(setup, w, call).world.jobs);
    case SweepCall(_, _) =>
      DeletionMakesNone(w, call);
      StaysMarked(setup, w.jobs, Serve(setup, w, call).world.jobs);
    case _ =>
  }

  /** After every run of genuine requests the provenance of each fixture job, deleted by expiry or not, holds the fixture's digest. */
  lemma {:induction false} FixtureJobsAreMarked(setup: Setup, now: int, calls: seq<Call>)
    requires forall i :: 0 <= i < |calls| ==> GenuineCall(setup, calls[i])
    ensures Marked(setup, ServeAll(setup, Fresh(now), calls).jobs)
    decreases |calls|
  {
    hide Serve, GenuineCall, FixtureDigest;
    if calls != [] {
      FixtureJobsAreMarked(setup, now, calls[..|calls| - 1]);
      ServeMarked(setup, ServeAll(setup, Fresh(now), calls[..|calls| - 1]), calls[|calls| - 1]);
    }
  }

  // --- Deletion

  /** A deletion is reported unverified while another record holds one of the digests of what was deleted. */
  lemma SharedHashIsReported(cal: Calendar, s: Jobs, id: Text, artifactId: Text, now: int, other: Record, h: Text)
    requires JobsOk(s) && DeleteArtifact(s, id, artifactId, now).Ok?
    requires var r := s[Find(s, id).value];
             && r.status != Deleted
             && HashOf(r, FindArtifact(r.artifacts, artifactId).value, h)
    requires other in s && other.id != id && HoldsHash(other, h) && IsHash(h)
    ensures !FoundGone(cal, s, id, artifactId, DeleteArtifact(s, id, artifactId, now).value.0)
  {
    hide RecordOk, HoldsHash, HashOf, NothingTold, IsHash, VerifyAbsence, HashesFor, Dump, SavedText, IsJobId,
      IsArtifactId, FindArtifact;
    var i := Find(s, id).value;
    var k: nat :| k < |s| && s[k] == other;
    DeleteArtifactOk(s, id, artifactId, now);
    var t := DeleteArtifact(s, id, artifactId, now).value.0;
    assert t[k] == other;
    JobsWritable(t);
    SaveSucceeds(cal, t);
    var a := FindArtifact(s[i].artifacts, artifactId).value;
    HashesExactly(s[i], a, h);
    PresenceIsReported(cal, t, HashesFor(s[i], a), other, h);
    NothingToldExactly(cal, s[i], a, t);
  }

  /**
   So a fixture job is never deleted with verification while another one is stored, were it only the tombstone of
   an expired one, after whatever requests.
   */
  lemma FixtureJobsShareADigest(cal: Calendar, setup: Setup, start: int, calls: seq<Call>, id: Text, artifactId: Text,
      now: int, other: Record)
    requires SchemaAllowed(setup.forbidden) && forall i :: 0 <= i < |calls| ==> GenuineCall(setup, calls[i])
    requires var s := ServeAll(setup, Fresh(start), calls).jobs;
             && DeleteArtifact(s, id, artifactId, now).Ok?
             && s[Find(s, id).value].status != Deleted && OfFixture(s[Find(s, id).value])
             && other in s && other.id != id && OfFixture(other)
    ensures var s := ServeAll(setup, Fresh(start), calls).jobs;
            !FoundGone(cal, s, id, artifactId, DeleteArtifact(s, id, artifactId, now).value.0)
  {
    hide ServeAll, SchemaAllowed, GenuineCall, StoreInv, JobsOk, FindArtifact, Tombstone, IsJobId, IsArtifactId,
      FoundGone, HexDigest, IsHash;
    var s := ServeAll(setup, Fresh(start), calls).jobs;
    var i := Find(s, id).value;
    RunOfRequestsRests(setup, start, calls);
    JobsOfStore(setup.cfg, s);
    FixtureJobsAreMarked(setup, start, calls);
    var k: nat :| k < |s| && s[k] == other;
    SharedHashIsReported(cal, s, id, artifactId, now, other, FixtureDigest(setup));
  }
}
