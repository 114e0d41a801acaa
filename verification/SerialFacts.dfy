/** What every run of requests served one at a time keeps. */
module SerialFacts {
  import opened Texts
  import opened Utf8
  import opened Json
  import opened Contracts
  import opened StateMachine
  import opened Jobs
  import opened JobFacts
  import opened JobInvariants
  import opened Datasets
  import opened Sorting
  import opened Tokens
  import opened Protocol
  import opened ProtocolInvariants
  import opened TrainingStores
  import opened Workers
  import opened Serial

  // --- Results and keys

  /** A succeeded job holds one artifact, any other none. */
  predicate HoldsOne(r: Record) {
    if r.status == Succeeded then |r.artifacts| == 1 else r.artifacts == []
  }

  predicate OneResult(s: Jobs) {
    forall i :: 0 <= i < |s| ==> HoldsOne(s[i])
  }

  /** The object key of the artifact a record holds. */
  function KeyOf(r: Record): Option<Text> {
    if r.artifacts == [] then None else r.artifacts[|r.artifacts| - 1].storageKey
  }

  ghost predicate KeyHeld(s: Jobs, key: Text) {
    exists i :: 0 <= i < |s| && KeyOf(s[i]) == Some(key)
  }

  /** The objects in storage are those whose keys the records hold. */
  ghost predicate StorageAgrees(s: Jobs, objects: map<Text, Bytes>) {
    forall key :: key in objects <==> KeyHeld(s, key)
  }

  /** What holds between requests. */
  ghost predicate Rest(setup: Setup, w: World) {
    && StoreInv(setup.cfg, w.jobs)
    && Decided(setup.forbidden, w.datasets)
    && OneResult(w.jobs)
    && StorageAgrees(w.jobs, w.objects)
  }

  /** The part of it that needs no word about objects: it survives a restart. */
  ghost predicate Calm(setup: Setup, w: World) {
    StoreInv(setup.cfg, w.jobs) && Decided(setup.forbidden, w.datasets) && OneResult(w.jobs)
  }

  lemma RestIsCalm(setup: Setup, w: World)
    requires Rest(setup, w)
    ensures Calm(setup, w)
  {
  }

  lemma AppendedOne(s: Jobs, r: Record)
    requires OneResult(s) && r.status == Queued && r.artifacts == []
    ensures OneResult(s + [r])
  {
    hide HoldsOne;
    assert HoldsOne(r) by {
      QueuedHoldsNone(r);
    }
  }

  lemma QueuedHoldsNone(r: Record)
    requires r.status == Queued && r.artifacts == []
    ensures HoldsOne(r)
  {
  }

  /** Each artifact as it was and as many succeeded jobs: results and keys are untouched. */
  predicate SameResults(s: Jobs, t: Jobs) {
    |t| == |s| && forall i :: 0 <= i < |s| ==> SameResult(s[i], t[i])
  }

  predicate SameResult(r: Record, t: Record) {
    t.artifacts == r.artifacts && (t.status == Succeeded <==> r.status == Succeeded)
  }

  lemma SameResultsRest(s: Jobs, t: Jobs, objects: map<Text, Bytes>)
    requires SameResults(s, t) && OneResult(s) && StorageAgrees(s, objects)
    ensures OneResult(t) && StorageAgrees(t, objects)
  {
    forall i | 0 <= i < |s|
      ensures HoldsOne(t[i]) && KeyOf(t[i]) == KeyOf(s[i])
    {
      assert HoldsOne(s[i]) && SameResult(s[i], t[i]);
    }
    SameKeys(s, t, objects);
  }

  predicate KeysKept(s: Jobs, t: Jobs) {
    |t| == |s| && forall i :: 0 <= i < |s| ==> KeyOf(t[i]) == KeyOf(s[i])
  }

  lemma SameKeys(s: Jobs, t: Jobs, objects: map<Text, Bytes>)
    requires KeysKept(s, t) && StorageAgrees(s, objects)
    ensures StorageAgrees(t, objects)
  {
    hide KeyOf;
    forall key
      ensures KeyHeld(t, key) <==> KeyHeld(s, key)
    {
      if KeyHeld(s, key) {
        var i :| 0 <= i < |s| && KeyOf(s[i]) == Some(key);
        assert KeyOf(t[i]) == Some(key);
      }
      if KeyHeld(t, key) {
        var i :| 0 <= i < |t| && KeyOf(t[i]) == Some(key);
        assert KeyOf(s[i]) == Some(key);
      }
    }
  }

  lemma AppendedRest(s: Jobs, r: Record, objects: map<Text, Bytes>)
    requires OneResult(s) && StorageAgrees(s, objects) && r.status == Queued && r.artifacts == []
    ensures OneResult(s + [r]) && StorageAgrees(s + [r], objects)
  {
    var t := s + [r];
    forall i | 0 <= i < |t|
      ensures HoldsOne(t[i])
    {
      if i < |s| {
        assert HoldsOne(s[i]);
      }
    }
    forall key
      ensures KeyHeld(t, key) <==> KeyHeld(s, key)
    {
      if KeyHeld(s, key) {
        var i :| 0 <= i < |s| && KeyOf(s[i]) == Some(key);
        assert KeyOf(t[i]) == Some(key);
      }
      if KeyHeld(t, key) {
        var i :| 0 <= i < |t| && KeyOf(t[i]) == Some(key);
        assert KeyOf(s[i]) == Some(key);
      }
    }
  }

  // --- Status changes

  /** All records but one are as they were, or were queued and have been started. */
  predicate OthersKept(s: Jobs, t: Jobs, i: nat, now: int) {
    |t| == |s| && forall k :: 0 <= k < |s| && k != i ==> t[k] == s[k] || (s[k].status == Queued && t[k] == Started(s[k], now))
  }

  /** What a move does to each record: the one moved, and queued ones that are promoted. */
  lemma MovedAt(cfg: Config, s: Jobs, i: nat, status: Status, now: int)
    requires i < |s| && status != Queued
    ensures var t := Move(cfg, s, i, status, now);
            && t[i] == (if s[i].status == status then s[i] else s[i].(status := status, updatedAt := now))
            && OthersKept(s, t, i, now)
  {
    hide Promote, Count;
    if s[i].status != status {
      PromotionIsFifo(cfg.maxRunning, s[i := s[i].(status := status, updatedAt := now)], now);
    }
  }

  lemma MoveSameResults(cfg: Config, s: Jobs, i: nat, status: Status, now: int)
    requires i < |s| && status != Queued
    requires s[i].status == status || (status != Succeeded && s[i].status != Succeeded)
    ensures SameResults(s, Move(cfg, s, i, status, now))
  {
    hide Move;
    MovedAt(cfg, s, i, status, now);
    var t := Move(cfg, s, i, status, now);
    forall k | 0 <= k < |s|
      ensures SameResult(s[k], t[k])
    {
      if k != i {
        assert t[k] == s[k] || (s[k].status == Queued && t[k] == Started(s[k], now));
      }
    }
  }

  // --- Worker runs

  /** The run of a job that has been started. */
  predicate Succeeds(id: Text, retention: Retention, o: Outcome) {
    Finished(id, retention, o).Trained?
  }

  lemma StartedRun(cfg: Config, s: Jobs, id: Text, now: int)
    requires JobsOk(s) && OneResult(s) && ActiveJob(s, id)
    ensures var i, r := Find(s, id).value, UpdateStatus(cfg, s, id, Running, now);
            && r.Ok? && JobsOk(r.value) && JobsEvolve(s, r.value) && SameResults(s, r.value)
            && Find(r.value, id) == Some(i)
            && r.value[i].status == Running && r.value[i].request == s[i].request && r.value[i].request.Some?
            && r.value[i].artifacts == []
            && OthersKept(s, r.value, i, now)
  {
    hide Move, RecordOk;
    var i := Find(s, id).value;
    UpdateStatusOk(cfg, s, id, Running, now);
    MovedAt(cfg, s, i, Running, now);
    MoveSameResults(cfg, s, i, Running, now);
    var t := UpdateStatus(cfg, s, id, Running, now).value;
    FoundLater(s, t, id);
    assert s[i] in s && HoldsOne(s[i]);
    ActiveHasRequest(s[i]);
  }

  lemma ActiveHasRequest(r: Record)
    requires RecordOk(r) && Active(r.status)
    ensures r.request.Some? && ValidRequest(r.request.value)
  {
  }

  /** The end of a run: the job has succeeded with its one artifact, or failed with none. */
  lemma Concluded(cfg: Config, s: Jobs, id: Text, o: Outcome, now: int)
    requires JobsOk(s) && OneResult(s) && Holds(s, id)
    requires s[Find(s, id).value].status == Running && s[Find(s, id).value].request.Some?
    ensures var i := Find(s, id).value;
            var retention := s[i].request.value.retention;
            var done := Conclude(cfg, s, id, retention, o, now);
            && done.error.None? && JobsOk(done.jobs) && JobsEvolve(s, done.jobs) && |done.jobs| == |s|
            && OneResult(done.jobs)
            && done.jobs[i].status == (if Succeeds(id, retention, o) then Succeeded else Failed)
            && KeysKept(s, done.jobs) && OthersKept(s, done.jobs, i, now)
  {
    hide RecordOk, Move, Succeeds, MadeArtifact, MadeProvenance, ValidProvenance, IsHash;
    var i := Find(s, id).value;
    var retention := s[i].request.value.retention;
    assert s[i] in s && HoldsOne(s[i]);
    if Succeeds(id, retention, o) {
      ConcludedWell(cfg, s, id, o, now);
    } else {
      ConcludedBadly(cfg, s, id, o, now);
    }
  }

  lemma ConcludedBadly(cfg: Config, s: Jobs, id: Text, o: Outcome, now: int)
    requires JobsOk(s) && OneResult(s) && Holds(s, id)
    requires s[Find(s, id).value].status == Running && s[Find(s, id).value].request.Some?
    requires !Succeeds(id, s[Find(s, id).value].request.value.retention, o)
    ensures var i := Find(s, id).value;
            var done := Conclude(cfg, s, id, s[i].request.value.retention, o, now);
            && done.error.None? && JobsOk(done.jobs) && JobsEvolve(s, done.jobs) && |done.jobs| == |s|
            && OneResult(done.jobs) && done.jobs[i].status == Failed
            && KeysKept(s, done.jobs) && OthersKept(s, done.jobs, i, now)
  {
    hide RecordOk, Move, MadeArtifact, MadeProvenance, ValidProvenance, Register;
    var i := Find(s, id).value;
    UpdateStatusOk(cfg, s, id, Failed, now);
    MovedAt(cfg, s, i, Failed, now);
    MoveSameResults(cfg, s, i, Failed, now);
    SameResultsOne(s, UpdateStatus(cfg, s, id, Failed, now).value);
  }

  lemma SameResultsOne(s: Jobs, t: Jobs)
    requires SameResults(s, t) && OneResult(s)
    ensures OneResult(t) && KeysKept(s, t)
  {
    forall i | 0 <= i < |s|
      ensures HoldsOne(t[i]) && KeyOf(t[i]) == KeyOf(s[i])
    {
      assert HoldsOne(s[i]) && SameResult(s[i], t[i]);
    }
  }

  lemma ConcludedWell(cfg: Config, s: Jobs, id: Text, o: Outcome, now: int)
    requires JobsOk(s) && OneResult(s) && Holds(s, id)
    requires s[Find(s, id).value].status == Running && s[Find(s, id).value].request.Some?
    requires Succeeds(id, s[Find(s, id).value].request.value.retention, o)
    ensures var i := Find(s, id).value;
            var done := Conclude(cfg, s, id, s[i].request.value.retention, o, now);
            && done.error.None? && JobsOk(done.jobs) && JobsEvolve(s, done.jobs) && |done.jobs| == |s|
            && OneResult(done.jobs) && done.jobs[i].status == Succeeded
            && KeysKept(s, done.jobs) && OthersKept(s, done.jobs, i, now)
  {
    hide RecordOk, Move, MadeArtifact, MadeProvenance, ValidProvenance, Register, Finished, UpdateStatus, OthersKept,
      KeysKept, ArtifactOk, UniqueIds, Evolves, Find;
    var i := Find(s, id).value;
    var retention := s[i].request.value.retention;
    var p := Finished(id, retention, o);
    assert s[i] in s && HoldsOne(s[i]);
    RetentionOk(s[i]);
    TrainedOk(id, retention, o);
    Registered(s, id, p.artifact, p.provenance, now);
    var t := Register(s, id, p.artifact, p.provenance, now).value;
    SucceededAt(cfg, s, t, i, now);
    UpdateStatusOk(cfg, t, id, Succeeded, now);
    JobsEvolveTransitive(s, t, UpdateStatus(cfg, t, id, Succeeded, now).value);
  }

  lemma RetentionOk(r: Record)
    requires RecordOk(r) && r.request.Some?
    ensures ValidRetention(r.request.value.retention)
  {
  }

  lemma TrainedOk(id: Text, retention: Retention, o: Outcome)
    requires Succeeds(id, retention, o) && ValidRetention(retention)
    ensures var p := Finished(id, retention, o);
            && p.Trained? && ArtifactOk(p.artifact, id) && ValidProvenance(p.provenance) && p.provenance.jobId == id
            && p.artifact.artifactHash == p.provenance.artifactHash && p.artifact.datasetHash == p.provenance.datasetHash
            && p.artifact.storageKey.None?
  {
  }

  lemma Registered(s: Jobs, id: Text, a: Artifact, p: Provenance, now: int)
    requires JobsOk(s) && Holds(s, id) && s[Find(s, id).value].artifacts == []
    requires ArtifactOk(a, id) && ValidProvenance(p) && p.jobId == id
    requires p.artifactHash == a.artifactHash && p.datasetHash == a.datasetHash
    ensures var i, r := Find(s, id).value, Register(s, id, a, p, now);
            && r.Ok? && JobsOk(r.value) && JobsEvolve(s, r.value)
            && r.value == s[i := s[i].(artifacts := [a], provenance := Some(p), updatedAt := now)]
            && Find(r.value, id) == Some(i)
  {
    hide RecordOk, ValidProvenance;
    var i := Find(s, id).value;
    assert s[i] in s;
    JobIdOk(s[i]);
    RegisterOk(s, id, a, p, now);
    assert s[i].artifacts + [a] == [a];
    FoundLater(s, Register(s, id, a, p, now).value, id);
  }

  lemma SucceededAt(cfg: Config, s: Jobs, t: Jobs, i: nat, now: int)
    requires OneResult(s) && i < |s| && |t| == |s| && t[i].status == Running && Find(t, t[i].id) == Some(i)
    requires |t[i].artifacts| == 1 && t[i].artifacts[0].storageKey.None? && s[i].artifacts == []
    requires forall k :: 0 <= k < |s| && k != i ==> t[k] == s[k]
    ensures var r := UpdateStatus(cfg, t, t[i].id, Succeeded, now);
            && r.Ok? && |r.value| == |s| && OneResult(r.value) && r.value[i].status == Succeeded
            && KeysKept(s, r.value) && OthersKept(s, r.value, i, now)
  {
    hide Move;
    MovedAt(cfg, t, i, Succeeded, now);
    var u := Move(cfg, t, i, Succeeded, now);
    forall k | 0 <= k < |s|
      ensures HoldsOne(u[k]) && KeyOf(u[k]) == KeyOf(s[k])
    {
      assert HoldsOne(s[k]);
      if k != i {
        assert u[k] == t[k] || (t[k].status == Queued && u[k] == Started(t[k], now));
      }
    }
  }
}
