/** What every record of a store satisfies, whatever runs. */
module JobInvariants {
  import opened Texts
  import opened Contracts
  import opened StateMachine
  import opened Jobs
  import opened Tokens

  /** An artifact as the workers register it for a job, its object key set or not. */
  predicate ArtifactOk(a: Artifact, jobId: Text) {
    && IsArtifactId(a.id)
    && a.jobId == jobId
    && IsHash(a.datasetHash)
    && IsHash(a.artifactHash)
    && a.provenanceId == Lit("provenance_") + jobId
    && ValidRetention(a.retention)
    && (a.storageKey.Some? ==> a.storageKey.value == StorageKey(jobId, a.id))
  }

  predicate DistinctArtifacts(artifacts: seq<Artifact>) {
    forall i, j :: 0 <= i < j < |artifacts| ==> artifacts[i].id != artifacts[j].id
  }

  /** The provenance of a job tells the hashes of its last artifact. */
  predicate ProvenanceMatches(p: Option<Provenance>, artifacts: seq<Artifact>) {
    artifacts != [] ==>
      && p.Some?
      && p.value.artifactHash == artifacts[|artifacts| - 1].artifactHash
      && p.value.datasetHash == artifacts[|artifacts| - 1].datasetHash
  }

  predicate RecordOk(r: Record) {
    && IsJobId(r.id)
    && (r.status == Deleted <==> r.request.None?)
    && (r.status == Deleted <==> r.deletedAt.Some?)
    && (r.request.Some? ==> ValidRequest(r.request.value))
    && (forall a :: a in r.artifacts ==> ArtifactOk(a, r.id))
    && DistinctArtifacts(r.artifacts)
    && (r.provenance.Some? ==> ValidProvenance(r.provenance.value) && r.provenance.value.jobId == r.id)
    && ProvenanceMatches(r.provenance, r.artifacts)
    && (r.status == Succeeded ==> r.artifacts != [])
    && (r.retryOf.Some? ==> IsJobId(r.retryOf.value))
  }

  predicate JobsOk(s: Jobs) {
    UniqueIds(s) && forall r :: r in s ==> RecordOk(r)
  }

  /** How a record may change: forward only, keeping what identifies it and its request until deletion. */
  predicate Evolves(r: Record, t: Record) {
    && t.id == r.id
    && t.retryOf == r.retryOf
    && t.createdAt == r.createdAt
    && Forward(r.status, t.status)
    && (t.request == r.request || (t.request.None? && t.status == Deleted))
    && (t.status != Deleted ==> |r.artifacts| <= |t.artifacts|)
  }

  /** A store after some operation: the same records, evolved, and possibly new ones behind them. */
  predicate JobsEvolve(s: Jobs, t: Jobs) {
    |s| <= |t| && forall i :: 0 <= i < |s| ==> Evolves(s[i], t[i])
  }

  lemma JobIdOk(r: Record)
    requires RecordOk(r)
    ensures IsJobId(r.id)
  {
  }

  lemma Unmoved(s: Jobs)
    ensures JobsEvolve(s, s)
  {
  }

  lemma EvolvesTransitive(a: Record, b: Record, c: Record)
    requires Evolves(a, b) && Evolves(b, c)
    ensures Evolves(a, c)
  {
    ForwardTransitive(a.status, b.status, c.status);
  }

  lemma JobsEvolveTransitive(a: Jobs, b: Jobs, c: Jobs)
    requires JobsEvolve(a, b) && JobsEvolve(b, c)
    ensures JobsEvolve(a, c)
  {
    forall i | 0 <= i < |a|
      ensures Evolves(a[i], c[i])
    {
      EvolvesTransitive(a[i], b[i], c[i]);
    }
  }

  // --- Every operation keeps the records in order

  /** Changing one record in place. */
  lemma UpdateOk(s: Jobs, i: nat, r: Record)
    requires JobsOk(s) && i < |s| && RecordOk(r) && Evolves(s[i], r)
    ensures JobsOk(s[i := r]) && JobsEvolve(s, s[i := r])
  {
    var t := s[i := r];
    forall x | x in t
      ensures RecordOk(x)
    {
      var k :| 0 <= k < |t| && t[k] == x;
    }
  }

  lemma AppendOk(s: Jobs, r: Record)
    requires JobsOk(s) && RecordOk(r) && !Holds(s, r.id)
    ensures JobsOk(s + [r]) && JobsEvolve(s, s + [r])
  {
  }

  lemma {:induction false} PromoteFirstOk(s: Jobs, k: nat, now: int)
    requires forall r :: r in s ==> RecordOk(r)
    ensures forall r :: r in PromoteFirst(s, k, now) ==> RecordOk(r)
    ensures JobsEvolve(s, PromoteFirst(s, k, now))
    decreases |s|
  {
    if s != [] && k > 0 {
      assert s[0] in s && (s[0].status == Queued ==> RecordOk(Started(s[0], now)));
      PromoteFirstOk(s[1..], if s[0].status == Queued then k - 1 else k, now);
    }
  }

  lemma EvolvedUnique(s: Jobs, t: Jobs)
    requires UniqueIds(s) && JobsEvolve(s, t) && |t| == |s|
    ensures UniqueIds(t)
  {
  }

  lemma PromoteOk(maxRunning: int, s: Jobs, now: int)
    requires JobsOk(s)
    ensures JobsOk(Promote(maxRunning, s, now)) && JobsEvolve(s, Promote(maxRunning, s, now))
  {
    hide RecordOk;
    PromoteFirstOk(s, FreeSlots(maxRunning, s), now);
    EvolvedUnique(s, Promote(maxRunning, s, now));
  }

  /** A move along the table; success needs an artifact, deletion is not a move. */
  lemma MoveOk(cfg: Config, s: Jobs, i: nat, status: Status, now: int)
    requires JobsOk(s) && i < |s| && Transition(s[i].status, status).Ok?
    requires status == Deleted ==> s[i].status == Deleted
    requires status == Succeeded ==> s[i].status == Succeeded || s[i].artifacts != []
    ensures JobsOk(Move(cfg, s, i, status, now)) && JobsEvolve(s, Move(cfg, s, i, status, now))
  {
    hide ArtifactOk, ProvenanceMatches, DistinctArtifacts, Promote;
    if s[i].status != status {
      var r := s[i].(status := status, updatedAt := now);
      assert s[i] in s;
      UpdateOk(s, i, r);
      if s[i].status == Running {
        PromoteOk(cfg.maxRunning, s[i := r], now);
        JobsEvolveTransitive(s, s[i := r], Promote(cfg.maxRunning, s[i := r], now));
      }
    }
  }

  lemma CreateOk(cfg: Config, s: Jobs, request: Request, now: int)
    requires JobsOk(s) && ValidRequest(request)
    requires Create(cfg, s, request, now).Ok?
    ensures JobsOk(Create(cfg, s, request, now).value) && JobsEvolve(s, Create(cfg, s, request, now).value)
  {
    hide ValidRequest, IsJobId;
    var id := StableJobId(cfg.sha, request);
    if !Holds(s, id) {
      AppendOk(s, NewRecord(id, request, None, now));
    }
  }

  lemma CancelOk(cfg: Config, s: Jobs, id: Text, now: int)
    requires JobsOk(s) && Cancel(cfg, s, id, now).Ok?
    ensures JobsOk(Cancel(cfg, s, id, now).value) && JobsEvolve(s, Cancel(cfg, s, id, now).value)
  {
    var i := Find(s, id).value;
    MoveOk(cfg, s, i, CancelTarget(s[i].status), now);
  }

  lemma UpdateStatusOk(cfg: Config, s: Jobs, id: Text, target: Status, now: int)
    requires JobsOk(s) && UpdateStatus(cfg, s, id, target, now).Ok?
    requires target == Running || target == Failed || target == Succeeded
    requires target == Succeeded ==> s[Find(s, id).value].status == Deleted || s[Find(s, id).value].artifacts != []
    ensures JobsOk(UpdateStatus(cfg, s, id, target, now).value)
    ensures JobsEvolve(s, UpdateStatus(cfg, s, id, target, now).value)
  {
    MoveOk(cfg, s, Find(s, id).value, target, now);
  }

  lemma RetriedOk(cfg: Config, s: Jobs, id: Text, attempt: nat, now: int)
    requires JobsOk(s) && RetryRefusal(cfg, s, id).None? && FreeAttempt(cfg.sha, s, id, attempt)
    ensures JobsOk(Retried(cfg, s, id, attempt, now)) && JobsEvolve(s, Retried(cfg, s, id, attempt, now))
  {
    hide ValidRequest, IsJobId;
    var i := Find(s, id).value;
    assert s[i] in s && RecordOk(s[i]);
    AppendOk(s, NewRecord(RetryId(cfg.sha, id, attempt), s[i].request.value, Some(id), now));
  }

  lemma RegisterOk(s: Jobs, id: Text, a: Artifact, p: Provenance, now: int)
    requires JobsOk(s) && Register(s, id, a, p, now).Ok?
    requires ArtifactOk(a, id) && p.jobId == id
    requires p.artifactHash == a.artifactHash && p.datasetHash == a.datasetHash
    ensures JobsOk(Register(s, id, a, p, now).value) && JobsEvolve(s, Register(s, id, a, p, now).value)
    ensures Register(s, id, a, p, now).value[Find(s, id).value].artifacts != []
  {
    hide ValidRequest, IsJobId, ArtifactOk, ValidProvenance;
    var i := Find(s, id).value;
    assert s[i] in s && RecordOk(s[i]);
    if !HasArtifact(s[i].artifacts, a.id) {
      var r := s[i].(artifacts := s[i].artifacts + [a], provenance := Some(p), updatedAt := now);
      assert forall k :: 0 <= k < |s[i].artifacts| ==> s[i].artifacts[k] in s[i].artifacts;
      UpdateOk(s, i, r);
    }
  }

  lemma KeyedOk(r: Record, artifactId: Text, now: int)
    requires RecordOk(r)
    ensures var t := r.(artifacts := WithKey(r.artifacts, artifactId, StorageKey(r.id, artifactId)), updatedAt := now);
            RecordOk(t) && Evolves(r, t)
  {
    hide ValidRequest, IsJobId, IsArtifactId, IsHash, ValidRetention, ValidProvenance, StorageKey;
    var artifacts := WithKey(r.artifacts, artifactId, StorageKey(r.id, artifactId));
    forall a | a in artifacts
      ensures ArtifactOk(a, r.id)
    {
      var k :| 0 <= k < |artifacts| && artifacts[k] == a;
      assert r.artifacts[k] in r.artifacts;
    }
  }

  lemma SetStorageKeyOk(s: Jobs, id: Text, artifactId: Text, now: int)
    requires JobsOk(s) && SetStorageKey(s, id, artifactId, StorageKey(id, artifactId), now).Ok?
    ensures var t := SetStorageKey(s, id, artifactId, StorageKey(id, artifactId), now).value;
            JobsOk(t) && JobsEvolve(s, t)
  {
    hide RecordOk, IsJobId, IsArtifactId, StorageKey, WithKey, Evolves;
    var i := Find(s, id).value;
    assert s[i] in s;
    KeyedOk(s[i], artifactId, now);
    UpdateOk(s, i, s[i].(artifacts := WithKey(s[i].artifacts, artifactId, StorageKey(id, artifactId)), updatedAt := now));
  }

  lemma TombstoneOk(r: Record, now: int, keepProvenance: bool)
    requires RecordOk(r) && r.status == Succeeded
    ensures RecordOk(Tombstone(r, now, keepProvenance)) && Evolves(r, Tombstone(r, now, keepProvenance))
  {
    hide ValidRequest, IsJobId, ValidProvenance;
  }

  lemma DeleteArtifactOk(s: Jobs, id: Text, artifactId: Text, now: int)
    requires JobsOk(s) && DeleteArtifact(s, id, artifactId, now).Ok?
    ensures var t := DeleteArtifact(s, id, artifactId, now).value.0; JobsOk(t) && JobsEvolve(s, t)
  {
    hide RecordOk, FindArtifact;
    var i := Find(s, id).value;
    if s[i].status != Deleted {
      assert s[i] in s;
      TombstoneOk(s[i], now, false);
      UpdateOk(s, i, Tombstone(s[i], now, false));
    }
  }

  lemma ExpireOk(r: Record, now: int, stamp: int)
    requires RecordOk(r)
    ensures RecordOk(Expire(r, now, stamp)) && Evolves(r, Expire(r, now, stamp))
  {
    if Expired(r, now) {
      TombstoneOk(r, stamp, true);
    }
  }

  lemma EvaluateExpiryOk(s: Jobs, id: Text, now: int, stamp: int)
    requires JobsOk(s) && EvaluateExpiry(s, id, now, stamp).Ok?
    ensures JobsOk(EvaluateExpiry(s, id, now, stamp).value) && JobsEvolve(s, EvaluateExpiry(s, id, now, stamp).value)
  {
    hide RecordOk, Expire;
    var i := Find(s, id).value;
    assert s[i] in s;
    ExpireOk(s[i], now, stamp);
    UpdateOk(s, i, Expire(s[i], now, stamp));
  }

  lemma SweepOk(s: Jobs, now: int, stamp: int)
    requires JobsOk(s)
    ensures JobsOk(Sweep(s, now, stamp)) && JobsEvolve(s, Sweep(s, now, stamp))
  {
    hide RecordOk, Expire;
    var t := Sweep(s, now, stamp);
    forall i | 0 <= i < |s|
      ensures RecordOk(t[i]) && Evolves(s[i], t[i])
    {
      assert s[i] in s;
      ExpireOk(s[i], now, stamp);
    }
    EvolvedUnique(s, t);
  }
}
