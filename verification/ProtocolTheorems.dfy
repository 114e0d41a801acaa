/** What holds of the service after every interleaving of requests, from an empty store on. */
module ProtocolTheorems {
  import opened Texts
  import opened Json
  import opened Contracts
  import opened StateMachine
  import opened Jobs
  import opened JobFacts
  import opened JobInvariants
  import opened Datasets
  import opened Protocol
  import opened ProtocolInvariants
  import opened ProtocolFreshStart

  /** The system some interleaving leads to, from a fresh start. */
  ghost function Reached(cfg: Config, forbidden: LabelTest, now: int, events: seq<Event>): System {
    Run(cfg, forbidden, Initial(cfg, now), events)
  }

  lemma ReachedInv(cfg: Config, forbidden: LabelTest, now: int, events: seq<Event>)
    requires SchemaAllowed(forbidden)
    ensures Inv(cfg, forbidden, Reached(cfg, forbidden, now, events))
  {
    hide Inv, SchemaAllowed, Initial;
    InitialInv(cfg, forbidden, now);
    RunKeeps(cfg, forbidden, Initial(cfg, now), events);
  }

  lemma ReachedFresh(cfg: Config, forbidden: LabelTest, now: int, events: seq<Event>)
    requires SchemaAllowed(forbidden)
    ensures FreshInv(Reached(cfg, forbidden, now, events))
  {
    hide Inv, SchemaAllowed;
    InitialInv(cfg, forbidden, now);
    RunStaysFresh(cfg, forbidden, Initial(cfg, now), events);
  }

  lemma {:induction false} RunSplits(cfg: Config, forbidden: LabelTest, s: System, a: seq<Event>, b: seq<Event>)
    ensures Run(cfg, forbidden, s, a + b) == Run(cfg, forbidden, Run(cfg, forbidden, s, a), b)
    decreases |b|
  {
    hide Next;
    if b == [] {
      assert a + b == a;
    } else {
      RunSplits(cfg, forbidden, s, a, b[..|b| - 1]);
      assert (a + b)[..|a + b| - 1] == a + b[..|b| - 1];
    }
  }

  // --- Jobs

  /** A succeeded job has artifacts with different ids, and provenance that tells the hashes of the last one. */
  lemma SucceededHasResult(cfg: Config, forbidden: LabelTest, now: int, events: seq<Event>, i: nat)
    requires SchemaAllowed(forbidden)
    requires i < |Reached(cfg, forbidden, now, events).jobs|
    requires Reached(cfg, forbidden, now, events).jobs[i].status == Succeeded
    ensures var r := Reached(cfg, forbidden, now, events).jobs[i];
            && |r.artifacts| > 0
            && (forall j, k :: 0 <= j < k < |r.artifacts| ==> r.artifacts[j].id != r.artifacts[k].id)
            && r.provenance.Some?
            && r.provenance.value.jobId == r.id
            && r.provenance.value.artifactHash == r.artifacts[|r.artifacts| - 1].artifactHash
            && r.provenance.value.datasetHash == r.artifacts[|r.artifacts| - 1].datasetHash
            && ValidProvenance(r.provenance.value)
  {
    hide Run, ValidProvenance, SchemaAllowed, ArtifactOk, Reached, ValidRequest, UniqueIds, Decided, PermitsConserved,
      PhasesOk, Lineage, IdOrigins, WithinQuota, IsJobId;
    ReachedInv(cfg, forbidden, now, events);
    var jobs := Reached(cfg, forbidden, now, events).jobs;
    assert jobs[i] in jobs;
  }

  /** However a run goes on, no job is lost, none gets another id or lineage, and no status ever moves back. */
  lemma StatusesMoveForward(cfg: Config, forbidden: LabelTest, now: int, a: seq<Event>, b: seq<Event>, i: nat)
    requires SchemaAllowed(forbidden)
    requires i < |Reached(cfg, forbidden, now, a).jobs|
    ensures var s, t := Reached(cfg, forbidden, now, a).jobs, Reached(cfg, forbidden, now, a + b).jobs;
            && i < |t|
            && t[i].id == s[i].id
            && t[i].retryOf == s[i].retryOf
            && (exists via :: Path(s[i].status, via, t[i].status))
            && (t[i].request == s[i].request || t[i].status == Deleted)
  {
    hide Inv, Path, Forward, SchemaAllowed, Next;
    ReachedInv(cfg, forbidden, now, a);
    RunSplits(cfg, forbidden, Initial(cfg, now), a, b);
    RunKeeps(cfg, forbidden, Reached(cfg, forbidden, now, a), b);
    var s, t := Reached(cfg, forbidden, now, a).jobs, Reached(cfg, forbidden, now, a + b).jobs;
    assert Evolves(s[i], t[i]);
    ForwardIsReachable(s[i].status, t[i].status);
  }

  /** Queued and running jobs stay within the limit, worker calls in flight within the permits; none is lost. */
  lemma QuotaAndPermits(cfg: Config, forbidden: LabelTest, now: int, events: seq<Event>)
    requires SchemaAllowed(forbidden)
    ensures var s := Reached(cfg, forbidden, now, events);
            && ActiveCount(s.jobs) <= (if cfg.queueLimit > 0 then cfg.queueLimit else 0)
            && (forall c :: c in s.holders <==> c in s.calls && HoldsPermit(s.calls[c]))
            && |s.holders| <= cfg.maxRunning
            && s.permits == cfg.maxRunning - |s.holders|
            && (s.calls == map[] ==> s.permits == cfg.maxRunning)
  {
    hide Run, SchemaAllowed, StoreInv, Decided, PhasesOk, HoldsPermit;
    ReachedInv(cfg, forbidden, now, events);
    ReachedQuota(cfg, forbidden, now, events);
    var s := Reached(cfg, forbidden, now, events);
    if s.calls == map[] {
      assert s.holders == {};
    }
  }

  lemma ReachedQuota(cfg: Config, forbidden: LabelTest, now: int, events: seq<Event>)
    requires Inv(cfg, forbidden, Reached(cfg, forbidden, now, events))
    ensures WithinQuota(cfg, Reached(cfg, forbidden, now, events).jobs)
  {
    hide Run;
  }

  /** Every job that is no tombstone, retries included, is for a dataset that is approved now. */
  lemma GateOutlivesCreation(cfg: Config, forbidden: LabelTest, now: int, events: seq<Event>, i: nat)
    requires SchemaAllowed(forbidden)
    requires i < |Reached(cfg, forbidden, now, events).jobs|
    requires Reached(cfg, forbidden, now, events).jobs[i].status != Deleted
    ensures var s := Reached(cfg, forbidden, now, events);
            && s.jobs[i].request.Some?
            && IsApproved(s.datasets, s.jobs[i].request.value.datasetId)
            && Verdict(forbidden, s.datasets[s.jobs[i].request.value.datasetId].shape).None?
  {
    hide Run, SchemaAllowed, ValidRequest, Verdict, TrainingDatasetId;
    ReachedInv(cfg, forbidden, now, events);
    ReachedFresh(cfg, forbidden, now, events);
    var s := Reached(cfg, forbidden, now, events);
    assert s.jobs[i] in s.jobs && RecordOk(s.jobs[i]);
  }

  /**
   Review decisions follow from shapes and are permanent: at every point of a run no dataset is pending, the
   approved ones are those decided whose shape validates, the rejected ones carry the verdict on their shape, and
   whatever follows no dataset is lost or changes its shape and no decision changes.
   */
  lemma DecisionsFollowShapes(cfg: Config, forbidden: LabelTest, now: int, a: seq<Event>, b: seq<Event>, id: Text)
    requires SchemaAllowed(forbidden)
    requires id in Reached(cfg, forbidden, now, a).datasets
    ensures var ds, later := Reached(cfg, forbidden, now, a).datasets, Reached(cfg, forbidden, now, a + b).datasets;
            && ds[id].status != PendingReview
            && (ds[id].status != Registered ==>
                  && (ds[id].status == Approved <==> Verdict(forbidden, ds[id].shape).None?)
                  && ds[id].reason == Verdict(forbidden, ds[id].shape))
            && id in later && later[id].shape == ds[id].shape
            && (ds[id].status != Registered ==> later[id].status == ds[id].status && later[id].reason == ds[id].reason)
  {
    hide SchemaAllowed, Next, Verdict, StoreInv, PhasesOk, PermitsConserved, JobsEvolve;
    ReachedInv(cfg, forbidden, now, a);
    RunSplits(cfg, forbidden, Initial(cfg, now), a, b);
    RunKeeps(cfg, forbidden, Reached(cfg, forbidden, now, a), b);
    assert RecordDecided(forbidden, Reached(cfg, forbidden, now, a).datasets[id]);
  }

  // --- Retry lineage

  lemma ParentFound(s: Jobs, i: nat)
    requires UniqueIds(s) && LineageInOrder(s) && i < |s| && s[i].retryOf.Some?
    ensures Find(s, s[i].retryOf.value).Some? && Find(s, s[i].retryOf.value).value < i
    ensures IsParent(s, Find(s, s[i].retryOf.value).value, i)
  {
    assert HasEarlierParent(s, i);
    var k: nat :| k < i && IsParent(s, k, i);
    FindAt(s, k);
  }

  /** Where the retry links of a job lead in the end. */
  ghost function Root(s: Jobs, i: nat): (r: nat)
    requires UniqueIds(s) && LineageInOrder(s) && i < |s|
    ensures r <= i
    decreases i
  {
    if s[i].retryOf.None? then i
    else
      ParentFound(s, i);
      Root(s, Find(s, s[i].retryOf.value).value)
  }

  lemma {:induction false} RootFacts(s: Jobs, i: nat)
    requires UniqueIds(s) && LineageInOrder(s) && i < |s|
    ensures s[Root(s, i)].retryOf.None?
    ensures Root(s, i) != i ==> s[Root(s, i)].status == Failed || s[Root(s, i)].status == Cancelled
    ensures s[i].request.Some? ==> s[i].request == s[Root(s, i)].request
    decreases i
  {
    if s[i].retryOf.Some? {
      ParentFound(s, i);
      RootFacts(s, Find(s, s[i].retryOf.value).value);
    }
  }

  lemma {:induction false} RootStays(s: Jobs, t: Jobs, i: nat)
    requires UniqueIds(s) && LineageInOrder(s) && UniqueIds(t) && LineageInOrder(t) && JobsEvolve(s, t) && i < |s|
    ensures Root(t, i) == Root(s, i)
    decreases i
  {
    assert Evolves(s[i], t[i]);
    if s[i].retryOf.Some? {
      ParentFound(s, i);
      FoundLater(s, t, s[i].retryOf.value);
      RootStays(s, t, Find(s, s[i].retryOf.value).value);
    }
  }

  /**
   Retries form a forest. Every retry link leads to an earlier job of the store that is over without result;
   following the links ends at a job that is no retry, whose request every live descendant has; and no later
   event ever changes where they end.
   */
  lemma LineageIsForest(cfg: Config, forbidden: LabelTest, now: int, a: seq<Event>, b: seq<Event>, i: nat)
    requires SchemaAllowed(forbidden)
    requires i < |Reached(cfg, forbidden, now, a).jobs|
    ensures var s, t := Reached(cfg, forbidden, now, a).jobs, Reached(cfg, forbidden, now, a + b).jobs;
            && UniqueIds(s) && LineageInOrder(s) && UniqueIds(t) && LineageInOrder(t) && i < |t|
            && s[Root(s, i)].retryOf.None?
            && (s[i].retryOf.Some? ==>
                  && Find(s, s[i].retryOf.value).Some?
                  && Find(s, s[i].retryOf.value).value < i
                  && Root(s, i) < i
                  && (s[Root(s, i)].status == Failed || s[Root(s, i)].status == Cancelled))
            && (s[i].status != Deleted ==> s[i].request == s[Root(s, i)].request)
            && Root(t, i) == Root(s, i)
  {
    hide Reached, SchemaAllowed, RecordOk, Evolves, Root, UniqueIds, HasEarlierParent, LineageInOrder;
    ReachedLineage(cfg, forbidden, now, a);
    ReachedLineage(cfg, forbidden, now, a + b);
    var s, t := Reached(cfg, forbidden, now, a).jobs, Reached(cfg, forbidden, now, a + b).jobs;
    ReachedLater(cfg, forbidden, now, a, b);
    RootStays(s, t, i);
    Descends(s, i);
  }

  lemma Descends(s: Jobs, i: nat)
    requires JobsOk(s) && LineageInOrder(s) && i < |s|
    ensures s[Root(s, i)].retryOf.None?
    ensures s[i].retryOf.Some? ==>
              && Find(s, s[i].retryOf.value).Some?
              && Find(s, s[i].retryOf.value).value < i
              && Root(s, i) < i
              && (s[Root(s, i)].status == Failed || s[Root(s, i)].status == Cancelled)
    ensures s[i].status != Deleted ==> s[i].request == s[Root(s, i)].request
  {
    hide ValidRequest, LineageInOrder, ArtifactOk, ValidProvenance, DistinctArtifacts, ProvenanceMatches;
    RootFacts(s, i);
    if s[i].retryOf.Some? {
      ParentFound(s, i);
    }
    assert s[i] in s && RecordOk(s[i]);
  }

  lemma ReachedLineage(cfg: Config, forbidden: LabelTest, now: int, events: seq<Event>)
    requires SchemaAllowed(forbidden)
    ensures var s := Reached(cfg, forbidden, now, events).jobs; JobsOk(s) && LineageInOrder(s)
  {
    hide Run, SchemaAllowed, RecordOk, HasEarlierParent, Lineage;
    ReachedInv(cfg, forbidden, now, events);
    ReachedFresh(cfg, forbidden, now, events);
  }

  lemma ReachedLater(cfg: Config, forbidden: LabelTest, now: int, a: seq<Event>, b: seq<Event>)
    requires SchemaAllowed(forbidden)
    ensures JobsEvolve(Reached(cfg, forbidden, now, a).jobs, Reached(cfg, forbidden, now, a + b).jobs)
  {
    hide Inv, SchemaAllowed, Next, Evolves;
    ReachedInv(cfg, forbidden, now, a);
    RunSplits(cfg, forbidden, Initial(cfg, now), a, b);
    RunKeeps(cfg, forbidden, Reached(cfg, forbidden, now, a), b);
  }

  // --- Creating twice

  /** A fingerprint is the text of an object, so it is never the seed of a retry id. */
  lemma FingerprintIsNoSeed(q: Request, original: Text, n: nat)
    requires ValidRequest(q) && IsJobId(original)
    ensures Fingerprint(q) != RetrySeed(original, n)
  {
    hide ValidRequest, PrintMembers, RetentionJson, ParamsJson;
    assert Fingerprint(q)[0] == LBRACE;
    assert original[..4][0] == Lit("job_")[0];
  }

  /** Two different texts with the same job id. */
  predicate Clash(sha: Sha, t: Text, u: Text) {
    t != u && DigestJobId(sha, t) == DigestJobId(sha, u)
  }

  /**
   Whose job it is that has the id of a request, whatever the digests do: a root's request is this one in every
   field exactly when the two fingerprints do not clash, and a retry has the id only by a clash of its own seed
   with the fingerprint.
   */
  lemma OwnJobUnlessClash(cfg: Config, s: Jobs, q: Request)
    requires StoreInv(cfg, s) && ValidRequest(q) && Holds(s, StableJobId(cfg.sha, q))
    ensures var r := s[Find(s, StableJobId(cfg.sha, q)).value];
            && (r.retryOf.Some? ==>
                  exists n :: r.id == RetryId(cfg.sha, r.retryOf.value, n) && Clash(cfg.sha, RetrySeed(r.retryOf.value, n), Fingerprint(q)))
            && (r.retryOf.None? && r.request.Some? ==>
                  && ValidRequest(r.request.value)
                  && (r.request == Some(q) <==> !Clash(cfg.sha, Fingerprint(r.request.value), Fingerprint(q))))
  {
    hide ValidRequest, Fingerprint, DigestJobId, RetrySeed, Lineage, WithinQuota, IsJobId;
    var i := Find(s, StableJobId(cfg.sha, q)).value;
    var r := s[i];
    assert r in s && RecordOk(r) && IdOrigin(cfg.sha, s[i]);
    if r.retryOf.Some? {
      var n :| r.id == RetryId(cfg.sha, r.retryOf.value, n);
      FingerprintIsNoSeed(q, r.retryOf.value, n);
      assert Clash(cfg.sha, RetrySeed(r.retryOf.value, n), Fingerprint(q));
    } else if r.request.Some? && Fingerprint(r.request.value) == Fingerprint(q) {
      FingerprintInjective(q, r.request.value);
    }
  }

  /** The seeds and fingerprints behind the ids of the jobs in the store do not clash with the request's fingerprint. */
  ghost predicate ToldApart(sha: Sha, s: Jobs, q: Request)
    requires ValidRequest(q)
  {
    forall i :: 0 <= i < |s| ==>
      && (forall n :: s[i].retryOf.Some? && s[i].id == RetryId(sha, s[i].retryOf.value, n) ==>
            !Clash(sha, RetrySeed(s[i].retryOf.value, n), Fingerprint(q)))
      && (s[i].retryOf.None? && s[i].request.Some? && ValidRequest(s[i].request.value) ==>
            !Clash(sha, Fingerprint(s[i].request.value), Fingerprint(q)))
  }

  /**
   When the texts behind the ids in the store are told apart from its fingerprint, a job with the id of a request
   is that request's own job: it is no retry, and unless it is a tombstone its request is the same in every field.
   */
  lemma OwnJob(cfg: Config, s: Jobs, q: Request)
    requires StoreInv(cfg, s) && ValidRequest(q) && ToldApart(cfg.sha, s, q)
    requires Holds(s, StableJobId(cfg.sha, q))
    ensures var r := s[Find(s, StableJobId(cfg.sha, q)).value];
            r.retryOf.None? && (r.status == Deleted || r.request == Some(q))
  {
    hide ValidRequest, Fingerprint, StableJobId, RetryId, RetrySeed, StoreInv, Clash;
    OwnJobUnlessClash(cfg, s, q);
    LiveRequest(cfg, s, Find(s, StableJobId(cfg.sha, q)).value);
  }

  lemma LiveRequest(cfg: Config, s: Jobs, i: nat)
    requires StoreInv(cfg, s) && i < |s|
    ensures s[i].status == Deleted <==> s[i].request.None?
  {
    assert s[i] in s && RecordOk(s[i]);
  }

  /**
   Creating is idempotent in every interleaving: once a request has its job, creating it again, whatever
   happened in between and however full the queue is, changes nothing and leads to that same job.
   */
  lemma CreateIsIdempotent(cfg: Config, forbidden: LabelTest, s: System, q: Request, now: int, events: seq<Event>,
      later: int)
    requires Inv(cfg, forbidden, s) && ValidRequest(q) && Create(cfg, s.jobs, q, now).Ok?
    ensures var id := StableJobId(cfg.sha, q);
            var t := s.(jobs := Create(cfg, s.jobs, q, now).value);
            var u := Run(cfg, forbidden, t, events);
            && Create(cfg, u.jobs, q, later) == Ok(u.jobs)
            && Holds(t.jobs, id) && Find(u.jobs, id) == Find(t.jobs, id)
  {
    hide Run, ValidRequest, StableJobId, Fingerprint, Lineage, IdOrigins, Decided, PhaseOk;
    StoreKeptByCreate(cfg, s.jobs, q, now);
    var t := s.(jobs := Create(cfg, s.jobs, q, now).value);
    CreatedInv(cfg, forbidden, s, t.jobs);
    RunKeeps(cfg, forbidden, t, events);
    var u := Run(cfg, forbidden, t, events);
    FoundLater(t.jobs, u.jobs, StableJobId(cfg.sha, q));
  }

  lemma CreatedInv(cfg: Config, forbidden: LabelTest, s: System, jobs: Jobs)
    requires Inv(cfg, forbidden, s) && StoreInv(cfg, jobs) && JobsEvolve(s.jobs, jobs)
    ensures Inv(cfg, forbidden, s.(jobs := jobs))
  {
    hide Decided, PhaseOk, Lineage, IdOrigins, WithinQuota, RecordOk, DecisionsStand;
    Standing(s.datasets);
    forall d | d in s.calls
      ensures PhaseOk(jobs, s.datasets, s.calls[d])
    {
      PhaseKept(s.jobs, jobs, s.datasets, s.datasets, s.calls[d]);
    }
  }
}
