/**
 What holds besides when the process has started with an empty store: its own records tell in which order jobs
 were created, and every job was let in by the dataset store of this process.
 */
module ProtocolFreshStart {
  import opened Texts
  import opened Contracts
  import opened StateMachine
  import opened Jobs
  import opened JobFacts
  import opened JobInvariants
  import opened Datasets
  import opened Tokens
  import opened Protocol
  import opened ProtocolInvariants

  // --- Lineage by position

  ghost predicate HasEarlierParent(s: Jobs, i: nat) {
    exists k: nat :: k < i && IsParent(s, k, i)
  }

  /** Every retry stands behind its parent. */
  ghost predicate LineageInOrder(s: Jobs) {
    forall i: nat :: i < |s| && s[i].retryOf.Some? ==> HasEarlierParent(s, i)
  }

  lemma OrderKept(s: Jobs, t: Jobs)
    requires LineageInOrder(s) && JobsEvolve(s, t) && |t| == |s|
    ensures LineageInOrder(t)
  {
    hide IsParent;
    forall i: nat | i < |t| && t[i].retryOf.Some?
      ensures HasEarlierParent(t, i)
    {
      assert Evolves(s[i], t[i]) && HasEarlierParent(s, i);
      var k: nat :| k < i && IsParent(s, k, i);
      ParentKept(s, t, k, i);
    }
  }

  lemma OrderAppend(s: Jobs, r: Record)
    requires LineageInOrder(s)
    requires r.retryOf.Some? ==> exists k: nat :: k < |s| && IsParent(s + [r], k, |s|)
    ensures LineageInOrder(s + [r])
  {
    var t := s + [r];
    forall i: nat | i < |t| && t[i].retryOf.Some?
      ensures HasEarlierParent(t, i)
    {
      if i < |s| {
        assert HasEarlierParent(s, i);
        var k: nat :| k < i && IsParent(s, k, i);
        assert IsParent(t, k, i);
      }
    }
  }

  // --- The approval gate

  /** Every job that still has a request has it for a dataset that is approved. */
  predicate GateHolds(s: Jobs, ds: Registry) {
    forall i :: 0 <= i < |s| && s[i].request.Some? ==> IsApproved(ds, s[i].request.value.datasetId)
  }

  lemma GateKept(s: Jobs, t: Jobs, ds: Registry, later: Registry)
    requires GateHolds(s, ds) && JobsEvolve(s, t) && |t| == |s| && DecisionsStand(ds, later)
    ensures GateHolds(t, later)
  {
    forall i | 0 <= i < |t| && t[i].request.Some?
      ensures IsApproved(later, t[i].request.value.datasetId)
    {
      assert Evolves(s[i], t[i]);
      ApprovedStands(ds, later, s[i].request.value.datasetId);
    }
  }

  // --- Both

  ghost predicate FreshJobs(s: Jobs, ds: Registry) {
    LineageInOrder(s) && GateHolds(s, ds)
  }

  ghost predicate FreshInv(s: System) {
    FreshJobs(s.jobs, s.datasets)
  }

  lemma NothingAdded(s: Jobs, t: Jobs, ds: Registry, later: Registry)
    requires FreshJobs(s, ds) && JobsEvolve(s, t) && DecisionsStand(ds, later) && |t| == |s|
    ensures FreshJobs(t, later)
  {
    hide LineageInOrder, GateHolds, DecisionsStand, Evolves;
    OrderKept(s, t);
    GateKept(s, t, ds, later);
  }

  lemma OneAdded(s: Jobs, r: Record, ds: Registry)
    requires FreshJobs(s, ds)
    requires r.retryOf.Some? ==> exists k: nat :: k < |s| && IsParent(s + [r], k, |s|)
    requires r.request.Some? && IsApproved(ds, r.request.value.datasetId)
    ensures FreshJobs(s + [r], ds)
  {
    hide LineageInOrder, IsParent, IsApproved;
    OrderAppend(s, r);
  }

  lemma CreatedFresh(cfg: Config, s: Jobs, q: Request, now: int, ds: Registry)
    requires FreshJobs(s, ds) && ValidRequest(q) && IsApproved(ds, q.datasetId) && Create(cfg, s, q, now).Ok?
    ensures FreshJobs(Create(cfg, s, q, now).value, ds)
  {
    hide FreshJobs, StableJobId, ValidRequest, IsApproved, Count;
    if !Holds(s, StableJobId(cfg.sha, q)) {
      OneAdded(s, NewRecord(StableJobId(cfg.sha, q), q, None, now), ds);
    }
  }

  lemma RetriedFresh(cfg: Config, s: Jobs, id: Text, n: nat, now: int, ds: Registry)
    requires JobsOk(s) && FreshJobs(s, ds) && RetryRefusal(cfg, s, id).None?
    ensures FreshJobs(Retried(cfg, s, id, n, now), ds)
  {
    hide LineageInOrder, RetryId, RetryRefusal, IsParent, IsApproved, Find, RecordOk;
    RetriedParent(cfg, s, id, n, now);
    var k := Find(s, id).value;
    OneAdded(s, NewRecord(RetryId(cfg.sha, id, n), s[k].request.value, Some(id), now), ds);
  }

  /** The number of jobs changes only where a request creates or retries one. */
  lemma SameNumberOfJobs(cfg: Config, forbidden: LabelTest, s: System, e: Event)
    requires !(e.StoreCreate? || e.StoreRetry?)
    ensures |Next(cfg, forbidden, s, e).jobs| == |s.jobs|
  {
    hide Move, Finished, WithKey, FindArtifact, FirstExpired, HasArtifact, Find, ValidProvenance, IsApproved,
      ValidRequest, RegisterShape, Submit, Approve, Reject;
  }

  lemma CreateStaysFresh(cfg: Config, forbidden: LabelTest, s: System, e: Event)
    requires Inv(cfg, forbidden, s) && FreshInv(s) && e.StoreCreate?
    ensures FreshInv(Next(cfg, forbidden, s, e))
  {
    hide Inv, FreshJobs, StableJobId, ValidRequest, IsApproved, Create;
    if e.c in s.calls && s.calls[e.c].Gated? {
      GatedOk(cfg, forbidden, s, e.c);
      if Create(cfg, s.jobs, s.calls[e.c].request, e.now).Ok? {
        CreatedFresh(cfg, s.jobs, s.calls[e.c].request, e.now, s.datasets);
      }
    }
  }

  lemma GatedOk(cfg: Config, forbidden: LabelTest, s: System, c: nat)
    requires Inv(cfg, forbidden, s) && c in s.calls && s.calls[c].Gated?
    ensures ValidRequest(s.calls[c].request) && IsApproved(s.datasets, s.calls[c].request.datasetId)
  {
    assert PhaseOk(s.jobs, s.datasets, s.calls[c]);
  }

  lemma RetryStaysFresh(cfg: Config, forbidden: LabelTest, s: System, e: Event)
    requires Inv(cfg, forbidden, s) && FreshInv(s) && e.StoreRetry?
    ensures FreshInv(Next(cfg, forbidden, s, e))
  {
    hide Inv, FreshJobs, RetryId, RetryRefusal, RetryAttempt, Retried;
    if e.c in s.calls && s.calls[e.c].Retrying? {
      var original := s.calls[e.c].original;
      var n := RetryAttempt(cfg.sha, s.jobs, original);
      if RetryRefusal(cfg, s.jobs, original).None? && n.Some? {
        JobsOfInv(cfg, forbidden, s);
        RetriedFresh(cfg, s.jobs, original, n.value, e.now, s.datasets);
      }
    }
  }

  lemma NextStaysFresh(cfg: Config, forbidden: LabelTest, s: System, e: Event)
    requires Inv(cfg, forbidden, s) && FreshInv(s)
    ensures FreshInv(Next(cfg, forbidden, s, e))
  {
    hide Inv, FreshJobs, Next, JobsEvolve, DecisionsStand;
    if e.StoreCreate? {
      CreateStaysFresh(cfg, forbidden, s, e);
    } else if e.StoreRetry? {
      RetryStaysFresh(cfg, forbidden, s, e);
    } else {
      NextKeeps(cfg, forbidden, s, e);
      SameNumberOfJobs(cfg, forbidden, s, e);
      var t := Next(cfg, forbidden, s, e);
      NothingAdded(s.jobs, t.jobs, s.datasets, t.datasets);
    }
  }

  /** Every interleaving keeps it. */
  lemma {:induction false} RunStaysFresh(cfg: Config, forbidden: LabelTest, s: System, events: seq<Event>)
    requires Inv(cfg, forbidden, s) && FreshInv(s)
    ensures FreshInv(Run(cfg, forbidden, s, events))
    decreases |events|
  {
    hide Inv, FreshInv, Next;
    if events != [] {
      RunKeeps(cfg, forbidden, s, events[..|events| - 1]);
      RunStaysFresh(cfg, forbidden, s, events[..|events| - 1]);
      NextStaysFresh(cfg, forbidden, Run(cfg, forbidden, s, events[..|events| - 1]), events[|events| - 1]);
    }
  }
}
