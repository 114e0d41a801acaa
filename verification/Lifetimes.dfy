/**
 Processes that end and start again: what of the interleavings' invariant survives a restart, what every further
 interleaving keeps, and exactly when the rest survives as well.
 */
module Lifetimes {
  import opened Texts
  import opened Contracts
  import opened StateMachine
  import opened Jobs
  import opened JobFacts
  import opened JobInvariants
  import opened Datasets
  import opened Sorting
  import opened Persistence
  import opened Restarts
  import opened Protocol
  import opened ProtocolInvariants
  import opened ProtocolFreshStart

  /** A new process over the saved jobs: a fresh dataset store, all permits, no request in flight. */
  function RestartedSystem(cfg: Config, s: System, now: int): System {
    System(AfterRestart(s.jobs), InitialRegistry(now), cfg.maxRunning, map[], {})
  }

  // --- What survives

  lemma OriginRestarted(sha: Sha, r: Record)
    requires IdOrigin(sha, r)
    ensures IdOrigin(sha, Restarted(r))
  {
    hide StableJobId, RetryId, ValidRequest, KeylessAll;
  }

  lemma OriginsRestarted(sha: Sha, s: Jobs)
    requires UniqueIds(s) && IdOrigins(sha, s)
    ensures IdOrigins(sha, AfterRestart(s))
  {
    hide IdOrigin, SortById, Restarted;
    SortByIdSorts(s);
    var u := SortById(s);
    forall i | 0 <= i < |u|
      ensures IdOrigin(sha, Restarted(u[i]))
    {
      assert u[i] in s;
      var k :| 0 <= k < |s| && s[k] == u[i];
      OriginRestarted(sha, u[i]);
    }
  }

  lemma QuotaRestarted(cfg: Config, s: Jobs)
    requires WithinQuota(cfg, s)
    ensures WithinQuota(cfg, AfterRestart(s))
  {
    hide SortById, Count;
    RestartCounts(SortById(s), Queued);
    RestartCounts(SortById(s), Running);
    CountSorted(s, Queued);
    CountSorted(s, Running);
  }

  /** Where a record stands after a restart. */
  lemma StandsAgain(s: Jobs, i: nat) returns (j: nat)
    requires UniqueIds(s) && i < |s|
    ensures j < |AfterRestart(s)| && AfterRestart(s)[j] == Restarted(s[i])
  {
    hide SortById, Restarted;
    SortByIdSorts(s);
    assert s[i] in s && s[i] in SortById(s);
    j :| j < |s| && SortById(s)[j] == s[i];
  }

  lemma StoodBefore(s: Jobs, j: nat) returns (i: nat)
    requires UniqueIds(s) && j < |AfterRestart(s)|
    ensures i < |s| && AfterRestart(s)[j] == Restarted(s[i])
  {
    hide SortById, Restarted;
    SortByIdSorts(s);
    assert SortById(s)[j] in s;
    i :| i < |s| && s[i] == SortById(s)[j];
  }

  lemma ParentRestarted(s: Jobs, t: Jobs, k: nat, i: nat, l: nat, j: nat)
    requires IsParent(s, k, i) && l < |t| && j < |t| && t[l] == Restarted(s[k]) && t[j] == Restarted(s[i])
    ensures IsParent(t, l, j)
  {
    hide KeylessAll;
  }

  lemma LineageRestarted(s: Jobs)
    requires UniqueIds(s) && Lineage(s)
    ensures Lineage(AfterRestart(s))
  {
    hide IsParent, AfterRestart, KeylessAll;
    var t := AfterRestart(s);
    var rank :| Ranked(s, rank);
    forall j: nat | j < |t| && t[j].retryOf.Some?
      ensures HasParent(t, rank, j)
    {
      var i := StoodBefore(s, j);
      assert HasParent(s, rank, i);
      var k: nat :| k < |s| && IsParent(s, k, i) && rank(s[k].id) < rank(s[i].id);
      var l := StandsAgain(s, k);
      ParentRestarted(s, t, k, i, l, j);
    }
    assert Ranked(t, rank);
  }

  lemma StoreRestarted(cfg: Config, s: Jobs)
    requires StoreInv(cfg, s)
    ensures StoreInv(cfg, AfterRestart(s))
  {
    hide AfterRestart, RecordOk, IdOrigins, Lineage, WithinQuota, UniqueIds;
    RestartKeepsJobs(s, []);
    QuotaRestarted(cfg, s);
    LineageRestarted(s);
    OriginsRestarted(cfg.sha, s);
  }

  /** The invariant of interleavings survives a restart. */
  lemma RestartKeepsInv(cfg: Config, forbidden: LabelTest, s: System, now: int)
    requires Inv(cfg, forbidden, s) && SchemaAllowed(forbidden)
    ensures Inv(cfg, forbidden, RestartedSystem(cfg, s, now))
  {
    hide StoreInv, AfterRestart, Decided, SchemaAllowed, InitialRegistry;
    StoreRestarted(cfg, s.jobs);
    InitialDecided(forbidden, now);
  }

  // --- Several lifetimes

  /** A process: when it starts and what happens while it runs. */
  datatype Life = Life(start: int, events: seq<Event>)

  /** The system after some lifetimes, each from the file of the one before. */
  ghost function Lived(cfg: Config, forbidden: LabelTest, lives: seq<Life>): System
    decreases |lives|
  {
    if lives == [] then Initial(cfg, 0)
    else
      var n := |lives| - 1;
      Run(cfg, forbidden, RestartedSystem(cfg, Lived(cfg, forbidden, lives[..n]), lives[n].start), lives[n].events)
  }

  /** Whatever happened in however many lifetimes, the invariant holds. */
  lemma {:induction false} LivedInv(cfg: Config, forbidden: LabelTest, lives: seq<Life>)
    requires SchemaAllowed(forbidden)
    ensures Inv(cfg, forbidden, Lived(cfg, forbidden, lives))
    decreases |lives|
  {
    hide Inv, SchemaAllowed, Run, RestartedSystem, Initial;
    if lives == [] {
      InitialInv(cfg, forbidden, 0);
    } else {
      var n := |lives| - 1;
      LivedInv(cfg, forbidden, lives[..n]);
      RestartKeepsInv(cfg, forbidden, Lived(cfg, forbidden, lives[..n]), lives[n].start);
      RunKeeps(cfg, forbidden, RestartedSystem(cfg, Lived(cfg, forbidden, lives[..n]), lives[n].start), lives[n].events);
    }
  }

  /**
   Over any number of lifetimes: queued and running jobs stay within the quota, a succeeded job has artifacts with
   different ids and provenance with the hashes of the last one, every retry has its parent in the store, over for
   good, and retry links form a forest.
   */
  lemma SafeAcrossRestarts(cfg: Config, forbidden: LabelTest, lives: seq<Life>, i: nat)
    requires SchemaAllowed(forbidden) && i < |Lived(cfg, forbidden, lives).jobs|
    ensures var s := Lived(cfg, forbidden, lives).jobs;
            && ActiveCount(s) <= (if cfg.queueLimit > 0 then cfg.queueLimit else 0)
            && Lineage(s)
            && (s[i].retryOf.Some? ==>
                  && Holds(s, s[i].retryOf.value)
                  && IsParent(s, Find(s, s[i].retryOf.value).value, i))
            && (s[i].status == Succeeded ==>
                  && s[i].artifacts != [] && DistinctArtifacts(s[i].artifacts)
                  && s[i].provenance.Some? && ProvenanceMatches(s[i].provenance, s[i].artifacts))
  {
    hide SchemaAllowed, Lived, Decided, PhasesOk, PermitsConserved, IdOrigins, Count, DistinctArtifacts, ArtifactOk,
      ValidRequest, ValidProvenance, IsParent;
    LivedInv(cfg, forbidden, lives);
    var s := Lived(cfg, forbidden, lives).jobs;
    assert s[i] in s && RecordOk(s[i]);
    if s[i].retryOf.Some? {
      var rank :| Ranked(s, rank);
      assert HasParent(s, rank, i);
      var k: nat :| k < |s| && IsParent(s, k, i) && rank(s[k].id) < rank(s[i].id);
      ParentId(s, k, i);
      FindAt(s, k);
    }
  }

  lemma ParentId(s: Jobs, k: nat, i: nat)
    requires IsParent(s, k, i)
    ensures k < |s| && i < |s| && s[i].retryOf == Some(s[k].id)
  {
  }

  /** One job from one store to a later one, positions aside. */
  predicate Continues(s: Jobs, t: Jobs, id: Text) {
    Holds(s, id) ==>
      && Holds(t, id)
      && var r, q := s[Find(s, id).value], t[Find(t, id).value];
         && q.retryOf == r.retryOf && q.createdAt == r.createdAt
         && Forward(r.status, q.status)
         && (q.request == r.request || (q.request.None? && q.status == Deleted))
  }

  lemma ContinuesTransitive(s: Jobs, t: Jobs, u: Jobs, id: Text)
    requires Continues(s, t, id) && Continues(t, u, id)
    ensures Continues(s, u, id)
  {
    hide Find;
  }

  lemma EvolvedContinues(s: Jobs, t: Jobs, id: Text)
    requires JobsOk(s) && JobsOk(t) && JobsEvolve(s, t)
    ensures Continues(s, t, id)
  {
    hide RecordOk;
    if Holds(s, id) {
      FoundLater(s, t, id);
      assert Evolves(s[Find(s, id).value], t[Find(s, id).value]);
    }
  }

  lemma RestartContinues(s: Jobs, id: Text)
    requires JobsOk(s)
    ensures Continues(s, AfterRestart(s), id)
  {
    hide AfterRestart, JobsOk, KeylessAll;
    RestartKeepsJobs(s, id);
  }

  /** No later event and no restart loses a job, changes its lineage or moves its status back. */
  lemma {:induction false} JobsOutliveRestarts(cfg: Config, forbidden: LabelTest, lives: seq<Life>, more: seq<Life>,
      id: Text)
    requires SchemaAllowed(forbidden)
    ensures Continues(Lived(cfg, forbidden, lives).jobs, Lived(cfg, forbidden, lives + more).jobs, id)
    decreases |more|
  {
    hide SchemaAllowed, Inv, Run, RestartedSystem, Continues;
    var s := Lived(cfg, forbidden, lives);
    if more == [] {
      assert lives + more == lives;
      Same(s.jobs, id);
    } else {
      var n := |more| - 1;
      var before := Lived(cfg, forbidden, lives + more[..n]);
      assert (lives + more)[..|lives + more| - 1] == lives + more[..n];
      JobsOutliveRestarts(cfg, forbidden, lives, more[..n], id);
      LivedInv(cfg, forbidden, lives + more[..n]);
      LifeContinues(cfg, forbidden, before, more[n], id);
      ContinuesTransitive(s.jobs, before.jobs, Lived(cfg, forbidden, lives + more).jobs, id);
    }
  }

  lemma Same(s: Jobs, id: Text)
    ensures Continues(s, s, id)
  {
  }

  lemma LifeContinues(cfg: Config, forbidden: LabelTest, s: System, life: Life, id: Text)
    requires Inv(cfg, forbidden, s) && SchemaAllowed(forbidden)
    ensures Continues(s.jobs, Run(cfg, forbidden, RestartedSystem(cfg, s, life.start), life.events).jobs, id)
  {
    hide SchemaAllowed, Inv, Run, AfterRestart, Continues, JobsOk, JobsEvolve;
    var t := RestartedSystem(cfg, s, life.start);
    RestartKeepsInv(cfg, forbidden, s, life.start);
    RunKeeps(cfg, forbidden, t, life.events);
    JobsOfInv(cfg, forbidden, s);
    JobsOfInv(cfg, forbidden, t);
    JobsOfInv(cfg, forbidden, Run(cfg, forbidden, t, life.events));
    RestartContinues(s.jobs, id);
    EvolvedContinues(t.jobs, Run(cfg, forbidden, t, life.events).jobs, id);
    ContinuesTransitive(s.jobs, t.jobs, Run(cfg, forbidden, t, life.events).jobs, id);
  }

  // --- What survives only sometimes

  lemma OnlyFixture(now: int, id: Text)
    ensures IsApproved(InitialRegistry(now), id) <==> id == FixtureId()
  {
    FixtureIsDataset();
  }

  lemma FixtureIsDataset()
    ensures TrainingDatasetId(FixtureId())
  {
  }

  /** The dataset store starts afresh, so the gate holds after a restart exactly when every live job is for the fixture. */
  lemma GateSurvivesExactly(s: Jobs, now: int)
    requires UniqueIds(s)
    ensures GateHolds(AfterRestart(s), InitialRegistry(now)) <==>
            forall i :: 0 <= i < |s| && s[i].request.Some? ==> s[i].request.value.datasetId == FixtureId()
  {
    hide AfterRestart, IsApproved, InitialRegistry, KeylessAll;
    var t := AfterRestart(s);
    if GateHolds(t, InitialRegistry(now)) {
      forall i: nat | i < |s| && s[i].request.Some?
        ensures s[i].request.value.datasetId == FixtureId()
      {
        var j := StandsAgain(s, i);
        assert t[j].request == s[i].request;
        OnlyFixture(now, s[i].request.value.datasetId);
      }
    }
    if forall i :: 0 <= i < |s| && s[i].request.Some? ==> s[i].request.value.datasetId == FixtureId() {
      forall j: nat | j < |t| && t[j].request.Some?
        ensures IsApproved(InitialRegistry(now), t[j].request.value.datasetId)
      {
        var i := StoodBefore(s, j);
        assert t[j].request == s[i].request;
        OnlyFixture(now, s[i].request.value.datasetId);
      }
    }
  }

  /** The order of creation is lost: retries stand behind their parents exactly when their ids come later. */
  lemma OrderSurvivesExactly(s: Jobs)
    requires UniqueIds(s) && Lineage(s)
    ensures LineageInOrder(AfterRestart(s)) <==>
            forall i :: 0 <= i < |s| && s[i].retryOf.Some? ==> TextLess(s[i].retryOf.value, s[i].id)
  {
    hide AfterRestart, KeylessAll, TextLess, Lineage;
    var t := AfterRestart(s);
    RestartAscends(s);
    if LineageInOrder(t) {
      forall i: nat | i < |s| && s[i].retryOf.Some?
        ensures TextLess(s[i].retryOf.value, s[i].id)
      {
        var j := StandsAgain(s, i);
        assert HasEarlierParent(t, j);
        var k: nat :| k < j && IsParent(t, k, j);
      }
    }
    if forall i :: 0 <= i < |s| && s[i].retryOf.Some? ==> TextLess(s[i].retryOf.value, s[i].id) {
      LineageRestarted(s);
      forall j: nat | j < |t| && t[j].retryOf.Some?
        ensures HasEarlierParent(t, j)
      {
        var i := StoodBefore(s, j);
        var k := ParentIn(t, j);
        if k > j {
          TextLessTransitive(t[j].id, t[k].id, t[j].id);
        }
        TextLessIrreflexive(t[j].id);
      }
    }
  }

  lemma ParentIn(s: Jobs, i: nat) returns (k: nat)
    requires Lineage(s) && i < |s| && s[i].retryOf.Some?
    ensures k < |s| && IsParent(s, k, i)
  {
    var rank :| Ranked(s, rank);
    assert HasParent(s, rank, i);
    k :| k < |s| && IsParent(s, k, i) && rank(s[k].id) < rank(s[i].id);
  }
}
