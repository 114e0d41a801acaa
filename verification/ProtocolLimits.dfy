/**
 Two properties that look like invariants of the service and are not. For each: exactly which steps break
 it, and an interleaving in which one does.
 */
module ProtocolLimits {
  import opened Texts
  import opened Contracts
  import opened StateMachine
  import opened Jobs
  import opened JobFacts
  import opened JobInvariants
  import opened Datasets
  import opened Protocol
  import opened ProtocolInvariants

  // --- The number of running jobs

  lemma {:induction false} FewerRunning(s: Jobs, t: Jobs)
    requires |t| == |s| && forall i :: 0 <= i < |s| ==> t[i].status == Running ==> s[i].status == Running
    ensures Count(t, Running) <= Count(s, Running)
  {
    if s != [] {
      FewerRunning(s[..|s| - 1], t[..|s| - 1]);
    }
  }

  /** A status change keeps the bound unless it starts a queued job when no slot is free. */
  lemma MoveWithinBound(cfg: Config, s: Jobs, i: nat, status: Status, now: int)
    requires i < |s| && Count(s, Running) <= cfg.maxRunning && Transition(s[i].status, status).Ok?
    ensures Count(Move(cfg, s, i, status, now), Running) <= cfg.maxRunning <==>
            !(status == Running && s[i].status == Queued && Count(s, Running) == cfg.maxRunning)
  {
    hide Promote, Count;
    if s[i].status != status {
      var r := s[i].(status := status, updatedAt := now);
      CountUpdate(s, i, r, Running);
      PromotionIsFifo(cfg.maxRunning, s[i := r], now);
    }
  }

  /** A worker about to mark a queued job as running while the running jobs fill all slots. */
  predicate Oversteps(cfg: Config, s: System, e: Event) {
    && e.MarkRunning?
    && e.c in s.calls
    && s.calls[e.c].Starting?
    && Holds(s.jobs, s.calls[e.c].job)
    && s.jobs[Find(s.jobs, s.calls[e.c].job).value].status == Queued
    && Count(s.jobs, Running) == cfg.maxRunning
  }

  lemma CancelWithinBound(cfg: Config, s: Jobs, id: Text, now: int)
    requires Count(s, Running) <= cfg.maxRunning && Cancel(cfg, s, id, now).Ok?
    ensures Count(Cancel(cfg, s, id, now).value, Running) <= cfg.maxRunning
  {
    hide Count, Move;
    var i := Find(s, id).value;
    MoveWithinBound(cfg, s, i, CancelTarget(s[i].status), now);
  }

  lemma DeletionWithinBound(cfg: Config, forbidden: LabelTest, s: System, e: Event)
    requires Count(s.jobs, Running) <= cfg.maxRunning
    requires e.DeleteJobArtifact? || e.SweepJobs? || e.ReadJob?
    ensures Count(Next(cfg, forbidden, s, e).jobs, Running) <= cfg.maxRunning
  {
    hide Count, Move, IsJobId, IsArtifactId, FindArtifact, FirstExpired;
    FewerRunning(s.jobs, Next(cfg, forbidden, s, e).jobs);
  }

  lemma StatusWithinBound(cfg: Config, s: System, c: nat, target: Status, p: Phase, now: int)
    requires c in s.calls && HasJob(s.calls[c]) && Count(s.jobs, Running) <= cfg.maxRunning
    ensures Count(After(s, c, UpdateStatus(cfg, s.jobs, s.calls[c].job, target, now), p).jobs, Running) <= cfg.maxRunning <==>
            !(&& target == Running && Holds(s.jobs, s.calls[c].job)
              && s.jobs[Find(s.jobs, s.calls[c].job).value].status == Queued && Count(s.jobs, Running) == cfg.maxRunning)
  {
    hide Count, Move;
    var job := s.calls[c].job;
    if Holds(s.jobs, job) && Transition(s.jobs[Find(s.jobs, job).value].status, target).Ok? {
      MoveWithinBound(cfg, s.jobs, Find(s.jobs, job).value, target, now);
    }
  }

  lemma AddedWithinBound(cfg: Config, s: System, c: nat, e: Event)
    requires c in s.calls && Count(s.jobs, Running) <= cfg.maxRunning
    requires (e.StoreCreate? && s.calls[c].Gated?) || (e.StoreRetry? && s.calls[c].Retrying?)
    ensures Count(CallStep(cfg, s, c, e).jobs, Running) <= cfg.maxRunning
  {
    hide Count, ValidRequest, StableJobId, RetryId, RetryAttempt;
    if e.StoreCreate? {
      if ValidRequest(s.calls[c].request) {
        CountAppend(s.jobs, NewRecord(StableJobId(cfg.sha, s.calls[c].request), s.calls[c].request, None, e.now), Running);
      }
    } else {
      var n := RetryAttempt(cfg.sha, s.jobs, s.calls[c].original);
      if RetryRefusal(cfg, s.jobs, s.calls[c].original).None? && n.Some? {
        var request := s.jobs[Find(s.jobs, s.calls[c].original).value].request.value;
        CountAppend(s.jobs, NewRecord(RetryId(cfg.sha, s.calls[c].original, n.value), request, Some(s.calls[c].original), e.now), Running);
      }
    }
  }

  lemma RecordsWithinBound(cfg: Config, s: System, c: nat, e: Event)
    requires c in s.calls && Count(s.jobs, Running) <= cfg.maxRunning
    requires (e.KeepArtifact? && s.calls[c].Trained?) || (e.Upload? && s.calls[c].Completed?)
    ensures Count(CallStep(cfg, s, c, e).jobs, Running) <= cfg.maxRunning
  {
    hide Count, WithKey, HasArtifact, ValidProvenance, IsArtifactId, IsJobId;
    FewerRunning(s.jobs, CallStep(cfg, s, c, e).jobs);
  }

  lemma CallStepWithinBound(cfg: Config, s: System, c: nat, e: Event)
    requires c in s.calls && Count(s.jobs, Running) <= cfg.maxRunning
    requires !(e.BeginCreate? || e.BeginRetry? || e.CancelJob? || e.DeleteJobArtifact? || e.SweepJobs? || e.ReadJob?)
    requires !(e.RegisterDataset? || e.SubmitDataset? || e.ApproveDataset? || e.RejectDataset?)
    requires e.c == c
    ensures Count(CallStep(cfg, s, c, e).jobs, Running) <= cfg.maxRunning <==> !Oversteps(cfg, s, e)
  {
    hide Count, CallStep, Find;
    var p := s.calls[c];
    if (e.StoreCreate? && p.Gated?) || (e.StoreRetry? && p.Retrying?) {
      AddedWithinBound(cfg, s, c, e);
    } else if (e.KeepArtifact? && p.Trained?) || (e.Upload? && p.Completed?) {
      RecordsWithinBound(cfg, s, c, e);
    } else if e.MarkRunning? || e.MarkFailed? || e.MarkSucceeded? {
      MarkWithinBound(cfg, s, c, e);
    } else {
      JobsUntouched(cfg, s, c, e);
    }
  }

  lemma MarkWithinBound(cfg: Config, s: System, c: nat, e: Event)
    requires c in s.calls && Count(s.jobs, Running) <= cfg.maxRunning
    requires (e.MarkRunning? || e.MarkFailed? || e.MarkSucceeded?) && e.c == c
    ensures Count(CallStep(cfg, s, c, e).jobs, Running) <= cfg.maxRunning <==> !Oversteps(cfg, s, e)
  {
    hide Count, After, UpdateStatus, Find, Create, Retried, RetryAttempt, RetryRefusal, Register, SetStorageKey,
      Finished, StableJobId, RetryId, IsApproved, ValidRequest;
    match (e, s.calls[c])
    case (MarkRunning(_, now), Starting(job)) => StatusWithinBound(cfg, s, c, Running, Training(job), now);
    case (MarkFailed(_, now), Failing(job)) => StatusWithinBound(cfg, s, c, Failed, Completed(job), now);
    case (MarkSucceeded(_, now), ArtifactKept(job)) => StatusWithinBound(cfg, s, c, Succeeded, Completed(job), now);
    case _ =>
  }

  /** Steps that make no store call, or none the request stands ready for, leave the jobs alone. */
  lemma JobsUntouched(cfg: Config, s: System, c: nat, e: Event)
    requires c in s.calls && !(e.MarkRunning? || e.MarkFailed? || e.MarkSucceeded?)
    requires e.StoreCreate? ==> !s.calls[c].Gated?
    requires e.StoreRetry? ==> !s.calls[c].Retrying?
    requires e.KeepArtifact? ==> !s.calls[c].Trained?
    requires e.Upload? ==> !s.calls[c].Completed?
    ensures CallStep(cfg, s, c, e).jobs == s.jobs
  {
    hide UpdateStatus, Create, RetryAttempt, Retried, Register, SetStorageKey, Finished, Find, StableJobId, RetryId,
      IsApproved;
  }

  /** A step keeps the running jobs within their limit exactly when it does not overstep it. */
  lemma RunningBoundExactly(cfg: Config, forbidden: LabelTest, s: System, e: Event)
    requires Count(s.jobs, Running) <= cfg.maxRunning
    ensures Count(Next(cfg, forbidden, s, e).jobs, Running) <= cfg.maxRunning <==> !Oversteps(cfg, s, e)
  {
    hide Count, CallStep, Cancel, DeleteArtifact, Sweep, EvaluateExpiry, Find, Submit, Approve, Reject, RegisterShape,
      ValidRequest;
    if e.CancelJob? {
      if Cancel(cfg, s.jobs, e.id, e.now).Ok? {
        CancelWithinBound(cfg, s.jobs, e.id, e.now);
      }
    } else if e.DeleteJobArtifact? || e.SweepJobs? || e.ReadJob? {
      DeletionWithinBound(cfg, forbidden, s, e);
    } else if e.BeginCreate? || e.BeginRetry? || e.RegisterDataset? || e.SubmitDataset? || e.ApproveDataset? || e.RejectDataset? {
    } else if e.c in s.calls {
      CallStepWithinBound(cfg, s, e.c, e);
    }
  }

  /** The system after the first `k` events of a run. */
  ghost function At(cfg: Config, forbidden: LabelTest, s: System, events: seq<Event>, k: nat): System
    requires k <= |events|
  {
    Run(cfg, forbidden, s, events[..k])
  }

  lemma AtNext(cfg: Config, forbidden: LabelTest, s: System, events: seq<Event>, k: nat)
    requires k < |events|
    ensures At(cfg, forbidden, s, events, k + 1) == Next(cfg, forbidden, At(cfg, forbidden, s, events, k), events[k])
    ensures At(cfg, forbidden, s, events, 0) == s
  {
    hide Next;
    assert events[..k + 1][..k] == events[..k];
  }

  lemma {:induction false} WithinBoundUpTo(cfg: Config, forbidden: LabelTest, s: System, events: seq<Event>, k: nat)
    requires k <= |events| && Count(s.jobs, Running) <= cfg.maxRunning
    requires forall j: nat :: j < |events| ==> !Oversteps(cfg, At(cfg, forbidden, s, events, j), events[j])
    ensures Count(At(cfg, forbidden, s, events, k).jobs, Running) <= cfg.maxRunning
  {
    hide Count, Next, Oversteps, At;
    if k > 0 {
      WithinBoundUpTo(cfg, forbidden, s, events, k - 1);
      AtNext(cfg, forbidden, s, events, k - 1);
      RunningBoundExactly(cfg, forbidden, At(cfg, forbidden, s, events, k - 1), events[k - 1]);
    } else {
      AtStart(cfg, forbidden, s, events);
    }
  }

  lemma AtStart(cfg: Config, forbidden: LabelTest, s: System, events: seq<Event>)
    ensures At(cfg, forbidden, s, events, 0) == s
  {
  }

  /** The running jobs stay within their limit all along an interleaving exactly when no event of it oversteps it. */
  lemma RunWithinBoundExactly(cfg: Config, forbidden: LabelTest, s: System, events: seq<Event>)
    requires Count(s.jobs, Running) <= cfg.maxRunning
    ensures (forall k: nat :: k <= |events| ==> Count(At(cfg, forbidden, s, events, k).jobs, Running) <= cfg.maxRunning) <==>
            (forall k: nat :: k < |events| ==> !Oversteps(cfg, At(cfg, forbidden, s, events, k), events[k]))
  {
    hide Count, Next, Oversteps, At;
    if forall k: nat :: k < |events| ==> !Oversteps(cfg, At(cfg, forbidden, s, events, k), events[k]) {
      forall k: nat | k <= |events|
        ensures Count(At(cfg, forbidden, s, events, k).jobs, Running) <= cfg.maxRunning
      {
        WithinBoundUpTo(cfg, forbidden, s, events, k);
      }
    }
    if forall k: nat :: k <= |events| ==> Count(At(cfg, forbidden, s, events, k).jobs, Running) <= cfg.maxRunning {
      forall k: nat | k < |events|
        ensures !Oversteps(cfg, At(cfg, forbidden, s, events, k), events[k])
      {
        AtNext(cfg, forbidden, s, events, k);
        RunningBoundExactly(cfg, forbidden, At(cfg, forbidden, s, events, k), events[k]);
        assert Count(At(cfg, forbidden, s, events, k + 1).jobs, Running) <= cfg.maxRunning;
      }
    }
  }

  // --- Artifacts of jobs that are over without result

  predicate Fruitless(status: Status) {
    status == Failed || status == Cancelled || status == Deleted
  }

  predicate BareRecord(r: Record) {
    Fruitless(r.status) ==> r.artifacts == []
  }

  /** Failed and cancelled jobs and tombstones hold no artifacts. */
  predicate Bare(s: Jobs) {
    forall i :: 0 <= i < |s| ==> BareRecord(s[i])
  }

  /** A step that ends a job holding an artifact, or gives an artifact to a job already over. */
  predicate Spoils(s: System, e: Event) {
    match e
    case CancelJob(id, _) =>
      var i := Find(s.jobs, id);
      i.Some? && Active(s.jobs[i.value].status) && s.jobs[i.value].artifacts != []
    case MarkFailed(c, _) =>
      && c in s.calls && s.calls[c].Failing?
      && var i := Find(s.jobs, s.calls[c].job);
         i.Some? && Active(s.jobs[i.value].status) && s.jobs[i.value].artifacts != []
    case KeepArtifact(c, _) =>
      && c in s.calls && s.calls[c].Trained?
      && var i := Find(s.jobs, s.calls[c].job);
         i.Some? && Fruitless(s.jobs[i.value].status)
    case _ => false
  }

  lemma BareUpdate(s: Jobs, i: nat, r: Record)
    requires Bare(s) && i < |s|
    ensures Bare(s[i := r]) <==> BareRecord(r)
  {
    assert s[i := r][i] == r;
  }

  lemma PromoteBare(maxRunning: int, s: Jobs, now: int)
    ensures Bare(Promote(maxRunning, s, now)) <==> Bare(s)
  {
    hide Promote, Count;
    PromotionIsFifo(maxRunning, s, now);
    var t := Promote(maxRunning, s, now);
    assert forall i :: 0 <= i < |s| ==> (BareRecord(t[i]) <==> BareRecord(s[i]));
  }

  lemma MoveBare(cfg: Config, s: Jobs, i: nat, status: Status, now: int)
    requires Bare(s) && i < |s| && Transition(s[i].status, status).Ok?
    requires status == Deleted ==> s[i].status == Deleted
    ensures Bare(Move(cfg, s, i, status, now)) <==>
            !((status == Failed || status == Cancelled) && Active(s[i].status) && s[i].artifacts != [])
  {
    hide Promote, Bare;
    if s[i].status != status {
      var r := s[i].(status := status, updatedAt := now);
      BareUpdate(s, i, r);
      PromoteBare(cfg.maxRunning, s[i := r], now);
    } else {
      BareAt(s, i);
    }
  }

  lemma BareAt(s: Jobs, i: nat)
    requires Bare(s) && i < |s|
    ensures BareRecord(s[i])
  {
  }

  lemma CancelBare(cfg: Config, s: System, id: Text, now: int)
    requires Bare(s.jobs)
    ensures Bare(WithJobs(s, Cancel(cfg, s.jobs, id, now)).jobs) <==> !Spoils(s, CancelJob(id, now))
  {
    hide Move, Bare;
    if Holds(s.jobs, id) {
      var i := Find(s.jobs, id).value;
      MoveBare(cfg, s.jobs, i, CancelTarget(s.jobs[i].status), now);
    }
  }

  lemma DeletionBare(cfg: Config, forbidden: LabelTest, s: System, e: Event)
    requires Bare(s.jobs)
    requires e.DeleteJobArtifact? || e.SweepJobs? || e.ReadJob?
    ensures Bare(Next(cfg, forbidden, s, e).jobs)
  {
    hide FindArtifact, FirstExpired, IsJobId, IsArtifactId;
  }

  lemma StatusBare(cfg: Config, s: System, c: nat, target: Status, p: Phase, now: int)
    requires Bare(s.jobs) && c in s.calls && HasJob(s.calls[c]) && target != Deleted && target != Cancelled
    ensures Bare(After(s, c, UpdateStatus(cfg, s.jobs, s.calls[c].job, target, now), p).jobs) <==>
            !(&& target == Failed && Holds(s.jobs, s.calls[c].job)
              && Active(s.jobs[Find(s.jobs, s.calls[c].job).value].status)
              && s.jobs[Find(s.jobs, s.calls[c].job).value].artifacts != [])
  {
    hide Bare, Move;
    var job := s.calls[c].job;
    if Holds(s.jobs, job) {
      var i := Find(s.jobs, job).value;
      if Transition(s.jobs[i].status, target).Ok? {
        MoveBare(cfg, s.jobs, i, target, now);
      }
    }
  }

  lemma KeepBare(cfg: Config, forbidden: LabelTest, s: System, c: nat, e: Event)
    requires Inv(cfg, forbidden, s) && Bare(s.jobs) && c in s.calls && e.KeepArtifact? && s.calls[c].Trained? && e.c == c
    ensures Bare(CallStep(cfg, s, c, e).jobs) <==> !Spoils(s, e)
  {
    hide Bare, StoreInv, Decided, PermitsConserved, ValidProvenance, Inv, RecordOk;
    InvParts(cfg, forbidden, s, c);
    var p := s.calls[c];
    var i := Find(s.jobs, p.job).value;
    var r := s.jobs[i];
    assert r in s.jobs;
    JobIdOk(r);
    BareAt(s.jobs, i);
    if !HasArtifact(r.artifacts, p.artifact.id) {
      BareUpdate(s.jobs, i, r.(artifacts := r.artifacts + [p.artifact], provenance := Some(p.provenance), updatedAt := e.now));
    }
  }

  lemma UploadBare(cfg: Config, s: System, c: nat, e: Event)
    requires Bare(s.jobs) && c in s.calls && e.Upload? && s.calls[c].Completed?
    ensures Bare(CallStep(cfg, s, c, e).jobs)
  {
    hide IsJobId, IsArtifactId;
  }

  lemma AddedBare(cfg: Config, s: System, c: nat, e: Event)
    requires Bare(s.jobs) && c in s.calls
    requires (e.StoreCreate? && s.calls[c].Gated?) || (e.StoreRetry? && s.calls[c].Retrying?)
    ensures Bare(CallStep(cfg, s, c, e).jobs)
  {
    hide ValidRequest, StableJobId, RetryId, RetryAttempt;
  }

  lemma CallStepBare(cfg: Config, forbidden: LabelTest, s: System, c: nat, e: Event)
    requires Inv(cfg, forbidden, s) && Bare(s.jobs) && c in s.calls
    requires !(e.BeginCreate? || e.BeginRetry? || e.CancelJob? || e.DeleteJobArtifact? || e.SweepJobs? || e.ReadJob?)
    requires !(e.RegisterDataset? || e.SubmitDataset? || e.ApproveDataset? || e.RejectDataset?)
    requires e.c == c
    ensures Bare(CallStep(cfg, s, c, e).jobs) <==> !Spoils(s, e)
  {
    hide Bare, Inv, CallStep, Find;
    var p := s.calls[c];
    if (e.StoreCreate? && p.Gated?) || (e.StoreRetry? && p.Retrying?) {
      AddedBare(cfg, s, c, e);
    } else if e.KeepArtifact? && p.Trained? {
      KeepBare(cfg, forbidden, s, c, e);
    } else if e.Upload? && p.Completed? {
      UploadBare(cfg, s, c, e);
    } else if e.MarkRunning? || e.MarkFailed? || e.MarkSucceeded? {
      MarkBare(cfg, s, c, e);
    } else {
      JobsUntouched(cfg, s, c, e);
    }
  }

  lemma MarkBare(cfg: Config, s: System, c: nat, e: Event)
    requires Bare(s.jobs) && c in s.calls && (e.MarkRunning? || e.MarkFailed? || e.MarkSucceeded?) && e.c == c
    ensures Bare(CallStep(cfg, s, c, e).jobs) <==> !Spoils(s, e)
  {
    hide Bare, After, UpdateStatus, Find;
    match (e, s.calls[c])
    case (MarkRunning(_, now), Starting(job)) => StatusBare(cfg, s, c, Running, Training(job), now);
    case (MarkFailed(_, now), Failing(job)) => StatusBare(cfg, s, c, Failed, Completed(job), now);
    case (MarkSucceeded(_, now), ArtifactKept(job)) => StatusBare(cfg, s, c, Succeeded, Completed(job), now);
    case _ =>
  }

  /** A step leaves jobs that are over without result bare exactly when it does not spoil one. */
  lemma BareExactly(cfg: Config, forbidden: LabelTest, s: System, e: Event)
    requires Inv(cfg, forbidden, s) && Bare(s.jobs)
    ensures Bare(Next(cfg, forbidden, s, e).jobs) <==> !Spoils(s, e)
  {
    hide Inv, Bare, CallStep, Cancel, DeleteArtifact, Sweep, EvaluateExpiry, Find, Submit, Approve, Reject,
      RegisterShape, ValidRequest;
    if e.CancelJob? {
      CancelBare(cfg, s, e.id, e.now);
    } else if e.DeleteJobArtifact? || e.SweepJobs? || e.ReadJob? {
      DeletionBare(cfg, forbidden, s, e);
    } else if e.BeginCreate? || e.BeginRetry? || e.RegisterDataset? || e.SubmitDataset? || e.ApproveDataset? || e.RejectDataset? {
    } else if e.c in s.calls {
      CallStepBare(cfg, forbidden, s, e.c, e);
    }
  }

  lemma {:induction false} BareUpTo(cfg: Config, forbidden: LabelTest, s: System, events: seq<Event>, k: nat)
    requires k <= |events| && Inv(cfg, forbidden, s) && Bare(s.jobs)
    requires forall j: nat :: j < |events| ==> !Spoils(At(cfg, forbidden, s, events, j), events[j])
    ensures Bare(At(cfg, forbidden, s, events, k).jobs)
  {
    hide Inv, Bare, Next, Spoils, At;
    if k > 0 {
      BareUpTo(cfg, forbidden, s, events, k - 1);
      AtNext(cfg, forbidden, s, events, k - 1);
      InvAt(cfg, forbidden, s, events, k - 1);
      BareExactly(cfg, forbidden, At(cfg, forbidden, s, events, k - 1), events[k - 1]);
    } else {
      AtStart(cfg, forbidden, s, events);
    }
  }

  lemma InvAt(cfg: Config, forbidden: LabelTest, s: System, events: seq<Event>, k: nat)
    requires k <= |events| && Inv(cfg, forbidden, s)
    ensures Inv(cfg, forbidden, At(cfg, forbidden, s, events, k))
  {
    hide Inv, Next;
    RunKeeps(cfg, forbidden, s, events[..k]);
  }

  /** Jobs that are over without result stay bare all along an interleaving exactly when no event of it spoils one. */
  lemma RunBareExactly(cfg: Config, forbidden: LabelTest, s: System, events: seq<Event>)
    requires Inv(cfg, forbidden, s) && Bare(s.jobs)
    ensures (forall k: nat :: k <= |events| ==> Bare(At(cfg, forbidden, s, events, k).jobs)) <==>
            (forall k: nat :: k < |events| ==> !Spoils(At(cfg, forbidden, s, events, k), events[k]))
  {
    hide Inv, Bare, Next, Spoils, At;
    if forall k: nat :: k < |events| ==> !Spoils(At(cfg, forbidden, s, events, k), events[k]) {
      forall k: nat | k <= |events|
        ensures Bare(At(cfg, forbidden, s, events, k).jobs)
      {
        BareUpTo(cfg, forbidden, s, events, k);
      }
    }
    if forall k: nat :: k <= |events| ==> Bare(At(cfg, forbidden, s, events, k).jobs) {
      forall k: nat | k < |events|
        ensures !Spoils(At(cfg, forbidden, s, events, k), events[k])
      {
        AtNext(cfg, forbidden, s, events, k);
        InvAt(cfg, forbidden, s, events, k);
        BareExactly(cfg, forbidden, At(cfg, forbidden, s, events, k), events[k]);
        assert Bare(At(cfg, forbidden, s, events, k + 1).jobs);
      }
    }
  }
}
