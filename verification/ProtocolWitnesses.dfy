/** Interleavings from a fresh start that break the two bounds of `ProtocolLimits`. */
module ProtocolWitnesses {
  import opened Texts
  import opened Contracts
  import opened StateMachine
  import opened Jobs
  import opened JobFacts
  import opened JobInvariants
  import opened Datasets
  import opened Protocol
  import opened ProtocolInvariants
  import opened ProtocolTheorems
  import opened ProtocolLimits
  import opened Workers

  /** One event more. */
  lemma RunOn(cfg: Config, forbidden: LabelTest, s: System, events: seq<Event>, e: Event)
    ensures Run(cfg, forbidden, s, events + [e]) == Next(cfg, forbidden, Run(cfg, forbidden, s, events), e)
  {
    assert (events + [e])[..|events|] == events;
  }

  function Submission(c: nat, q: Request): seq<Event> {
    [BeginCreate(c, q), CheckGate(c), StoreCreate(c, 0)]
  }

  /** A request is let in and its job stored. */
  lemma Submitted(cfg: Config, forbidden: LabelTest, s: System, c: nat, q: Request)
    requires c !in s.calls && ValidRequest(q) && IsApproved(s.datasets, q.datasetId)
    requires !Holds(s.jobs, StableJobId(cfg.sha, q)) && ActiveCount(s.jobs) < cfg.queueLimit
    ensures Run(cfg, forbidden, s, Submission(c, q)) ==
            Put(s.(jobs := s.jobs + [NewRecord(StableJobId(cfg.sha, q), q, None, 0)]), c, Entered(StableJobId(cfg.sha, q)))
  {
    hide ValidRequest, IsApproved, StableJobId, Count;
    RunOn(cfg, forbidden, s, [], BeginCreate(c, q));
    RunOn(cfg, forbidden, s, [BeginCreate(c, q)], CheckGate(c));
    RunOn(cfg, forbidden, s, [BeginCreate(c, q), CheckGate(c)], StoreCreate(c, 0));
    assert [BeginCreate(c, q), CheckGate(c)] + [StoreCreate(c, 0)] == Submission(c, q);
    assert [BeginCreate(c, q)] + [CheckGate(c)] == [BeginCreate(c, q), CheckGate(c)];
    assert [] + [BeginCreate(c, q)] == [BeginCreate(c, q)];
    assert Put(s, c, Requested(q)).calls[c := Gated(q)] == Put(s, c, Gated(q)).calls;
    assert Put(s, c, Gated(q)).calls[c := Entered(StableJobId(cfg.sha, q))] == Put(s, c, Entered(StableJobId(cfg.sha, q))).calls;
  }

  function Start(c: nat): seq<Event> {
    [ReadStatus(c), Acquire(c), Dispatch(c), ReadTerminal(c), MarkRunning(c, 0)]
  }

  /** The system after a worker has taken up the job at a position. */
  function Working(s: System, c: nat, i: nat): System
    requires i < |s.jobs|
  {
    s.(jobs := s.jobs[i := s.jobs[i].(status := Running, updatedAt := 0)],
       permits := s.permits - 1,
       holders := s.holders + {c},
       calls := s.calls[c := Training(s.jobs[i].id)])
  }

  lemma TakenUp(cfg: Config, forbidden: LabelTest, s: System, c: nat, i: nat)
    requires UniqueIds(s.jobs) && i < |s.jobs| && s.jobs[i].status == Queued && s.jobs[i].request.Some?
    requires c in s.calls && s.calls[c] == Entered(s.jobs[i].id) && s.permits > 0
    ensures Run(cfg, forbidden, s, Start(c)) == Working(s, c, i)
  {
    hide Next, Run, Find, UniqueIds;
    FindAt(s.jobs, i);
    RunFive(cfg, forbidden, s, ReadStatus(c), Acquire(c), Dispatch(c), ReadTerminal(c), MarkRunning(c, 0));
    Advance(cfg, forbidden, s, c, ReadStatus(c), i, Waiting(s.jobs[i].id));
    Enters(cfg, forbidden, Put(s, c, Waiting(s.jobs[i].id)), c, s.jobs[i].id);
    Overwritten(s.calls, c, Waiting(s.jobs[i].id), Admitted(s.jobs[i].id));
    Proceeds(cfg, forbidden, Put(s.(permits := s.permits - 1, holders := s.holders + {c}), c, Admitted(s.jobs[i].id)), c, i);
    Overwritten(s.calls, c, Admitted(s.jobs[i].id), Training(s.jobs[i].id));
  }

  lemma RunFive(cfg: Config, forbidden: LabelTest, s: System, e1: Event, e2: Event, e3: Event, e4: Event, e5: Event)
    ensures Run(cfg, forbidden, s, [e1, e2, e3, e4, e5]) ==
            Next(cfg, forbidden, Next(cfg, forbidden, Next(cfg, forbidden, Next(cfg, forbidden, Next(cfg, forbidden, s, e1), e2), e3), e4), e5)
  {
    hide Next;
    RunOn(cfg, forbidden, s, [], e1);
    RunOn(cfg, forbidden, s, [e1], e2);
    RunOn(cfg, forbidden, s, [e1, e2], e3);
    RunOn(cfg, forbidden, s, [e1, e2, e3], e4);
    RunOn(cfg, forbidden, s, [e1, e2, e3, e4], e5);
    assert [] + [e1] == [e1] && [e1] + [e2] == [e1, e2] && [e1, e2] + [e3] == [e1, e2, e3];
    assert [e1, e2, e3] + [e4] == [e1, e2, e3, e4] && [e1, e2, e3, e4] + [e5] == [e1, e2, e3, e4, e5];
  }

  lemma Overwritten(calls: map<nat, Phase>, c: nat, p: Phase, q: Phase)
    ensures calls[c := p][c := q] == calls[c := q]
  {
  }

  lemma Proceeds(cfg: Config, forbidden: LabelTest, s: System, c: nat, i: nat)
    requires i < |s.jobs| && Find(s.jobs, s.jobs[i].id) == Some(i) && s.jobs[i].status == Queued && s.jobs[i].request.Some?
    requires c in s.calls && s.calls[c] == Admitted(s.jobs[i].id)
    ensures Next(cfg, forbidden, Next(cfg, forbidden, Next(cfg, forbidden, s, Dispatch(c)), ReadTerminal(c)), MarkRunning(c, 0)) ==
            Put(s.(jobs := s.jobs[i := s.jobs[i].(status := Running, updatedAt := 0)]), c, Training(s.jobs[i].id))
  {
    hide Next, Find;
    Advance(cfg, forbidden, s, c, Dispatch(c), i, Dispatched(s.jobs[i].id));
    Advance(cfg, forbidden, Put(s, c, Dispatched(s.jobs[i].id)), c, ReadTerminal(c), i, Starting(s.jobs[i].id));
    Overwritten(s.calls, c, Dispatched(s.jobs[i].id), Starting(s.jobs[i].id));
    Marks(cfg, forbidden, Put(s, c, Starting(s.jobs[i].id)), c, i);
    Overwritten(s.calls, c, Starting(s.jobs[i].id), Training(s.jobs[i].id));
  }

  /** The steps that only read, for a queued job. */
  lemma Advance(cfg: Config, forbidden: LabelTest, s: System, c: nat, e: Event, i: nat, p: Phase)
    requires i < |s.jobs| && Find(s.jobs, s.jobs[i].id) == Some(i) && s.jobs[i].status == Queued && s.jobs[i].request.Some?
    requires c in s.calls
    requires var job := s.jobs[i].id;
             || (e == ReadStatus(c) && s.calls[c] == Entered(job) && p == Waiting(job))
             || (e == Dispatch(c) && s.calls[c] == Admitted(job) && p == Dispatched(job))
             || (e == ReadTerminal(c) && s.calls[c] == Dispatched(job) && p == Starting(job))
    ensures Next(cfg, forbidden, s, e) == Put(s, c, p)
  {
    hide Find;
  }

  lemma Enters(cfg: Config, forbidden: LabelTest, s: System, c: nat, job: Text)
    requires c in s.calls && s.calls[c] == Waiting(job) && s.permits > 0
    ensures Next(cfg, forbidden, s, Acquire(c)) ==
            Put(s.(permits := s.permits - 1, holders := s.holders + {c}), c, Admitted(job))
  {
  }

  lemma Marks(cfg: Config, forbidden: LabelTest, s: System, c: nat, i: nat)
    requires i < |s.jobs| && Find(s.jobs, s.jobs[i].id) == Some(i) && s.jobs[i].status == Queued
    requires c in s.calls && s.calls[c] == Starting(s.jobs[i].id)
    ensures Next(cfg, forbidden, s, MarkRunning(c, 0)) ==
            Put(s.(jobs := s.jobs[i := s.jobs[i].(status := Running, updatedAt := 0)]), c, Training(s.jobs[i].id))
  {
    hide Find, Promote;
  }

  // --- More running jobs than slots

  /** Three accepted requests for the fixture dataset whose jobs have different ids. */
  predicate ThreeRequests(sha: Sha, a: Request, b: Request, c: Request) {
    && ValidRequest(a) && ValidRequest(b) && ValidRequest(c)
    && a.datasetId == FixtureId() && b.datasetId == FixtureId() && c.datasetId == FixtureId()
    && StableJobId(sha, a) != StableJobId(sha, b)
    && StableJobId(sha, a) != StableJobId(sha, c)
    && StableJobId(sha, b) != StableJobId(sha, c)
  }

  /** A request like others, with a key of its own. */
  function Sample(key: Text): Request {
    Request(key, FixtureId(), WaveAModel(), Lit("requester"), DefaultRetention(), Params(None, None, None))
  }

  lemma SampleValid(key: Text)
    requires SafeIdentifier(key)
    ensures ValidRequest(Sample(key)) && Sample(key).datasetId == FixtureId()
  {
    hide ValidRetention, DefaultRetention, RateInRange;
    FixtureValid();
  }

  lemma FixtureValid()
    ensures TrainingDatasetId(FixtureId()) && Requester(Lit("requester")) && !OwnDatasetId(FixtureId())
  {
    assert FixtureId()[..4][0] == 102 && Lit("own:")[0] == 111;
  }

  /** There are such requests: any three keys whose requests do not share a job id. */
  lemma SamplesAreThree(sha: Sha)
    ensures ValidRequest(Sample(Lit("key-a"))) && ValidRequest(Sample(Lit("key-b"))) && ValidRequest(Sample(Lit("key-c")))
    ensures var a, b, c := Sample(Lit("key-a")), Sample(Lit("key-b")), Sample(Lit("key-c"));
            ThreeRequests(sha, a, b, c) <==>
            StableJobId(sha, a) != StableJobId(sha, b) && StableJobId(sha, a) != StableJobId(sha, c)
            && StableJobId(sha, b) != StableJobId(sha, c)
  {
    hide ValidRequest, StableJobId, Sample;
    KeysValid();
    SampleValid(Lit("key-a"));
    SampleValid(Lit("key-b"));
    SampleValid(Lit("key-c"));
  }

  lemma KeysValid()
    ensures SafeIdentifier(Lit("key-a")) && SafeIdentifier(Lit("key-b")) && SafeIdentifier(Lit("key-c"))
  {
  }

  /** What the fake worker reports for a job. */
  function Report(sha: Sha, fixture: Text, a: Request): Outcome
    requires ValidRequest(a)
  {
    FakeOutcome(sha, fixture, StableJobId(sha, a), a, 0)
  }

  /**
   The first job runs and two more wait. The first is cancelled, which promotes the second; its worker goes on to
   register a result and raises at the last status change. Then the worker of the third job enters and marks its
   own job as running too.
   */
  function Overrun(sha: Sha, fixture: Text, a: Request, b: Request, c: Request): seq<Event>
    requires ThreeRequests(sha, a, b, c)
  {
    Submission(0, a) + Start(0) + Submission(1, b) + Submission(2, c)
    + [CancelJob(StableJobId(sha, a), 0)] + Rest(Report(sha, fixture, a)) + Start(2)
  }

  /** What the worker of request 0 still does once it has been told to train. */
  function Rest(o: Outcome): seq<Event> {
    [Train(0, o), KeepArtifact(0, 0), MarkSucceeded(0, 0)]
  }

  predicate Stands(r: Record, id: Text, status: Status) {
    r.id == id && r.status == status && r.request.Some?
  }

  lemma FirstRuns(cfg: Config, forbidden: LabelTest, a: Request)
    requires cfg.maxRunning == 1 && cfg.queueLimit >= 1 && ValidRequest(a) && a.datasetId == FixtureId()
    ensures var s := Reached(cfg, forbidden, 0, Submission(0, a) + Start(0));
            && |s.jobs| == 1 && Stands(s.jobs[0], StableJobId(cfg.sha, a), Running) && s.jobs[0].artifacts == []
            && s.jobs[0].request == Some(a)
            && s.calls == map[0 := Training(s.jobs[0].id)] && s.holders == {0} && s.permits == 0
            && s.datasets == InitialRegistry(0)
  {
    hide StableJobId, Next, Run;
    var s := Initial(cfg, 0);
    var id := StableJobId(cfg.sha, a);
    Submitted(cfg, forbidden, s, 0, a);
    RunSplits(cfg, forbidden, s, Submission(0, a), Start(0));
    assert [] + [NewRecord(id, a, None, 0)] == [NewRecord(id, a, None, 0)];
    TakenUp(cfg, forbidden, Run(cfg, forbidden, s, Submission(0, a)), 0, 0);
  }

  lemma OthersWait(cfg: Config, forbidden: LabelTest, s: System, a: Request, b: Request, c: Request)
    requires cfg.queueLimit >= 3 && ThreeRequests(cfg.sha, a, b, c) && s.datasets == InitialRegistry(0)
    requires |s.jobs| == 1 && Stands(s.jobs[0], StableJobId(cfg.sha, a), Running)
    requires s.calls == map[0 := Training(s.jobs[0].id)]
    ensures var t := Run(cfg, forbidden, s, Submission(1, b) + Submission(2, c));
            && |t.jobs| == 3 && t.jobs[0] == s.jobs[0]
            && Stands(t.jobs[1], StableJobId(cfg.sha, b), Queued)
            && Stands(t.jobs[2], StableJobId(cfg.sha, c), Queued)
            && t == s.(jobs := t.jobs, calls := s.calls[1 := Entered(t.jobs[1].id)][2 := Entered(t.jobs[2].id)])
  {
    hide StableJobId, Next, Run, ValidRequest, Count, Submission, IsApproved, InitialRegistry;
    FixtureApproved(0);
    RunSplits(cfg, forbidden, s, Submission(1, b), Submission(2, c));
    CountOne(s.jobs);
    Submitted(cfg, forbidden, s, 1, b);
    var t := Run(cfg, forbidden, s, Submission(1, b));
    CountAppend(s.jobs, t.jobs[1], Queued);
    CountAppend(s.jobs, t.jobs[1], Running);
    Submitted(cfg, forbidden, t, 2, c);
  }

  lemma FixtureApproved(now: int)
    ensures IsApproved(InitialRegistry(now), FixtureId())
  {
  }

  lemma CountOne(s: Jobs)
    requires |s| == 1 && s[0].status == Running
    ensures Count(s, Running) == 1 && Count(s, Queued) == 0
  {
    assert s[..0] == [];
  }

  lemma CancelPromotes(cfg: Config, forbidden: LabelTest, s: System)
    requires cfg.maxRunning == 1 && |s.jobs| == 3 && UniqueIds(s.jobs)
    requires s.jobs[0].status == Running && s.jobs[1].status == Queued && s.jobs[2].status == Queued
    ensures var t := Next(cfg, forbidden, s, CancelJob(s.jobs[0].id, 0));
            && |t.jobs| == 3 && UniqueIds(t.jobs) && t == s.(jobs := t.jobs)
            && t.jobs[0] == s.jobs[0].(status := Cancelled, updatedAt := 0)
            && t.jobs[1] == Started(s.jobs[1], 0) && t.jobs[2] == s.jobs[2]
  {
    hide Promote, Count;
    FindAt(s.jobs, 0);
    var moved := s.jobs[0 := s.jobs[0].(status := Cancelled, updatedAt := 0)];
    CountThree(moved, Running);
    CountThree(moved, Queued);
    assert moved[..1] == [moved[0]] && moved[..2] == [moved[0], moved[1]];
    CountTwo(moved[0], moved[1]);
    PromotionIsFifo(cfg.maxRunning, moved, 0);
  }

  lemma CountTwo(r: Record, q: Record)
    requires r.status == Cancelled && q.status == Queued
    ensures Count([r], Queued) == 0 && Count([r, q], Queued) == 1
  {
    assert [r, q][..1] == [r] && [r][..0] == [];
  }

  lemma CountThree(s: Jobs, status: Status)
    requires |s| == 3
    ensures Count(s, status) ==
            (if s[0].status == status then 1 else 0) + (if s[1].status == status then 1 else 0) + (if s[2].status == status then 1 else 0)
  {
    assert s == [s[0]] + [s[1]] + [s[2]];
    CountAppend([], s[0], status);
    CountAppend([s[0]], s[1], status);
    CountAppend([s[0]] + [s[1]], s[2], status);
    assert [] + [s[0]] == [s[0]];
  }

  lemma RunThree(cfg: Config, forbidden: LabelTest, s: System, e1: Event, e2: Event, e3: Event)
    ensures Run(cfg, forbidden, s, [e1, e2, e3]) ==
            Next(cfg, forbidden, Next(cfg, forbidden, Next(cfg, forbidden, s, e1), e2), e3)
  {
    hide Next;
    RunOn(cfg, forbidden, s, [], e1);
    RunOn(cfg, forbidden, s, [e1], e2);
    RunOn(cfg, forbidden, s, [e1, e2], e3);
    assert [] + [e1] == [e1] && [e1] + [e2] == [e1, e2] && [e1, e2] + [e3] == [e1, e2, e3];
  }

  /** The worker of a cancelled job runs out: the job stays cancelled, and the request gives its permit back. */
  lemma RunsOut(cfg: Config, forbidden: LabelTest, s: System, a: Request, o: Outcome)
    requires |s.jobs| == 3 && UniqueIds(s.jobs) && s.jobs[0].status == Cancelled && s.jobs[0].artifacts == []
    requires s.jobs[0].request == Some(a) && IsJobId(s.jobs[0].id)
    requires 0 in s.calls && s.calls[0] == Training(s.jobs[0].id)
    requires o.Produced? && ValidProvenance(MadeProvenance(s.jobs[0].id, o))
    ensures var t := Run(cfg, forbidden, s, Rest(o));
            && |t.jobs| == 3 && t.jobs[0].id == s.jobs[0].id && t.jobs[0].status == Cancelled
            && t.jobs[1] == s.jobs[1] && t.jobs[2] == s.jobs[2]
            && t == End(s, 0).(jobs := t.jobs)
  {
    hide Next, Run, ValidProvenance, MadeProvenance, MadeArtifact, Find, UniqueIds, IsJobId, IsArtifactId;
    RunThree(cfg, forbidden, s, Train(0, o), KeepArtifact(0, 0), MarkSucceeded(0, 0));
    FindAt(s.jobs, 0);
    Trains(cfg, forbidden, s, a, o);
    var t := Next(cfg, forbidden, s, Train(0, o));
    Keeps(cfg, forbidden, t);
    var u := Next(cfg, forbidden, t, KeepArtifact(0, 0));
    StillFound(t.jobs, u.jobs);
    Raises(cfg, forbidden, u);
    Removed(s.calls, t.calls[0], u.calls[0]);
  }

  lemma StillFound(s: Jobs, t: Jobs)
    requires UniqueIds(s) && |s| == 3 && |t| == 3 && t[0].id == s[0].id && t[1] == s[1] && t[2] == s[2]
    ensures UniqueIds(t) && Find(t, t[0].id) == Some(0)
  {
    FindAt(t, 0);
  }

  lemma Removed(calls: map<nat, Phase>, p: Phase, q: Phase)
    ensures calls[0 := p][0 := q] - {0} == calls - {0}
  {
  }

  /** Success is no move from cancellation. */
  lemma Raises(cfg: Config, forbidden: LabelTest, s: System)
    requires |s.jobs| > 0 && Find(s.jobs, s.jobs[0].id) == Some(0) && s.jobs[0].status == Cancelled
    requires 0 in s.calls && s.calls[0] == ArtifactKept(s.jobs[0].id)
    ensures Next(cfg, forbidden, s, MarkSucceeded(0, 0)) == End(s, 0)
  {
    hide Find, Move;
  }

  /** With one slot and room for three jobs there is a run of fake workers that ends with two jobs running. */
  lemma RunningBoundBroken(cfg: Config, forbidden: LabelTest, fixture: Text, a: Request, b: Request, c: Request)
    requires cfg.maxRunning == 1 && cfg.queueLimit >= 3 && ThreeRequests(cfg.sha, a, b, c)
    ensures Count(Reached(cfg, forbidden, 0, Overrun(cfg.sha, fixture, a, b, c)).jobs, Running) == 2
  {
    hide StableJobId, Next, Run, ValidRequest, Count, Submission, Start, Initial, Rest, FakeOutcome, ValidProvenance,
      MadeProvenance, IsJobId, Find;
    var s0 := Initial(cfg, 0);
    var o := Report(cfg.sha, fixture, a);
    var one := Submission(0, a) + Start(0);
    var two := Submission(1, b) + Submission(2, c);
    var cancel := CancelJob(StableJobId(cfg.sha, a), 0);
    assert Overrun(cfg.sha, fixture, a, b, c) == (((one + two) + [cancel]) + Rest(o)) + Start(2);
    FirstRuns(cfg, forbidden, a);
    RunSplits(cfg, forbidden, s0, one, two);
    OthersWait(cfg, forbidden, Run(cfg, forbidden, s0, one), a, b, c);
    RunOn(cfg, forbidden, s0, one + two, cancel);
    RunSplits(cfg, forbidden, s0, (one + two) + [cancel], Rest(o));
    RunSplits(cfg, forbidden, s0, ((one + two) + [cancel]) + Rest(o), Start(2));
    CancelPromotes(cfg, forbidden, Run(cfg, forbidden, s0, one + two));
    var s := Run(cfg, forbidden, s0, (one + two) + [cancel]);
    FakeProvenanceValid(cfg.sha, fixture, StableJobId(cfg.sha, a), a, 0);
    RunsOut(cfg, forbidden, s, a, o);
    var t := Run(cfg, forbidden, s, Rest(o));
    StillFound(s.jobs, t.jobs);
    TakenUp(cfg, forbidden, t, 2, 2);
    CountThree(Working(t, 2, 2).jobs, Running);
  }

  // --- An artifact of a cancelled job

  /** The job is cancelled after its training and before the worker registers the result. */
  function LateResult(sha: Sha, a: Request, o: Outcome): seq<Event>
    requires ValidRequest(a)
  {
    Submission(0, a) + Start(0) + [Train(0, o)] + [CancelJob(StableJobId(sha, a), 0)] + [KeepArtifact(0, 0)]
  }

  /** A cancelled job can hold an artifact. */
  lemma BareBroken(cfg: Config, forbidden: LabelTest, a: Request, o: Outcome)
    requires cfg.maxRunning == 1 && cfg.queueLimit >= 1 && ValidRequest(a) && a.datasetId == FixtureId()
    requires o.Produced? && ValidProvenance(MadeProvenance(StableJobId(cfg.sha, a), o))
    ensures var s := Reached(cfg, forbidden, 0, LateResult(cfg.sha, a, o));
            |s.jobs| == 1 && s.jobs[0].status == Cancelled && |s.jobs[0].artifacts| == 1
  {
    hide StableJobId, Next, Run, ValidRequest, Submission, Start, ValidProvenance, MadeProvenance, MadeArtifact,
      Initial;
    var s0 := Initial(cfg, 0);
    var one := Submission(0, a) + Start(0);
    var cancel := CancelJob(StableJobId(cfg.sha, a), 0);
    FirstRuns(cfg, forbidden, a);
    RunOn(cfg, forbidden, s0, one, Train(0, o));
    RunOn(cfg, forbidden, s0, one + [Train(0, o)], cancel);
    RunOn(cfg, forbidden, s0, (one + [Train(0, o)]) + [cancel], KeepArtifact(0, 0));
    var s := Run(cfg, forbidden, s0, one);
    FindAt(s.jobs, 0);
    Trains(cfg, forbidden, s, a, o);
    var t := Next(cfg, forbidden, s, Train(0, o));
    CancelsOne(cfg, forbidden, t);
    FindAt(Next(cfg, forbidden, t, cancel).jobs, 0);
    Keeps(cfg, forbidden, Next(cfg, forbidden, t, cancel));
  }

  lemma Trains(cfg: Config, forbidden: LabelTest, s: System, a: Request, o: Outcome)
    requires |s.jobs| > 0 && Find(s.jobs, s.jobs[0].id) == Some(0) && s.jobs[0].request == Some(a)
    requires 0 in s.calls && s.calls[0] == Training(s.jobs[0].id)
    requires o.Produced? && ValidProvenance(MadeProvenance(s.jobs[0].id, o))
    ensures var t := Next(cfg, forbidden, s, Train(0, o));
            && IsHash(o.artifactHash)
            && t == Put(s, 0, Trained(s.jobs[0].id, MadeArtifact(s.jobs[0].id, o, a.retention), MadeProvenance(s.jobs[0].id, o)))
            && IsArtifactId(MadeArtifact(s.jobs[0].id, o, a.retention).id)
  {
    hide ValidProvenance, IsArtifactId, Find;
    assert IsHash(o.artifactHash) by {
      MadeHash(s.jobs[0].id, o);
    }
  }

  lemma MadeHash(job: Text, o: Outcome)
    requires o.Produced? && ValidProvenance(MadeProvenance(job, o))
    ensures IsHash(o.artifactHash)
  {
  }

  lemma CancelsOne(cfg: Config, forbidden: LabelTest, s: System)
    requires |s.jobs| == 1 && s.jobs[0].status == Running
    ensures var t := Next(cfg, forbidden, s, CancelJob(s.jobs[0].id, 0));
            t == s.(jobs := [s.jobs[0].(status := Cancelled, updatedAt := 0)])
  {
    hide Count;
    FindAt(s.jobs, 0);
    var moved := s.jobs[0 := s.jobs[0].(status := Cancelled, updatedAt := 0)];
    assert moved == [s.jobs[0].(status := Cancelled, updatedAt := 0)];
    PromotionIsFifo(cfg.maxRunning, moved, 0);
  }

  lemma Keeps(cfg: Config, forbidden: LabelTest, s: System)
    requires |s.jobs| > 0 && Find(s.jobs, s.jobs[0].id) == Some(0) && s.jobs[0].artifacts == [] && s.jobs[0].status == Cancelled
    requires 0 in s.calls && s.calls[0].Trained? && s.calls[0].job == s.jobs[0].id
    requires IsJobId(s.jobs[0].id) && IsArtifactId(s.calls[0].artifact.id) && ValidProvenance(s.calls[0].provenance)
    ensures var t := Next(cfg, forbidden, s, KeepArtifact(0, 0));
            && |t.jobs| == |s.jobs|
            && t.jobs[0].id == s.jobs[0].id && t.jobs[0].status == Cancelled && |t.jobs[0].artifacts| == 1
            && (forall k :: 0 < k < |s.jobs| ==> t.jobs[k] == s.jobs[k])
            && t == Put(s.(jobs := t.jobs), 0, ArtifactKept(s.jobs[0].id))
  {
    hide ValidProvenance, IsJobId, IsArtifactId, Find;
  }
}
