/**
 The rules of the service, one for each request: when it is refused and how, and what it changes otherwise, in terms
 of records, objects and the environment. A request is answered in a way exactly when its rule says so.
 */
module RequestRules {
  import opened Texts
  import opened Utf8
  import opened Json
  import opened Contracts
  import opened StateMachine
  import opened Jobs
  import opened JobFacts
  import opened JobInvariants
  import opened Datasets
  import opened Sorting
  import opened Tokens
  import opened Protocol
  import opened ProtocolInvariants
  import opened TrainingStores
  import opened Workers
  import opened Serial
  import opened SerialFacts
  import opened SerialTheorems
  import opened Outcomes

  predicate At(s: Jobs, id: Text, i: nat) {
    i < |s| && s[i].id == id
  }

  ghost predicate Stored(s: Jobs, id: Text) {
    exists i: nat :: At(s, id, i)
  }

  // --- Running a job

  /** With workers on and a permit an active job is run; otherwise nothing more happens. */
  predicate Follows(setup: Setup, v: World, i: nat, env: Env, reply: Reply) {
    && i < |v.jobs|
    && if setup.autoRun && setup.cfg.maxRunning > 0 && (v.jobs[i].status == Queued || v.jobs[i].status == Running) then
         && v.jobs[i].request.Some?
         && var q := v.jobs[i].request.value;
            && reply.world.datasets == v.datasets && |reply.world.jobs| == |v.jobs|
            && Ends(setup, v.jobs[i], q, env, reply.world.jobs[i], v.objects, reply.world.objects, reply.error)
            && if q.modelId == Lit("scooling-lab-gpu-personal-v1") && env.training.Crashed?
               then OthersStay(v.jobs, reply.world.jobs, i)
               else OthersMoveUp(setup.cfg, v.jobs, reply.world.jobs, i, env.now)
       else reply == Reply(v, None)
  }

  // --- The rules for jobs

  predicate Refused(w: World, code: ErrorCode, reply: Reply) {
    reply == Reply(w, Some(code))
  }

  predicate Full(cfg: Config, s: Jobs) {
    |Occupying(s)| >= cfg.queueLimit
  }

  function QueuedJob(id: Text, q: Request, parent: Option<Text>, now: int): Record {
    Record(id, Some(q), Queued, now, now, [], None, None, parent)
  }

  /** A request for a job: an approved dataset and room in the queue, unless the job is there already. */
  ghost predicate CreateRule(setup: Setup, w: World, payload: seq<Member>, env: Env, reply: Reply) {
    var q := FromMapping(payload);
    if q.Err? then Refused(w, q.code, reply)
    else if q.value.datasetId !in w.datasets || w.datasets[q.value.datasetId].status != Approved
    then Refused(w, DatasetNotApproved, reply)
    else
      var id := StableJobId(setup.cfg.sha, q.value);
      if Stored(w.jobs, id) then exists i: nat :: At(w.jobs, id, i) && Follows(setup, w, i, env, reply)
      else if Full(setup.cfg, w.jobs) then Refused(w, QueueLimitExceeded, reply)
      else Follows(setup, w.(jobs := w.jobs + [QueuedJob(id, q.value, None, env.now)]), |w.jobs|, env, reply)
  }

  /** The attempt is the first whose id no job has. */
  ghost predicate FirstAttempt(sha: Sha, s: Jobs, id: Text, n: nat) {
    && n >= 1 && !Stored(s, RetryId(sha, id, n))
    && forall m: nat :: 1 <= m < n ==> Stored(s, RetryId(sha, id, m))
  }

  /**
   A retry: of a job that has failed or was cancelled, with room in the queue. It adds one queued job with the
   request of its parent and a link to it; when no attempt is left the answer never comes.
   */
  ghost predicate RetryRule(setup: Setup, w: World, id: Text, env: Env, reply: Reply) {
    if !IsJobId(id) then Refused(w, ValidationError, reply)
    else if !Stored(w.jobs, id) then Refused(w, NotFound, reply)
    else
      exists i: nat ::
        && At(w.jobs, id, i)
        && if w.jobs[i].status != Failed && w.jobs[i].status != Cancelled then Refused(w, InvalidTransition, reply)
           else if Full(setup.cfg, w.jobs) then Refused(w, QueueLimitExceeded, reply)
           else
             && w.jobs[i].request.Some?
             && ((reply == Reply(w, None) && forall n :: !FirstAttempt(setup.cfg.sha, w.jobs, id, n))
                 || exists n: nat ::
                      && FirstAttempt(setup.cfg.sha, w.jobs, id, n)
                      && Follows(setup,
                                 w.(jobs := w.jobs + [QueuedJob(RetryId(setup.cfg.sha, id, n), w.jobs[i].request.value,
                                                             Some(id), env.now)]),
                                 |w.jobs|, env, reply))
  }

  /** A cancellation ends a queued or running job, and a running one makes room; it leaves a job that is over alone. */
  ghost predicate CancelRule(setup: Setup, w: World, id: Text, now: int, reply: Reply) {
    if !IsJobId(id) then Refused(w, ValidationError, reply)
    else if !Stored(w.jobs, id) then Refused(w, NotFound, reply)
    else
      exists i: nat ::
        && At(w.jobs, id, i)
        && if w.jobs[i].status != Queued && w.jobs[i].status != Running then reply == Reply(w, None)
           else
             var t := reply.world.jobs;
             && reply == Reply(w.(jobs := t), None) && |t| == |w.jobs|
             && t[i] == w.jobs[i].(status := Cancelled, updatedAt := now)
             && if w.jobs[i].status == Queued then OthersStay(w.jobs, t, i)
                else OthersMoveUp(setup.cfg, w.jobs, t, i, now)
  }

  /** The one artifact of a succeeded job is past its time. */
  predicate Due(r: Record, now: int) {
    r.status == Succeeded && |r.artifacts| == 1 && now >= r.artifacts[0].createdAt + r.artifacts[0].retention.ttl
  }

  function Buried(r: Record, provenance: Option<Provenance>, now: int): Record {
    r.(status := Deleted, request := None, artifacts := [], provenance := provenance, deletedAt := Some(now),
       updatedAt := now)
  }

  /** The objects but the one the artifact of the job is stored as. */
  function WithoutObject(objects: map<Text, Bytes>, r: Record): map<Text, Bytes> {
    if |r.artifacts| == 1 && r.artifacts[0].storageKey.Some? then objects - {r.artifacts[0].storageKey.value} else objects
  }

  /** Reading a job buries it, provenance kept, with its object when its time is up. */
  ghost predicate ReadRule(w: World, id: Text, now: int, stamp: int, reply: Reply) {
    if !IsJobId(id) then Refused(w, ValidationError, reply)
    else if !Stored(w.jobs, id) then Refused(w, NotFound, reply)
    else
      exists i: nat ::
        && At(w.jobs, id, i)
        && if Due(w.jobs[i], now) then
             reply == Reply(w.(jobs := w.jobs[i := Buried(w.jobs[i], w.jobs[i].provenance, stamp)],
                               objects := WithoutObject(w.objects, w.jobs[i])), None)
           else reply == Reply(w, None)
  }

  /** A deletion buries a succeeded job whose artifact is named, provenance and object included. */
  ghost predicate DeleteRule(w: World, id: Text, artifactId: Text, now: int, reply: Reply) {
    if !IsJobId(id) || !IsArtifactId(artifactId) then Refused(w, ValidationError, reply)
    else if !Stored(w.jobs, id) then Refused(w, NotFound, reply)
    else
      exists i: nat ::
        && At(w.jobs, id, i)
        && if w.jobs[i].status == Deleted then reply == Reply(w, None)
           else if w.jobs[i].status == Succeeded && |w.jobs[i].artifacts| == 1 && w.jobs[i].artifacts[0].id == artifactId
           then reply == Reply(w.(jobs := w.jobs[i := Buried(w.jobs[i], None, now)],
                                  objects := WithoutObject(w.objects, w.jobs[i])), None)
           else Refused(w, NotFound, reply)
  }

  /** A sweep buries every job that is due, provenance kept, and deletes their objects and no others. */
  ghost predicate SweepRule(w: World, now: int, stamp: int, reply: Reply) {
    var t, objects := reply.world.jobs, reply.world.objects;
    && reply == Reply(w.(jobs := t, objects := objects), None) && |t| == |w.jobs|
    && (forall i :: 0 <= i < |t| ==>
          t[i] == if Due(w.jobs[i], now) then Buried(w.jobs[i], w.jobs[i].provenance, stamp) else w.jobs[i])
    && objects == map key | key in w.objects && !DueKey(w.jobs, now, key) :: w.objects[key]
  }

  predicate DueKey(s: Jobs, now: int, key: Text) {
    exists i :: 0 <= i < |s| && Due(s[i], now) && s[i].artifacts[0].storageKey == Some(key)
  }

  // --- The rules for datasets

  /** What is wrong with a shape, if anything: as registered, its size, a forbidden label, another schema. */
  predicate Flaw(forbidden: LabelTest, shape: Shape, flaw: Option<Reason>) {
    if shape.parseReason.Some? then flaw == shape.parseReason
    else if shape.rowCount < 1 || shape.rowCount > 10_000 then flaw == Some(SyntheticLimit)
    else if exists f :: f in shape.schema && (forbidden(f) || forbidden(shape.schema[f])) then
      flaw == Some(PolicyViolation)
    else if shape.schema == map[Lit("exampleId") := Lit("string"), Lit("inputTokenCount") := Lit("integer"),
                                Lit("outputTokenCount") := Lit("integer"), Lit("split") := Lit("string")]
    then flaw == None
    else flaw == Some(SchemaMismatch)
  }

  predicate Reviewed(w: World, ds: Registry, reply: Reply) {
    reply == Reply(w.(datasets := ds), None)
  }

  predicate RegisterRule(w: World, id: Text, shape: Shape, now: int, reply: Reply) {
    if !TrainingDatasetId(id) then Refused(w, ValidationError, reply)
    else if id !in w.datasets then
      Reviewed(w, w.datasets[id := DatasetRecord(ReviewStatus.Registered, None, shape, now, now)], reply)
    else if w.datasets[id].status == Approved || w.datasets[id].status == Rejected then Refused(w, Conflict, reply)
    else Reviewed(w, w.datasets, reply)
  }

  /** A registered dataset is decided for good by its shape; a decided one cannot be submitted again. */
  ghost predicate SubmitRule(forbidden: LabelTest, w: World, id: Text, now: int, reply: Reply) {
    if !TrainingDatasetId(id) then Refused(w, ValidationError, reply)
    else if id !in w.datasets then Refused(w, NotFound, reply)
    else if w.datasets[id].status != ReviewStatus.Registered then Refused(w, InvalidTransition, reply)
    else
      exists flaw ::
        && Flaw(forbidden, w.datasets[id].shape, flaw)
        && Reviewed(w, w.datasets[id := w.datasets[id].(status := if flaw.None? then Approved else Rejected,
                                                        reason := flaw, updatedAt := now)], reply)
  }

  predicate ApproveRule(w: World, id: Text, now: int, reply: Reply) {
    if !TrainingDatasetId(id) then Refused(w, ValidationError, reply)
    else if id !in w.datasets then Refused(w, NotFound, reply)
    else if w.datasets[id].status != Approved then Refused(w, InvalidTransition, reply)
    else Reviewed(w, w.datasets[id := w.datasets[id].(updatedAt := now)], reply)
  }

  predicate RejectRule(w: World, id: Text, reply: Reply) {
    if !TrainingDatasetId(id) then Refused(w, ValidationError, reply)
    else if id !in w.datasets then Refused(w, NotFound, reply)
    else if w.datasets[id].status != Rejected then Refused(w, InvalidTransition, reply)
    else Reviewed(w, w.datasets, reply)
  }

  // --- The service keeps the rules

  lemma StoredAt(s: Jobs, id: Text)
    requires UniqueIds(s)
    ensures Stored(s, id) <==> Holds(s, id)
    ensures forall i: nat :: At(s, id, i) ==> Find(s, id) == Some(i)
    ensures Holds(s, id) ==> At(s, id, Find(s, id).value)
  {
    forall i: nat | At(s, id, i)
      ensures Find(s, id) == Some(i)
    {
      FindAt(s, i);
    }
    if Holds(s, id) {
      assert At(s, id, Find(s, id).value);
    }
  }

  lemma IdsUnique(setup: Setup, w: World)
    requires Calm(setup, w)
    ensures UniqueIds(w.jobs) && JobsOk(w.jobs) && OneResult(w.jobs)
  {
  }

  lemma RunFollows(setup: Setup, v: World, id: Text, env: Env)
    requires Calm(setup, v) && Holds(v.jobs, id)
    ensures Follows(setup, v, Find(v.jobs, id).value, env, RunIfConfigured(setup, v, id, env))
  {
    hide Calm, Ends, OthersStay, OthersMoveUp, RunNow;
    if Runs(setup, v.jobs, id) {
      RunExactly(setup, v, id, env);
    }
  }

  lemma FullExactly(cfg: Config, s: Jobs)
    ensures Full(cfg, s) <==> ActiveCount(s) >= cfg.queueLimit
  {
    hide Count, Occupying;
    ActiveIsSize(s);
  }

  lemma CreateKeepsRule(setup: Setup, w: World, payload: seq<Member>, env: Env)
    requires Calm(setup, w)
    ensures CreateRule(setup, w, payload, env, ServeCreate(setup, w, payload, env))
  {
    hide Calm, FromMapping, StableJobId, RunIfConfigured, Follows, Count, Full, ValidRequest, Stored, UniqueIds;
    var q := FromMapping(payload);
    if q.Ok? {
      ApprovedExactly(w.datasets, q.value);
      var id := StableJobId(setup.cfg.sha, q.value);
      IdsUnique(setup, w);
      StoredAt(w.jobs, id);
      FullExactly(setup.cfg, w.jobs);
      if IsApproved(w.datasets, q.value.datasetId) && (Holds(w.jobs, id) || !Full(setup.cfg, w.jobs)) {
        CreationRests(setup, w, q.value, env.now);
        var v := w.(jobs := Create(setup.cfg, w.jobs, q.value, env.now).value);
        RunFollows(setup, v, id, env);
        LastIs(w.jobs, QueuedJob(id, q.value, None, env.now));
      }
    }
  }

  lemma ApprovedExactly(ds: Registry, q: Request)
    requires ValidRequest(q)
    ensures IsApproved(ds, q.datasetId) <==> q.datasetId in ds && ds[q.datasetId].status == Approved
  {
    hide TrainingDatasetId, SafeIdentifier;
  }

  lemma LastIs(s: Jobs, r: Record)
    ensures Find(s + [r], r.id) == Some(|s|)
  {
  }

  lemma CreationRests(setup: Setup, w: World, q: Request, now: int)
    requires Calm(setup, w) && ValidRequest(q) && Create(setup.cfg, w.jobs, q, now).Ok?
    ensures Calm(setup, w.(jobs := Create(setup.cfg, w.jobs, q, now).value))
    ensures Holds(Create(setup.cfg, w.jobs, q, now).value, StableJobId(setup.cfg.sha, q))
  {
    hide StoreInv, Decided, StorageAgrees, OneResult, ValidRequest, StableJobId, Count;
    StoreKeptByCreate(setup.cfg, w.jobs, q, now);
    if !Holds(w.jobs, StableJobId(setup.cfg.sha, q)) {
      AppendedOne(w.jobs, NewRecord(StableJobId(setup.cfg.sha, q), q, None, now));
    }
  }

  lemma FirstExactly(sha: Sha, s: Jobs, id: Text, n: nat)
    requires UniqueIds(s)
    ensures FirstAttempt(sha, s, id, n) <==> LeastFree(sha, s, id, n)
    ensures FirstAttempt(sha, s, id, n) ==> RetryAttempt(sha, s, id) == Some(n)
  {
    hide RetryId, UniqueIds, Stored;
    StoredAt(s, RetryId(sha, id, n));
    forall m: nat
      ensures m >= 1 ==> (FreeAttempt(sha, s, id, m) <==> !Stored(s, RetryId(sha, id, m)))
    {
      StoredAt(s, RetryId(sha, id, m));
    }
    if LeastFree(sha, s, id, n) {
      LeastFreeUnique(sha, s, id, n);
    }
  }

  lemma RetryKeepsRule(setup: Setup, w: World, id: Text, env: Env)
    requires Calm(setup, w)
    ensures RetryRule(setup, w, id, env, ServeRetry(setup, w, id, env))
  {
    hide Calm, RetryId, RunIfConfigured, Follows, Count, Full, Stored, UniqueIds, IsJobId, FirstAttempt, At, LeastFree;
    IdsUnique(setup, w);
    StoredAt(w.jobs, id);
    FullExactly(setup.cfg, w.jobs);
    if IsJobId(id) && Holds(w.jobs, id) {
      var i := Find(w.jobs, id).value;
      EndedHasRequest(w.jobs, i);
      if RetryRefusal(setup.cfg, w.jobs, id).None? {
        RetryAccepted(setup, w, id, i, env);
      }
    }
  }

  lemma EndedHasRequest(s: Jobs, i: nat)
    requires JobsOk(s) && i < |s|
    ensures s[i].status == Failed || s[i].status == Cancelled ==> s[i].request.Some?
  {
    assert s[i] in s && RecordOk(s[i]);
  }

  lemma RetryAccepted(setup: Setup, w: World, id: Text, i: nat, env: Env)
    requires Calm(setup, w) && IsJobId(id) && Find(w.jobs, id) == Some(i) && RetryRefusal(setup.cfg, w.jobs, id).None?
    ensures var reply := ServeRetry(setup, w, id, env);
            || (reply == Reply(w, None) && forall n :: !FirstAttempt(setup.cfg.sha, w.jobs, id, n))
            || exists n: nat ::
                 && FirstAttempt(setup.cfg.sha, w.jobs, id, n)
                 && Follows(setup,
                            w.(jobs := w.jobs + [QueuedJob(RetryId(setup.cfg.sha, id, n), w.jobs[i].request.value,
                                                           Some(id), env.now)]),
                            |w.jobs|, env, reply)
  {
    hide Calm, RetryId, RunIfConfigured, Follows, IsJobId, FirstAttempt, LeastFree, RetryRefusal;
    IdsUnique(setup, w);
    var n := RetryAttempt(setup.cfg.sha, w.jobs, id);
    if n.None? {
      forall m
        ensures !FirstAttempt(setup.cfg.sha, w.jobs, id, m)
      {
        FirstExactly(setup.cfg.sha, w.jobs, id, m);
      }
    } else {
      FirstExactly(setup.cfg.sha, w.jobs, id, n.value);
      RetrialRests(setup, w, id, n.value, env.now);
      var r := QueuedJob(RetryId(setup.cfg.sha, id, n.value), w.jobs[i].request.value, Some(id), env.now);
      LastIs(w.jobs, r);
      RunFollows(setup, w.(jobs := w.jobs + [r]), r.id, env);
    }
  }

  lemma RetrialRests(setup: Setup, w: World, id: Text, n: nat, now: int)
    requires Calm(setup, w) && RetryRefusal(setup.cfg, w.jobs, id).None? && LeastFree(setup.cfg.sha, w.jobs, id, n)
    ensures var r := QueuedJob(RetryId(setup.cfg.sha, id, n), w.jobs[Find(w.jobs, id).value].request.value, Some(id), now);
            && Calm(setup, w.(jobs := w.jobs + [r])) && Retried(setup.cfg, w.jobs, id, n, now) == w.jobs + [r]
  {
    hide StoreInv, Decided, StorageAgrees, OneResult, RetryId, RetryRefusal;
    StoreKeptByRetry(setup.cfg, w.jobs, id, n, now);
    AppendedOne(w.jobs, Retried(setup.cfg, w.jobs, id, n, now)[|w.jobs|]);
  }

  lemma CancelKeepsRule(setup: Setup, w: World, id: Text, now: int)
    requires Calm(setup, w)
    ensures CancelRule(setup, w, id, now, ServeCancel(setup, w, id, now))
  {
    hide Calm, Stored, UniqueIds, IsJobId, At, Promote, Count, Ahead, SlotsBut;
    IdsUnique(setup, w);
    StoredAt(w.jobs, id);
    if Holds(w.jobs, id) {
      var i := Find(w.jobs, id).value;
      if w.jobs[i].status == Running {
        MovesUp(setup.cfg, w.jobs, i, Cancelled, now);
      }
    }
  }

  lemma DueExactly(r: Record, now: int)
    requires HoldsOne(r)
    ensures Due(r, now) <==> Expired(r, now)
    ensures Due(r, now) ==> ExpiredKey(r, now) == r.artifacts[0].storageKey
    ensures !Due(r, now) ==> ExpiredKey(r, now) == None
  {
    if |r.artifacts| == 1 {
      assert r.artifacts == [r.artifacts[0]];
      assert FirstExpired(r.artifacts[1..], now).None?;
    }
  }

  lemma ReadKeepsRule(setup: Setup, w: World, id: Text, now: int, stamp: int)
    requires Calm(setup, w)
    ensures ReadRule(w, id, now, stamp, ServeRead(w, id, now, stamp))
  {
    hide Calm, Stored, UniqueIds, IsJobId, At, Due, Expired, ExpiredKey;
    IdsUnique(setup, w);
    StoredAt(w.jobs, id);
    if Holds(w.jobs, id) {
      var i := Find(w.jobs, id).value;
      assert HoldsOne(w.jobs[i]);
      DueExactly(w.jobs[i], now);
      if Due(w.jobs[i], now) {
        OneWhenDue(w.jobs[i], now);
      }
      assert w.jobs[i := w.jobs[i]] == w.jobs;
    }
  }

  lemma OneWhenDue(r: Record, now: int)
    requires Due(r, now)
    ensures |r.artifacts| == 1
  {
  }

  lemma DeleteKeepsRule(setup: Setup, w: World, id: Text, artifactId: Text, now: int)
    requires Calm(setup, w)
    ensures DeleteRule(w, id, artifactId, now, ServeDelete(w, id, artifactId, now))
  {
    hide Calm, Stored, UniqueIds, IsJobId, IsArtifactId, At, FindArtifact;
    IdsUnique(setup, w);
    StoredAt(w.jobs, id);
    if Holds(w.jobs, id) {
      var i := Find(w.jobs, id).value;
      assert HoldsOne(w.jobs[i]);
      OneFound(w.jobs[i], artifactId);
    }
  }

  lemma OneFound(r: Record, artifactId: Text)
    requires HoldsOne(r)
    ensures FindArtifact(r.artifacts, artifactId) ==
            if r.status == Succeeded && r.artifacts[0].id == artifactId then Some(r.artifacts[0]) else None
  {
    if r.status == Succeeded {
      assert FindArtifact(r.artifacts[1..], artifactId) == None;
    }
  }

  lemma SweepKeepsRule(setup: Setup, w: World, now: int, stamp: int)
    requires Calm(setup, w)
    ensures SweepRule(w, now, stamp, ServeSweep(w, now, stamp))
  {
    hide Calm, UniqueIds, Expired, ExpiredKey, ExpiredKeys, SortById, HoldsOne;
    IdsUnique(setup, w);
    var keys := ExpiredKeys(SortById(w.jobs), now);
    forall i | 0 <= i < |w.jobs|
      ensures Due(w.jobs[i], now) <==> Expired(w.jobs[i], now)
      ensures ExpiredKey(w.jobs[i], now) == if Due(w.jobs[i], now) then w.jobs[i].artifacts[0].storageKey else None
    {
      DueExactly(w.jobs[i], now);
    }
    forall key
      ensures key in keys <==> DueKey(w.jobs, now, key)
    {
      SweptKeys(w.jobs, now, key);
    }
    var objects := ServeSweep(w, now, stamp).world.objects;
    assert objects == map key | key in w.objects && !DueKey(w.jobs, now, key) :: w.objects[key];
  }

  lemma FlawExactly(forbidden: LabelTest, shape: Shape, flaw: Option<Reason>)
    ensures Flaw(forbidden, shape, flaw) <==> flaw == Verdict(forbidden, shape)
  {
  }

  lemma ReviewsKeepRules(setup: Setup, w: World, id: Text, shape: Shape, reason: Reason, now: int)
    requires Calm(setup, w)
    ensures RegisterRule(w, id, shape, now, WithReview(w, RegisterShape(w.datasets, id, shape, now)))
    ensures SubmitRule(setup.forbidden, w, id, now, WithReview(w, Submit(setup.forbidden, w.datasets, id, now)))
    ensures ApproveRule(w, id, now, WithReview(w, Approve(w.datasets, id, now)))
    ensures RejectRule(w, id, WithReview(w, Reject(w.datasets, id, reason, now)))
  {
    hide StoreInv, OneResult, StorageAgrees, TrainingDatasetId, Verdict, Flaw;
    if id in w.datasets {
      assert RecordDecided(setup.forbidden, w.datasets[id]);
      var shape := w.datasets[id].shape;
      FlawExactly(setup.forbidden, shape, Verdict(setup.forbidden, shape));
    }
  }

  // --- The rules decide

  /** How a request may be answered. */
  ghost predicate Rule(setup: Setup, w: World, call: Call, reply: Reply) {
    match call
    case CreateJob(payload, env) => CreateRule(setup, w, payload, env, reply)
    case RetryJob(id, env) => RetryRule(setup, w, id, env, reply)
    case CancelCall(id, now) => CancelRule(setup, w, id, now, reply)
    case ReadCall(id, now, stamp) => ReadRule(w, id, now, stamp, reply)
    case DeleteCall(id, artifactId, now) => DeleteRule(w, id, artifactId, now, reply)
    case SweepCall(now, stamp) => SweepRule(w, now, stamp, reply)
    case RegisterCall(id, shape, now) => RegisterRule(w, id, shape, now, reply)
    case SubmitCall(id, now) => SubmitRule(setup.forbidden, w, id, now, reply)
    case ApproveCall(id, now) => ApproveRule(w, id, now, reply)
    case RejectCall(id, reason, now) => RejectRule(w, id, reply)
  }

  lemma SameOthers(s: Jobs, t: Jobs, u: Jobs, i: nat)
    requires i < |s| && OthersStay(s, t, i) && OthersStay(s, u, i) && t[i] == u[i]
    ensures t == u
  {
  }

  lemma SameMovers(cfg: Config, s: Jobs, t: Jobs, u: Jobs, i: nat, now: int)
    requires i < |s| && OthersMoveUp(cfg, s, t, i, now) && OthersMoveUp(cfg, s, u, i, now) && t[i] == u[i]
    ensures t == u
  {
    hide Ahead, SlotsBut;
    forall j | 0 <= j < |s|
      ensures t[j] == u[j]
    {
    }
  }

  lemma FollowsOneWay(setup: Setup, v: World, i: nat, env: Env, a: Reply, b: Reply)
    requires Follows(setup, v, i, env, a) && Follows(setup, v, i, env, b)
    ensures a == b
  {
    hide OthersStay, OthersMoveUp, SucceededWith, ReportOf, ObjectKey;
    if a != Reply(v, None) || b != Reply(v, None) {
      var q := v.jobs[i].request.value;
      EndsOneWay(setup, v.jobs[i], q, env, v.objects, a.world, b.world, i, a.error, b.error);
      if q.modelId == Lit("scooling-lab-gpu-personal-v1") && env.training.Crashed? {
        SameOthers(v.jobs, a.world.jobs, b.world.jobs, i);
      } else {
        SameMovers(setup.cfg, v.jobs, a.world.jobs, b.world.jobs, i, env.now);
      }
    }
  }

  lemma EndsOneWay(setup: Setup, r: Record, q: Request, env: Env, before: map<Text, Bytes>, a: World, b: World, i: nat,
      e: Option<ErrorCode>, f: Option<ErrorCode>)
    requires i < |a.jobs| && i < |b.jobs|
    requires Ends(setup, r, q, env, a.jobs[i], before, a.objects, e) && Ends(setup, r, q, env, b.jobs[i], before, b.objects, f)
    ensures a.jobs[i] == b.jobs[i] && a.objects == b.objects && e == f
  {
    hide SucceededWith, ReportOf, ObjectKey;
  }

  lemma RetryOneWay(setup: Setup, w: World, id: Text, env: Env, a: Reply, b: Reply)
    requires UniqueIds(w.jobs) && RetryRule(setup, w, id, env, a) && RetryRule(setup, w, id, env, b)
    ensures a == b
  {
    hide Stored, UniqueIds, IsJobId, FirstAttempt, At, Full, Follows, RetryId;
    StoredAt(w.jobs, id);
    if IsJobId(id) && Stored(w.jobs, id) {
      var i := Find(w.jobs, id).value;
      forall n: nat, m: nat | FirstAttempt(setup.cfg.sha, w.jobs, id, n) && FirstAttempt(setup.cfg.sha, w.jobs, id, m)
        ensures n == m
      {
        FirstExactly(setup.cfg.sha, w.jobs, id, n);
        FirstExactly(setup.cfg.sha, w.jobs, id, m);
      }
      forall v, x: Reply, y: Reply | Follows(setup, v, |w.jobs|, env, x) && Follows(setup, v, |w.jobs|, env, y)
        ensures x == y
      {
        FollowsOneWay(setup, v, |w.jobs|, env, x, y);
      }
    }
  }

  lemma CreateOneWay(setup: Setup, w: World, payload: seq<Member>, env: Env, a: Reply, b: Reply)
    requires UniqueIds(w.jobs) && CreateRule(setup, w, payload, env, a) && CreateRule(setup, w, payload, env, b)
    ensures a == b
  {
    hide Stored, UniqueIds, At, Full, Follows, FromMapping, StableJobId, ValidRequest;
    var q := FromMapping(payload);
    if q.Ok? {
      StoredAt(w.jobs, StableJobId(setup.cfg.sha, q.value));
      forall v, i: nat, x: Reply, y: Reply | Follows(setup, v, i, env, x) && Follows(setup, v, i, env, y)
        ensures x == y
      {
        FollowsOneWay(setup, v, i, env, x, y);
      }
    }
  }

  lemma CancelOneWay(setup: Setup, w: World, id: Text, now: int, a: Reply, b: Reply)
    requires UniqueIds(w.jobs) && CancelRule(setup, w, id, now, a) && CancelRule(setup, w, id, now, b)
    ensures a == b
  {
    hide Stored, UniqueIds, IsJobId, At, OthersStay, OthersMoveUp;
    StoredAt(w.jobs, id);
    if IsJobId(id) && Stored(w.jobs, id) {
      var i := Find(w.jobs, id).value;
      if w.jobs[i].status == Queued {
        SameOthers(w.jobs, a.world.jobs, b.world.jobs, i);
      } else if w.jobs[i].status == Running {
        SameMovers(setup.cfg, w.jobs, a.world.jobs, b.world.jobs, i, now);
      }
    }
  }

  lemma DeletionsOneWay(setup: Setup, w: World, call: Call, a: Reply, b: Reply)
    requires UniqueIds(w.jobs) && (call.ReadCall? || call.DeleteCall? || call.SweepCall?)
    requires Rule(setup, w, call, a) && Rule(setup, w, call, b)
    ensures a == b
  {
    hide Stored, UniqueIds, IsJobId, IsArtifactId, At, Due, Buried, WithoutObject, DueKey;
    if !call.SweepCall? {
      StoredAt(w.jobs, call.id);
    } else {
      assert a.world.jobs == b.world.jobs;
    }
  }

  /** A request to a service at rest is answered in some way if and only if its rule says so. */
  lemma ServedByRule(setup: Setup, w: World, call: Call, reply: Reply)
    requires Calm(setup, w)
    ensures reply == Serve(setup, w, call) <==> Rule(setup, w, call, reply)
  {
    hide Calm, UniqueIds, ServeCreate, ServeRetry, ServeCancel, ServeRead, ServeDelete, ServeSweep, RegisterShape,
      Submit, Approve, Reject, CreateRule, RetryRule, CancelRule, ReadRule, DeleteRule, SweepRule, Flaw, Verdict,
      TrainingDatasetId;
    IdsUnique(setup, w);
    RuleKept(setup, w, call);
    if Rule(setup, w, call, reply) {
      OneAnswer(setup, w, call, reply, Serve(setup, w, call));
    }
  }

  lemma RuleKept(setup: Setup, w: World, call: Call)
    requires Calm(setup, w)
    ensures Rule(setup, w, call, Serve(setup, w, call))
  {
    hide Calm, UniqueIds, ServeCreate, ServeRetry, ServeCancel, ServeRead, ServeDelete, ServeSweep, RegisterShape,
      Submit, Approve, Reject, CreateRule, RetryRule, CancelRule, ReadRule, DeleteRule, SweepRule, RegisterRule,
      SubmitRule, ApproveRule, RejectRule;
    match call
    case CreateJob(payload, env) => CreateKeepsRule(setup, w, payload, env);
    case RetryJob(id, env) => RetryKeepsRule(setup, w, id, env);
    case CancelCall(id, now) => CancelKeepsRule(setup, w, id, now);
    case ReadCall(id, now, stamp) => ReadKeepsRule(setup, w, id, now, stamp);
    case DeleteCall(id, artifactId, now) => DeleteKeepsRule(setup, w, id, artifactId, now);
    case SweepCall(now, stamp) => SweepKeepsRule(setup, w, now, stamp);
    case RegisterCall(id, shape, now) => ReviewsKeepRules(setup, w, id, shape, PolicyViolation, now);
    case SubmitCall(id, now) => ReviewsKeepRules(setup, w, id, DefaultShape(), PolicyViolation, now);
    case ApproveCall(id, now) => ReviewsKeepRules(setup, w, id, DefaultShape(), PolicyViolation, now);
    case RejectCall(id, reason, now) => ReviewsKeepRules(setup, w, id, DefaultShape(), reason, now);
  }

  lemma OneAnswer(setup: Setup, w: World, call: Call, a: Reply, b: Reply)
    requires UniqueIds(w.jobs) && Rule(setup, w, call, a) && Rule(setup, w, call, b)
    ensures a == b
  {
    hide UniqueIds, CreateRule, RetryRule, CancelRule, ReadRule, DeleteRule, SweepRule, Flaw, TrainingDatasetId;
    match call
    case CreateJob(payload, env) => CreateOneWay(setup, w, payload, env, a, b);
    case RetryJob(id, env) => RetryOneWay(setup, w, id, env, a, b);
    case CancelCall(id, now) => CancelOneWay(setup, w, id, now, a, b);
    case ReadCall(id, now, stamp) => DeletionsOneWay(setup, w, call, a, b);
    case DeleteCall(id, artifactId, now) => DeletionsOneWay(setup, w, call, a, b);
    case SweepCall(now, stamp) => DeletionsOneWay(setup, w, call, a, b);
    case SubmitCall(id, now) =>
      forall x: Option<Reason>, y: Option<Reason> |
        id in w.datasets && Flaw(setup.forbidden, w.datasets[id].shape, x) && Flaw(setup.forbidden, w.datasets[id].shape, y)
        ensures x == y
      {
        FlawExactly(setup.forbidden, w.datasets[id].shape, x);
        FlawExactly(setup.forbidden, w.datasets[id].shape, y);
      }
    case _ =>
  }
}
