/** Whatever is in storage, requests keep the store in order: so they do after a restart, when objects are orphaned. */
module CalmRuns {
  import opened Texts
  import opened Utf8
  import opened Json
  import opened Contracts
  import opened StateMachine
  import opened Jobs
  import opened JobFacts
  import opened JobInvariants
  import opened Datasets
  import opened Sorting
  import opened Tokens
  import opened Persistence
  import opened Restarts
  import opened Protocol
  import opened ProtocolInvariants
  import opened Lifetimes
  import opened TrainingStores
  import opened Workers
  import opened Serial
  import opened SerialFacts
  import opened SerialTheorems
  import opened RequestRules

  // --- Objects do not matter to the jobs

  /** The same jobs, reviews and error. */
  predicate Alike(a: Reply, b: Reply) {
    a.world.jobs == b.world.jobs && a.world.datasets == b.world.datasets && a.error == b.error
  }

  lemma {:induction false} UploadsAlike(w: World, o: map<Text, Bytes>, id: Text, artifacts: seq<Artifact>,
      content: Bytes,
      now: int)
    ensures Alike(UploadEach(w.(objects := o), id, artifacts, content, now), UploadEach(w, id, artifacts, content, now))
  {
    hide SetStorageKey, StorageKey;
    if artifacts != [] {
      UploadsAlike(w, o, id, artifacts[..|artifacts| - 1], content, now);
    }
  }

  lemma RunAlike(setup: Setup, w: World, o: map<Text, Bytes>, id: Text, env: Env)
    ensures Alike(RunIfConfigured(setup, w.(objects := o), id, env), RunIfConfigured(setup, w, id, env))
  {
    hide RunJob, JobTraining, UploadEach, Find;
    if RequestOf(w.jobs, id).Some? {
      var done := RunJob(setup.cfg, w.jobs, id, TrainingOf(setup, w.jobs, id, env), env.now).jobs;
      if Holds(done, id) && env.tarball.Tarball? {
        UploadsAlike(w.(jobs := done), o, id, done[Find(done, id).value].artifacts, env.tarball.content, env.now);
        assert w.(jobs := done).(objects := o) == w.(objects := o).(jobs := done);
      }
    }
  }

  lemma NewJobAlike(setup: Setup, w: World, o: map<Text, Bytes>, call: Call)
    requires call.CreateJob? || call.RetryJob?
    ensures Alike(Serve(setup, w.(objects := o), call), Serve(setup, w, call))
  {
    hide RunIfConfigured, FromMapping, IsApproved, Create, StableJobId, ValidRequest, RetryRefusal, RetryAttempt,
      Retried, RetryId, IsJobId;
    if call.CreateJob? {
      var q := FromMapping(call.payload);
      if q.Ok? && Create(setup.cfg, w.jobs, q.value, call.env.now).Ok? {
        var t := Create(setup.cfg, w.jobs, q.value, call.env.now).value;
        RunAlike(setup, w.(jobs := t), o, StableJobId(setup.cfg.sha, q.value), call.env);
      }
    } else if RetryRefusal(setup.cfg, w.jobs, call.id).None? && RetryAttempt(setup.cfg.sha, w.jobs, call.id).Some? {
      var n := RetryAttempt(setup.cfg.sha, w.jobs, call.id).value;
      var t := Retried(setup.cfg, w.jobs, call.id, n, call.env.now);
      RunAlike(setup, w.(jobs := t), o, RetryId(setup.cfg.sha, call.id, n), call.env);
    }
  }

  lemma ServeAlike(setup: Setup, w: World, o: map<Text, Bytes>, call: Call)
    ensures Alike(Serve(setup, w.(objects := o), call), Serve(setup, w, call))
  {
    hide ServeCreate, ServeRetry, Cancel, EvaluateExpiry, DeleteArtifact, Sweep, Without, Remaining, ExpiredKey,
      ExpiredKeys, RegisterShape, Submit, Approve, Reject, IsJobId, Find;
    if call.CreateJob? || call.RetryJob? {
      NewJobAlike(setup, w, o, call);
    }
  }

  /** Objects that would agree with the jobs. */
  function KeyObjects(s: Jobs): map<Text, Bytes> {
    if s == [] then map[]
    else
      var key := KeyOf(s[|s| - 1]);
      if key.Some? then KeyObjects(s[..|s| - 1])[key.value := []] else KeyObjects(s[..|s| - 1])
  }

  lemma {:induction false} KeyObjectsHold(s: Jobs, key: Text)
    ensures key in KeyObjects(s) <==> KeyHeld(s, key)
  {
    hide KeyOf;
    if s != [] {
      var n := |s| - 1;
      KeyObjectsHold(s[..n], key);
      if KeyHeld(s[..n], key) {
        var i :| 0 <= i < n && KeyOf(s[..n][i]) == Some(key);
        assert KeyOf(s[i]) == Some(key);
      }
      if KeyHeld(s, key) {
        var i :| 0 <= i < |s| && KeyOf(s[i]) == Some(key);
        assert i < n ==> KeyOf(s[..n][i]) == Some(key);
      }
    }
  }

  lemma KeyObjectsAgree(s: Jobs)
    ensures StorageAgrees(s, KeyObjects(s))
  {
    hide KeyObjects, KeyHeld;
    forall key
      ensures key in KeyObjects(s) <==> KeyHeld(s, key)
    {
      KeyObjectsHold(s, key);
    }
  }

  // --- Requests and restarts

  /** Every request keeps the store in order, whatever is in storage. */
  lemma ServeKeepsCalm(setup: Setup, w: World, call: Call)
    requires Calm(setup, w)
    ensures Calm(setup, Serve(setup, w, call).world)
  {
    hide StoreInv, Decided, OneResult, StorageAgrees, Serve, JobsEvolve;
    var o := KeyObjects(w.jobs);
    KeyObjectsAgree(w.jobs);
    ServeRests(setup, w.(objects := o), call);
    ServeAlike(setup, w, o, call);
  }

  lemma {:induction false} RunKeepsCalm(setup: Setup, w: World, calls: seq<Call>)
    requires Calm(setup, w)
    ensures Calm(setup, ServeAll(setup, w, calls))
    decreases |calls|
  {
    hide Calm, Serve;
    if calls != [] {
      RunKeepsCalm(setup, w, calls[..|calls| - 1]);
      ServeKeepsCalm(setup, ServeAll(setup, w, calls[..|calls| - 1]), calls[|calls| - 1]);
    }
  }

  /** The world of a new process: the jobs as loaded, the objects still there, no reviews but the fixture's. */
  function RestartedWorld(w: World, now: int): World {
    World(AfterRestart(w.jobs), w.objects, InitialRegistry(now))
  }

  lemma RestartedHoldsOne(r: Record)
    requires HoldsOne(r)
    ensures HoldsOne(Restarted(r))
  {
  }

  lemma RestartIsCalm(setup: Setup, w: World, now: int)
    requires Calm(setup, w) && SchemaAllowed(setup.forbidden)
    ensures Calm(setup, RestartedWorld(w, now))
  {
    hide StoreInv, Decided, HoldsOne, AfterRestart, SchemaAllowed, InitialRegistry, Restarted;
    StoreRestarted(setup.cfg, w.jobs);
    InitialDecided(setup.forbidden, now);
    IdsOfStore(setup.cfg, w.jobs);
    forall j: nat | j < |AfterRestart(w.jobs)|
      ensures HoldsOne(AfterRestart(w.jobs)[j])
    {
      var i := StoodBefore(w.jobs, j);
      RestartedHoldsOne(w.jobs[i]);
    }
  }

  lemma IdsOfStore(cfg: Config, s: Jobs)
    requires StoreInv(cfg, s)
    ensures UniqueIds(s)
  {
  }

  /** A process: when it starts and what it is asked. */
  datatype Session = Session(start: int, calls: seq<Call>)

  /** The world after processes one after another, each started from what the one before saved. */
  ghost function Sessions(setup: Setup, sessions: seq<Session>): World
    decreases |sessions|
  {
    if sessions == [] then Fresh(0)
    else
      var last := sessions[|sessions| - 1];
      ServeAll(setup, RestartedWorld(Sessions(setup, sessions[..|sessions| - 1]), last.start), last.calls)
  }

  lemma {:induction false} SessionsAreCalm(setup: Setup, sessions: seq<Session>)
    requires SchemaAllowed(setup.forbidden)
    ensures Calm(setup, Sessions(setup, sessions))
    decreases |sessions|
  {
    hide Calm, SchemaAllowed, ServeAll, RestartedWorld, Rest, Fresh;
    if sessions == [] {
      FreshRests(setup, 0);
      RestIsCalm(setup, Fresh(0));
    } else {
      var n := |sessions| - 1;
      SessionsAreCalm(setup, sessions[..n]);
      RestartIsCalm(setup, Sessions(setup, sessions[..n]), sessions[n].start);
      RunKeepsCalm(setup, RestartedWorld(Sessions(setup, sessions[..n]), sessions[n].start), sessions[n].calls);
    }
  }

  /** At any time, after whatever requests and restarts, a request is answered just as its rule says. */
  lemma AlwaysByRule(setup: Setup, sessions: seq<Session>, call: Call, reply: Reply)
    requires SchemaAllowed(setup.forbidden)
    ensures var w := Sessions(setup, sessions);
            reply == Serve(setup, w, call) <==> Rule(setup, w, call, reply)
  {
    hide Calm, SchemaAllowed, Serve, Rule, Sessions;
    SessionsAreCalm(setup, sessions);
    ServedByRule(setup, Sessions(setup, sessions), call, reply);
  }
}
