/** Where the content of every stored object comes from. */
module StoredContents {
  import opened Texts
  import opened Utf8
  import opened Json
  import opened Contracts
  import opened StateMachine
  import opened Jobs
  import opened JobInvariants
  import opened Datasets
  import opened Tokens
  import opened Protocol
  import opened ProtocolInvariants
  import opened TrainingStores
  import opened Workers
  import opened Serial
  import opened SerialFacts
  import opened SerialTheorems
  import opened SerialResults
  import opened Outcomes
  import opened RequestRules

  /** The request made a job succeed whose artifact has the key, and the tarball it met had this content. */
  ghost predicate Uploads(w: World, call: Call, u: World, key: Text, content: Bytes) {
    && (call.CreateJob? || call.RetryJob?)
    && call.env.tarball == Tarball(content)
    && exists i: nat :: HeldBy(u.jobs, i, key) && (i < |w.jobs| ==> Active(w.jobs[i].status))
  }

  lemma FollowedContent(setup: Setup, w: World, v: World, i: nat, call: Call, reply: Reply, key: Text)
    requires (call.CreateJob? || call.RetryJob?) && Follows(setup, v, i, call.env, reply)
    requires v.objects == w.objects && (i < |w.jobs| ==> w.jobs[i] == v.jobs[i]) && key in reply.world.objects
    ensures (key in w.objects && reply.world.objects[key] == w.objects[key])
            || Uploads(w, call, reply.world, key, reply.world.objects[key])
  {
    hide OthersStay, OthersMoveUp, ReportOf, ObjectKey;
    if !(key in w.objects && reply.world.objects[key] == w.objects[key]) {
      assert HeldBy(reply.world.jobs, i, key);
    }
  }

  /** An object is as it was, or the request has just put it there. */
  lemma ServedContent(setup: Setup, w: World, call: Call, key: Text)
    requires Rest(setup, w) && key in Serve(setup, w, call).world.objects
    ensures var u := Serve(setup, w, call).world;
            (key in w.objects && u.objects[key] == w.objects[key]) || Uploads(w, call, u, key, u.objects[key])
  {
    hide Rest, Calm, Serve, Uploads, Follows, Stored, At, Full, Due, Buried, FirstAttempt, OthersStay, OthersMoveUp,
      IsJobId, IsArtifactId, StableJobId, RetryId, FromMapping, DueKey, Flaw, TrainingDatasetId;
    var reply := Serve(setup, w, call);
    RestIsCalm(setup, w);
    ServedByRule(setup, w, call, reply);
    if !(key in w.objects && reply.world.objects[key] == w.objects[key]) && (call.CreateJob? || call.RetryJob?) {
      forall v, i: nat |
        Follows(setup, v, i, call.env, reply) && v.objects == w.objects && (i < |w.jobs| ==> Kept(w.jobs, v.jobs, i))
        ensures Uploads(w, call, reply.world, key, reply.world.objects[key])
      {
        FollowedContent(setup, w, v, i, call, reply, key);
      }
      JobsAt(w.jobs);
    }
  }

  predicate Kept(s: Jobs, t: Jobs, i: nat) {
    i < |s| && i < |t| && s[i] == t[i]
  }

  lemma JobsAt(s: Jobs)
    ensures forall id, i: nat :: RequestRules.At(s, id, i) ==> Kept(s, s, i)
  {
  }

  /** The request at the position did that, in the run. */
  ghost predicate UploadsAt(setup: Setup, now: int, calls: seq<Call>, k: nat, key: Text, content: Bytes) {
    && k < |calls|
    && Uploads(ServedUpTo(setup, now, calls, k), calls[k], ServedUpTo(setup, now, calls, k + 1), key, content)
  }

  lemma UploadsInPrefix(setup: Setup, now: int, calls: seq<Call>, n: nat, k: nat, key: Text, content: Bytes)
    requires n <= |calls| && UploadsAt(setup, now, calls[..n], k, key, content)
    ensures UploadsAt(setup, now, calls, k, key, content)
  {
    hide Served, Uploads;
    assert calls[..n][..k] == calls[..k] && calls[..n][..k + 1] == calls[..k + 1];
  }

  lemma LastContent(setup: Setup, now: int, calls: seq<Call>, key: Text)
    requires SchemaAllowed(setup.forbidden) && calls != [] && key in Served(setup, now, calls).objects
    ensures var before, objects := Served(setup, now, calls[..|calls| - 1]).objects, Served(setup, now, calls).objects;
            (key in before && objects[key] == before[key])
            || UploadsAt(setup, now, calls, |calls| - 1, key, objects[key])
  {
    hide Serve, Rest, SchemaAllowed, Uploads;
    var n := |calls| - 1;
    RunOfRequestsRests(setup, now, calls[..n]);
    ServedContent(setup, Served(setup, now, calls[..n]), calls[n], key);
    assert calls[..n + 1] == calls;
  }

  /** After any run of requests every object has the content of the tarball that the run of its job met. */
  lemma {:induction false} ContentsAreOfTheirRuns(setup: Setup, now: int, calls: seq<Call>, key: Text)
    requires SchemaAllowed(setup.forbidden) && key in Served(setup, now, calls).objects
    ensures exists k: nat :: UploadsAt(setup, now, calls, k, key, Served(setup, now, calls).objects[key])
    decreases |calls|
  {
    hide Served, SchemaAllowed, UploadsAt;
    if calls == [] {
      NothingStored(setup, now, key);
    } else {
      var n := |calls| - 1;
      LastContent(setup, now, calls, key);
      var before := Served(setup, now, calls[..n]).objects;
      if key in before && Served(setup, now, calls).objects[key] == before[key] {
        ContentsAreOfTheirRuns(setup, now, calls[..n], key);
        var k: nat :| UploadsAt(setup, now, calls[..n], k, key, before[key]);
        UploadsInPrefix(setup, now, calls, n, k, key, before[key]);
      }
    }
  }

  lemma NothingStored(setup: Setup, now: int, key: Text)
    ensures key !in Served(setup, now, []).objects
  {
  }
}
