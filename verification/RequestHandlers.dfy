/** The server's dispatch of requests to the service, and sessions of requests served one after another. */
module RequestHandlers {
  import opened Texts
  import opened Json
  import opened Contracts
  import opened Jobs
  import opened Datasets
  import opened DatasetStores
  import opened Sorting
  import opened Persistence
  import opened TrainingStores
  import opened StoreFiles
  import Serial
  import opened TrainingServices

  /** The search for a retry id ends, if the request leads to one. */
  ghost predicate SearchEnds(setup: Serial.Setup, w: Serial.World, call: Serial.Call) {
    call.RetryJob? && RetryRefusal(setup.cfg, w.jobs, call.id).None? ==> RetryAttempt(setup.cfg.sha, w.jobs, call.id).Some?
  }

  ghost predicate SearchesEnd(setup: Serial.Setup, w: Serial.World, calls: seq<Serial.Call>) {
    forall k: nat :: k < |calls| ==> SearchEnds(setup, Serial.ServeAll(setup, w, calls[..k]), calls[k])
  }

  lemma ServeOneMore(setup: Serial.Setup, w: Serial.World, calls: seq<Serial.Call>, k: nat)
    requires k < |calls|
    ensures Serial.ServeAll(setup, w, calls[..k + 1]) ==
            Serial.Serve(setup, Serial.ServeAll(setup, w, calls[..k]), calls[k]).world
  {
    hide Serial.Serve;
    assert calls[..k + 1][..k] == calls[..k];
  }

  /** What has been noted of the first `k` requests. */
  ghost predicate NotedUpTo(store: TrainingJobStore, setup: Serial.Setup, w: Serial.World, calls: seq<Serial.Call>,
      history: seq<Kept>, k: nat)
    requires k <= |calls|
  {
    && |history| == k + 1
    && (forall j: nat :: j <= k ==> history[j].jobs == Serial.ServeAll(setup, w, calls[..j]).jobs)
    && forall j :: 0 <= j < k ==> SavedIfChanged(store.calendar, store.persistent, history[j], history[j + 1])
  }

  lemma NotedFirst(store: TrainingJobStore, setup: Serial.Setup, w: Serial.World, calls: seq<Serial.Call>,
      history: seq<Kept>)
    requires |history| == 1 && history[0].jobs == w.jobs
    ensures NotedUpTo(store, setup, w, calls, history, 0)
    ensures Serial.ServeAll(setup, w, calls[..0]) == w
  {
    assert calls[..0] == [];
  }

  lemma NotedNext(store: TrainingJobStore, setup: Serial.Setup, w: Serial.World, calls: seq<Serial.Call>,
      history: seq<Kept>, k: nat,
      after: Kept)
    requires k < |calls| && NotedUpTo(store, setup, w, calls, history, k)
    requires after.jobs == Serial.ServeAll(setup, w, calls[..k + 1]).jobs
    requires SavedIfChanged(store.calendar, store.persistent, history[k], after)
    ensures NotedUpTo(store, setup, w, calls, history + [after], k + 1)
  {
    hide Serial.Serve, SavedIfChanged;
  }

  lemma AllNoted(store: TrainingJobStore, setup: Serial.Setup, w: Serial.World, calls: seq<Serial.Call>,
      history: seq<Kept>)
    requires NotedUpTo(store, setup, w, calls, history, |calls|)
    ensures HistoryOf(setup, w, calls, history)
    ensures store.persistent && FileCurrent(store.calendar, store.persistent, history[0]) ==> Kepts(store.calendar, history)
  {
    hide Serial.Serve, SavedIfChanged, FileCurrent;
  }

  /** What the server does with a request: the method of the service that answers it. */
  class RequestHandler {
    const service: TrainingApiService

    constructor (service: TrainingApiService)
      ensures this.service == service
    {
      this.service := service;
    }

    /** A request about datasets. */
    method HandleReview(call: Serial.Call) returns (error: Option<ErrorCode>)
      requires service.Valid() && (call.RegisterCall? || call.SubmitCall? || call.ApproveCall? || call.RejectCall?)
      modifies service.datasets
      ensures service.Valid()
      ensures Serial.Serve(service.Setup(), old(service.World()), call) == Serial.Reply(service.World(), error)
      ensures KeptBy(service.store) == old(KeptBy(service.store))
    {
      hide AllWritable, Snapshots, RegisterShape, Submit, Approve, Reject, Decided, DecisionsStand;
      var r;
      match call {
        case RegisterCall(id, shape, now) => r := service.datasets.RegisterShape(id, shape, now);
        case SubmitCall(id, now) => r := service.datasets.SubmitForReview(id, now);
        case ApproveCall(id, now) => r := service.datasets.Approve(id, now);
        case RejectCall(id, reason, now) => r := service.datasets.Reject(id, reason, now);
      }
      error := if r.Err? then Some(r.code) else None;
    }

    /** A request about jobs that exist; a sweep has no route of its own and is asked of the service directly. */
    method HandleJob(call: Serial.Call) returns (error: Option<ErrorCode>)
      requires service.Valid() && (call.CancelCall? || call.ReadCall? || call.DeleteCall? || call.SweepCall?)
      modifies service.store`file, service.store.values, service.store.Backend()
      ensures service.Valid()
      ensures Serial.Serve(service.Setup(), old(service.World()), call) == Serial.Reply(service.World(), error)
      ensures SavedIfChanged(service.store.calendar, service.store.persistent, old(KeptBy(service.store)), KeptBy(service.store))
    {
      hide AllWritable, service.store.Indexed, Snapshots, InSync, Serial.ServeCancel, Serial.ServeRead,
        Serial.ServeDelete, FileCurrent, Purged, FoundGone, SortById;
      match call {
        case CancelCall(id, now) =>
          var r := service.CancelTrainingJob(id, now);
          error := if r.Err? then Some(r.code) else None;
        case ReadCall(id, now, stamp) =>
          var r := service.GetTrainingJob(id, now, stamp);
          error := if r.Err? then Some(r.code) else None;
        case DeleteCall(id, artifactId, now) =>
          var r := service.DeleteArtifact(id, artifactId, now);
          error := if r.Err? then Some(r.code) else None;
        case SweepCall(now, stamp) =>
          var ids, count := service.SweepExpiredArtifacts(now, stamp);
          error := None;
      }
    }

    /** A request that makes a job. */
    method HandleNewJob(call: Serial.Call) returns (error: Option<ErrorCode>)
      requires service.Valid() && (call.CreateJob? || call.RetryJob?)
      requires SearchEnds(service.Setup(), service.World(), call)
      modifies service`permits, service.store, service.store.values, service.store.Backend()
      ensures service.Valid()
      ensures Serial.Serve(service.Setup(), old(service.World()), call) == Serial.Reply(service.World(), error)
      ensures SavedIfChanged(service.store.calendar, service.store.persistent, old(KeptBy(service.store)), KeptBy(service.store))
      ensures forall v :: v in service.store.values ==> v in old(service.store.values) || fresh(v)
    {
      hide AllWritable, service.store.Indexed, Snapshots, InSync, Serial.ServeCreate, Serial.ServeRetry, FileCurrent,
        FromMapping, StableJobId, RetryId, RetryRefusal, RetryAttempt;
      var r;
      match call {
        case CreateJob(payload, env) => r := service.CreateTrainingJob(payload, env);
        case RetryJob(id, env) => r := service.RetryTrainingJob(id, env);
      }
      error := if r.Err? then Some(r.code) else None;
    }

    /** Any request: what it leaves behind and the error it is answered with are those of the request as one step. */
    method Handle(call: Serial.Call) returns (error: Option<ErrorCode>)
      requires service.Valid() && SearchEnds(service.Setup(), service.World(), call)
      modifies service`permits, service.store, service.store.values, service.store.Backend(), service.datasets
      ensures service.Valid()
      ensures Serial.Serve(service.Setup(), old(service.World()), call) == Serial.Reply(service.World(), error)
      ensures SavedIfChanged(service.store.calendar, service.store.persistent, old(KeptBy(service.store)), KeptBy(service.store))
      ensures forall v :: v in service.store.values ==> v in old(service.store.values) || fresh(v)
    {
      hide AllWritable, service.store.Indexed, Snapshots, InSync, Serial.Serve, SearchEnds;
      if call.CreateJob? || call.RetryJob? {
        error := HandleNewJob(call);
      } else if call.CancelCall? || call.ReadCall? || call.DeleteCall? || call.SweepCall? {
        error := HandleJob(call);
      } else {
        error := HandleReview(call);
      }
    }

    /** Requests one after another; what the store and its file were at the start and after each of them. */
    method HandleAll(calls: seq<Serial.Call>) returns (history: seq<Kept>)
      requires service.Valid() && SearchesEnd(service.Setup(), service.World(), calls)
      modifies service`permits, service.store, service.store.values, service.store.Backend(), service.datasets
      ensures service.Valid()
      ensures service.World() == Serial.ServeAll(service.Setup(), old(service.World()), calls)
      ensures HistoryOf(service.Setup(), old(service.World()), calls, history)
      ensures history[0] == old(KeptBy(service.store)) && history[|calls|] == KeptBy(service.store)
      ensures service.store.persistent && old(service.Current()) ==> Kepts(service.store.calendar, history)
    {
      hide AllWritable, Snapshots, InSync, Serial.Serve, SearchEnds, FileCurrent, SavedIfChanged, NotedUpTo,
        HistoryOf, Kepts;
      ghost var setup, w := service.Setup(), service.World();
      history := [KeptBy(service.store)];
      NotedFirst(service.store, setup, w, calls, history);
      for k := 0 to |calls|
        invariant service.Valid() && service.World() == Serial.ServeAll(setup, w, calls[..k])
        invariant |history| == k + 1 && history[k] == KeptBy(service.store) && history[0] == old(KeptBy(service.store))
        invariant NotedUpTo(service.store, setup, w, calls, history, k)
        invariant forall v :: v in service.store.values ==> v in old(service.store.values) || fresh(v)
      {
        ServeOneMore(setup, w, calls, k);
        assert SearchEnds(setup, service.World(), calls[k]);
        var error := Handle(calls[k]);
        NotedNext(service.store, setup, w, calls, history, k, KeptBy(service.store));
        history := history + [KeptBy(service.store)];
      }
      assert calls[..|calls|] == calls;
      AllNoted(service.store, setup, w, calls, history);
    }
  }
}
