/** The in-memory job store with its mutable records, each method proved against the store as a value. */
module TrainingStores {
  import opened Texts
  import opened Utf8
  import opened Json
  import opened JsonFacts
  import opened Contracts
  import opened StateMachine
  import opened Jobs
  import Spec = Jobs
  import opened JobFacts
  import opened Sorting
  import opened Tokens
  import opened Persistence
  import opened Restarts
  import opened HashAbsence

  /** An object storage backend: bytes under keys. */
  class ObjectStore {
    var objects: map<Text, Bytes>

    constructor ()
      ensures objects == map[]
    {
      objects := map[];
    }

    method Upload(jobId: Text, artifactId: Text, content: Bytes) returns (key: Text)
      modifies this
      ensures key == StorageKey(jobId, artifactId) && objects == old(objects)[key := content]
    {
      key := StorageKey(jobId, artifactId);
      objects := objects[key := content];
    }

    /** Deleting what is not there is no error. */
    method Delete(key: Text)
      modifies this
      ensures objects == old(objects) - {key}
    {
      if key in objects {
        objects := objects - {key};
      }
    }
  }

  class TrainingJobRecord {
    const id: Text
    const createdAt: int
    const retryOf: Option<Text>
    var request: Option<Request>
    var status: Status
    var updatedAt: int
    var artifacts: seq<Artifact>
    var provenance: Option<Provenance>
    var deletedAt: Option<int>

    constructor (r: Record)
      ensures Snapshot() == r
    {
      id, createdAt, retryOf := r.id, r.createdAt, r.retryOf;
      request, status, updatedAt := r.request, r.status, r.updatedAt;
      artifacts, provenance, deletedAt := r.artifacts, r.provenance, r.deletedAt;
    }

    /** The record as a value. */
    function Snapshot(): Record
      reads this
    {
      Record(id, request, status, createdAt, updatedAt, artifacts, provenance, deletedAt, retryOf)
    }
  }

  function Snapshots(rs: seq<TrainingJobRecord>): (s: Jobs)
    reads rs
    ensures |s| == |rs| && forall i :: 0 <= i < |rs| ==> s[i] == rs[i].Snapshot()
  {
    seq(|rs|, i requires 0 <= i < |rs| reads rs => rs[i].Snapshot())
  }

  /** A tombstone has no request and anything else has one, so the record can be written. */
  predicate Writable(r: Record) {
    r.status == Deleted <==> r.request.None?
  }

  predicate AllWritable(s: Jobs) {
    forall i :: 0 <= i < |s| ==> Writable(s[i])
  }

  lemma {:induction false} RecordsWritten(cal: Calendar, s: Jobs)
    requires AllWritable(s)
    ensures RecordsJson(cal, s).Ok?
  {
    hide TombstoneFields, LiveFields;
    if s != [] {
      RecordsWritten(cal, s[..|s| - 1]);
      assert Writable(s[|s| - 1]);
    }
  }

  lemma {:induction false} ViewsWritten(cal: Calendar, s: Jobs)
    requires AllWritable(s)
    ensures PublicJsons(cal, s).Ok?
  {
    hide Members, PublicRequestJson;
    if s != [] {
      ViewsWritten(cal, s[..|s| - 1]);
      assert Writable(s[|s| - 1]);
    }
  }

  lemma SortedWritable(s: Jobs)
    requires AllWritable(s) && UniqueIds(s)
    ensures AllWritable(SortById(s))
  {
    hide SortById, Writable;
    SortByIdSorts(s);
    var t := SortById(s);
    forall i | 0 <= i < |t|
      ensures Writable(t[i])
    {
      assert t[i] in s;
    }
  }

  /** Saving never meets a record without its request. */
  lemma SaveSucceeds(cal: Calendar, s: Jobs)
    requires AllWritable(s) && UniqueIds(s)
    ensures SavedText(cal, s).Ok? && Dump(cal, s).Ok?
  {
    hide SortById, RecordsJson, PublicJsons, AllWritable, ArtifactsById, ProvenanceById;
    SortedWritable(s);
    RecordsWritten(cal, SortById(s));
    ViewsWritten(cal, SortById(s));
  }

  /** Once nothing is queued, promoting more changes nothing. */
  lemma {:induction false} PromoteEnough(s: Jobs, k: nat, m: nat, now: int)
    requires k <= m && FirstQueued(PromoteFirst(s, k, now)).None?
    ensures PromoteFirst(s, m, now) == PromoteFirst(s, k, now)
  {
    hide PromoteFirst, FirstQueued;
    if k < m {
      PromoteEnough(s, k, m - 1, now);
      PromoteOneMore(s, m - 1, now);
    }
  }

  /** The file holds what would be saved for the jobs. */
  predicate InSync(cal: Calendar, persistent: bool, s: Jobs, file: Option<Text>) {
    persistent ==> SavedText(cal, s).Ok? && file == Some(SavedText(cal, s).value)
  }

  /** `DeletionReceipt` */
  datatype Receipt = Receipt(jobId: Text, artifactId: Text, deleted: bool, alreadyDeleted: bool, verified: bool)

  /** `_hashes_for_artifact` */
  function HashesFor(r: Record, a: Artifact): (hashes: seq<Text>) {
    [a.datasetHash, a.artifactHash]
    + if r.provenance.None? then []
      else [r.provenance.value.datasetHash, r.provenance.value.artifactHash, r.provenance.value.trainingConfigHash]
  }

  /** A hash of the artifact, or of the provenance of its job. */
  predicate HashOf(r: Record, a: Artifact, h: Text) {
    || h == a.datasetHash || h == a.artifactHash
    || (r.provenance.Some?
        && (h == r.provenance.value.datasetHash || h == r.provenance.value.artifactHash
            || h == r.provenance.value.trainingConfigHash))
  }

  lemma HashesExactly(r: Record, a: Artifact, h: Text)
    ensures h in HashesFor(r, a) <==> HashOf(r, a, h)
  {
    if r.provenance.Some? {
      var p := r.provenance.value;
      assert HashesFor(r, a) == [a.datasetHash, a.artifactHash, p.datasetHash, p.artifactHash, p.trainingConfigHash];
    }
  }

  /** No record holds any digest of the artifact, or of the provenance of its job, as they were before. */
  ghost predicate Purged(before: Jobs, id: Text, artifactId: Text, after: Jobs) {
    var i := Find(before, id);
    && i.Some?
    && var a := FindArtifact(before[i.value].artifacts, artifactId);
       && a.Some?
       && forall t, h :: t in after && IsHash(h) && HashOf(before[i.value], a.value, h) ==> !HoldsHash(t, h)
  }

  /** Some hash of the deleted artifact is not empty, and none of those occurs in anything the store could tell. */
  ghost predicate NothingTold(cal: Calendar, r: Record, a: Artifact, after: Jobs) {
    && Dump(cal, after).Ok?
    && (exists h :: HashOf(r, a, h) && h != [])
    && forall h :: HashOf(r, a, h) && h != [] ==> !Contains(Dumps(Dump(cal, after).value, Spaced), h)
  }

  lemma NothingToldExactly(cal: Calendar, r: Record, a: Artifact, after: Jobs)
    ensures VerifyAbsence(cal, after, HashesFor(r, a)) == Ok(true) <==> NothingTold(cal, r, a, after)
  {
    hide Dump, Dumps, Contains, HashesFor, HashOf;
    forall h
      ensures h in HashesFor(r, a) <==> HashOf(r, a, h)
    {
      HashesExactly(r, a, h);
    }
  }

  /** What checking a deletion finds: no hash of the deleted artifact, or of its provenance, in what is stored after it. */
  ghost predicate FoundGone(cal: Calendar, before: Jobs, id: Text, artifactId: Text, after: Jobs) {
    var i := Find(before, id);
    && i.Some?
    && var a := FindArtifact(before[i.value].artifacts, artifactId);
       a.Some? && NothingTold(cal, before[i.value], a.value, after)
  }

  /** The objects left when the one under a key, if any, is deleted. */
  function Without(objects: map<Text, Bytes>, key: Option<Text>): map<Text, Bytes> {
    if key.None? then objects else objects - {key.value}
  }

  /** The ids of the expired jobs, in order. */
  function ExpiredIds(s: Jobs, now: int): (ids: seq<Text>) {
    if s == [] then []
    else
      var last := s[|s| - 1];
      ExpiredIds(s[..|s| - 1], now) + if Expired(last, now) then [last.id] else []
  }

  /** The object keys of the artifacts that expired first in each expired job, in order. */
  function ExpiredKeys(s: Jobs, now: int): (keys: seq<Text>) {
    if s == [] then []
    else
      var key := ExpiredKey(s[|s| - 1], now);
      ExpiredKeys(s[..|s| - 1], now) + if key.Some? then [key.value] else []
  }

  lemma {:induction false} ExpiredIdsHold(s: Jobs, now: int, id: Text)
    ensures id in ExpiredIds(s, now) <==> exists r :: r in s && r.id == id && Expired(r, now)
  {
    if s != [] {
      ExpiredIdsHold(s[..|s| - 1], now, id);
      assert s == s[..|s| - 1] + [s[|s| - 1]];
    }
  }

  lemma {:induction false} ExpiredIdsAscend(s: Jobs, now: int)
    requires Ascending(s)
    ensures forall j, k :: 0 <= j < k < |ExpiredIds(s, now)| ==> TextLess(ExpiredIds(s, now)[j], ExpiredIds(s, now)[k])
  {
    hide TextLess, Expired;
    if s != [] {
      var before := ExpiredIds(s[..|s| - 1], now);
      ExpiredIdsAscend(s[..|s| - 1], now);
      forall j | 0 <= j < |before|
        ensures TextLess(before[j], s[|s| - 1].id)
      {
        ExpiredIdsHold(s[..|s| - 1], now, before[j]);
        var r :| r in s[..|s| - 1] && r.id == before[j];
      }
    }
  }

  /** A sweep reports the ids of just the jobs it deletes, strictly ascending. */
  lemma SweepReport(s: Jobs, now: int, stamp: int, id: Text)
    requires UniqueIds(s)
    ensures var ids := ExpiredIds(SortById(s), now);
            && (forall j, k :: 0 <= j < k < |ids| ==> TextLess(ids[j], ids[k]))
            && (id in ids <==> exists i :: 0 <= i < |s| && s[i].id == id && Sweep(s, now, stamp)[i] != s[i])
  {
    hide SortById, TextLess, Sweep, ExpiredIds, Expired;
    var t := SortById(s);
    SortByIdSorts(s);
    ExpiredIdsAscend(t, now);
    ExpiredIdsHold(t, now, id);
    forall i | 0 <= i < |s|
      ensures Sweep(s, now, stamp)[i] != s[i] <==> Expired(s[i], now)
    {
      SweptExactly(s, now, stamp, i);
    }
    if id in ExpiredIds(t, now) {
      var r :| r in t && r.id == id && Expired(r, now);
      assert r in s;
    }
    forall i | 0 <= i < |s| && s[i].id == id && Expired(s[i], now)
      ensures id in ExpiredIds(t, now)
    {
      assert s[i] in s && s[i] in t;
    }
  }

  lemma SweptExactly(s: Jobs, now: int, stamp: int, i: nat)
    requires i < |s|
    ensures Sweep(s, now, stamp)[i] != s[i] <==> Expired(s[i], now)
  {
    assert Expired(s[i], now) ==> Expire(s[i], now, stamp).status == Deleted;
  }

  /** The store when the sweep has been at some positions. */
  ghost function SweptAt(s: Jobs, done: seq<nat>, now: int, stamp: int): (t: Jobs)
    ensures |t| == |s|
    ensures forall i: nat :: i < |s| ==> t[i] == if i in done then Expire(s[i], now, stamp) else s[i]
  {
    seq(|s|, i requires 0 <= i < |s| => if i in done then Expire(s[i], now, stamp) else s[i])
  }

  lemma SortedSelection(s: Jobs)
    ensures SortById(s) == Select(s, OrderUpTo(Ids(s), |s|))
  {
  }

  lemma SweepStart(s: Jobs, t: Jobs, now: int, stamp: int)
    ensures SweptAt(s, [], now, stamp) == s
    ensures ExpiredIds(t[..0], now) == [] && ExpiredKeys(t[..0], now) == []
  {
  }

  lemma NoKeyKept(r: Record, now: int)
    ensures ExpiredKey(r, now).Some? ==> Expired(r, now)
  {
  }

  lemma SweptOneMore(s: Jobs, done: seq<nat>, i: nat, now: int, stamp: int)
    requires i < |s| && i !in done
    ensures SweptAt(s, done, now, stamp)[i] == s[i]
    ensures SweptAt(s, done + [i], now, stamp) == SweptAt(s, done, now, stamp)[i := Expire(s[i], now, stamp)]
  {
    hide Expire;
  }

  /** What the sweep does at one position, in the store and in its report. */
  lemma SweepStep(s: Jobs, order: seq<nat>, j: nat, now: int, stamp: int)
    requires j < |order| && order == OrderUpTo(Ids(s), |s|)
    ensures var i, t := order[j], Select(s, order);
            && i < |s| && SweptAt(s, order[..j], now, stamp)[i] == s[i]
            && SweptAt(s, order[..j + 1], now, stamp) == SweptAt(s, order[..j], now, stamp)[i := Expire(s[i], now, stamp)]
            && ExpiredIds(t[..j + 1], now) == ExpiredIds(t[..j], now) + (if Expired(s[i], now) then [s[i].id] else [])
            && ExpiredKeys(t[..j + 1], now) ==
               ExpiredKeys(t[..j], now) + (if ExpiredKey(s[i], now).Some? then [ExpiredKey(s[i], now).value] else [])
  {
    hide Expire, OrderUpTo, Ids, SweptAt, Expired, ExpiredKey;
    OrderIsPermutation(Ids(s), |s|);
    NotBefore(order, j);
    SweptOneMore(s, order[..j], order[j], now, stamp);
    assert order[..j + 1] == order[..j] + [order[j]];
    var t := Select(s, order);
    assert t[..j + 1][..j] == t[..j];
  }

  lemma NotBefore(order: seq<nat>, j: nat)
    requires Distinct(order) && j < |order|
    ensures order[j] !in order[..j]
  {
  }

  /** The objects left when those under some keys are deleted. */
  function Remaining(objects: map<Text, Bytes>, keys: seq<Text>): map<Text, Bytes> {
    objects - set k | k in keys
  }

  lemma RemainingLess(objects: map<Text, Bytes>, keys: seq<Text>, key: Option<Text>)
    ensures Remaining(objects, []) == objects
    ensures Without(Remaining(objects, keys), key) == Remaining(objects, keys + if key.Some? then [key.value] else [])
  {
  }

  lemma SweptAll(s: Jobs, now: int, stamp: int)
    ensures SweptAt(s, OrderUpTo(Ids(s), |s|), now, stamp) == Sweep(s, now, stamp)
  {
    hide Expire, OrderUpTo, Ids;
    OrderIsPermutation(Ids(s), |s|);
  }

  lemma PutOk(s: Jobs, r: Record)
    requires UniqueIds(s) && AllWritable(s) && Writable(r)
    ensures UniqueIds(PutRecord(s, r)) && AllWritable(PutRecord(s, r))
  {
    hide Writable;
  }

  lemma ReadWritable(cal: Calendar, ms: seq<Member>)
    requires ReadRecord(cal, ms).Ok?
    ensures Writable(ReadRecord(cal, ms).value)
  {
    hide ReadText, ReadInstant, ReadOptional, ReadOptionalProvenance, ReadArtifacts, FromMapping, Get;
  }

  lemma {:induction false} ReadRecordsOk(cal: Calendar, vs: seq<Value>)
    requires ReadRecords(cal, vs).Ok?
    ensures UniqueIds(ReadRecords(cal, vs).value) && AllWritable(ReadRecords(cal, vs).value)
  {
    hide ReadRecord, PutRecord, Writable;
    if vs != [] {
      ReadRecordsOk(cal, vs[..|vs| - 1]);
      var v := vs[|vs| - 1];
      if v.Obj? {
        ReadWritable(cal, v.members);
        PutOk(ReadRecords(cal, vs[..|vs| - 1]).value, ReadRecord(cal, v.members).value);
      }
    }
  }

  /** Whatever file is loaded, the jobs have different ids and can be written. */
  lemma LoadedOk(cal: Calendar, file: Text)
    requires LoadedJobs(cal, file).Ok?
    ensures UniqueIds(LoadedJobs(cal, file).value) && AllWritable(LoadedJobs(cal, file).value)
  {
    hide ReadRecords, Loads;
    var jobs := Get(Loads(file).value.members, Lit("jobs"));
    if jobs.Some? {
      ReadRecordsOk(cal, jobs.value.items);
    }
  }

  /** Where the promotion loop stands after `k` rounds. */
  ghost predicate Promoting(maxRunning: int, s: Jobs, t: Jobs, k: nat, now: int) {
    t == PromoteFirst(s, k, now) && k <= FreeSlots(maxRunning, s) && k <= Count(s, Queued)
  }

  lemma PromotionBegins(maxRunning: int, s: Jobs, now: int)
    ensures Promoting(maxRunning, s, s, 0, now)
  {
  }

  lemma PromotionGoesOn(maxRunning: int, s: Jobs, t: Jobs, k: nat, now: int)
    requires Promoting(maxRunning, s, t, k, now) && Count(t, Running) < maxRunning && FirstQueued(t).Some?
    ensures Promoting(maxRunning, s, StartFirst(t, now), k + 1, now)
    ensures Count(StartFirst(t, now), Running) == Count(t, Running) + 1
  {
    hide Count, StartFirst, FirstQueued;
    NoneQueued(t);
    PromoteCounts(s, k, now);
    PromoteCounts(s, k + 1, now);
    PromoteOneMore(s, k, now);
  }

  lemma PromotionEnds(maxRunning: int, s: Jobs, t: Jobs, k: nat, now: int)
    requires Promoting(maxRunning, s, t, k, now) && (Count(t, Running) >= maxRunning || FirstQueued(t).None?)
    ensures t == Promote(maxRunning, s, now)
  {
    hide Count, StartFirst, FirstQueued;
    PromoteCounts(s, k, now);
    if FirstQueued(t).None? {
      PromoteEnough(s, k, FreeSlots(maxRunning, s), now);
    }
  }

  class TrainingJobStore {
    var byId: map<Text, TrainingJobRecord>
    /** `self._jobs.values()`, in insertion order. */
    var values: seq<TrainingJobRecord>
    var file: Option<Text>
    const config: Config
    const calendar: Calendar
    const persistent: bool
    const storage: ObjectStore?

    /** An empty store. */
    constructor (config: Config, calendar: Calendar, persistent: bool, file: Option<Text>, storage: ObjectStore?)
      ensures Valid() && Model() == [] && values == []
      ensures this.config == config && this.calendar == calendar && this.persistent == persistent
      ensures this.storage == storage && this.file == file
    {
      this.config, this.calendar, this.persistent, this.storage := config, calendar, persistent, storage;
      this.file := file;
      byId, values := map[], [];
    }

    method Insert(r: Record)
      requires Indexed() && r.id !in byId
      modifies `byId, `values
      ensures Indexed() && Model() == old(Model()) + [r]
      ensures |values| == |old(values)| + 1 && values[..|old(values)|] == old(values) && fresh(values[|old(values)|])
    {
      hide Snapshots;
      var record := new TrainingJobRecord(r);
      byId := byId[record.id := record];
      values := values + [record];
      assert Model() == old(Model()) + [r];
    }

    /** The records of a loaded file. */
    method Fill(jobs: Jobs)
      requires Valid() && values == [] && UniqueIds(jobs) && AllWritable(jobs)
      modifies `byId, `values
      ensures Valid() && Model() == jobs && fresh(values)
    {
      hide Snapshots, AllWritable, Indexed;
      for i := 0 to |jobs|
        invariant Indexed() && Model() == jobs[..i] && fresh(values)
      {
        Position(jobs[i].id);
        assert jobs[..i + 1] == jobs[..i] + [jobs[i]];
        Insert(jobs[i]);
      }
      assert jobs[..|jobs|] == jobs;
    }

    /** Starting a store: empty, or with what its file holds. */
    static method Open(config: Config, calendar: Calendar, persistent: bool, file: Option<Text>, storage: ObjectStore?)
      returns (r: Result<TrainingJobStore>)
      ensures r.Ok? ==>
                && fresh(r.value) && fresh(r.value.values) && r.value.Valid()
                && r.value.config == config && r.value.calendar == calendar && r.value.persistent == persistent
                && r.value.storage == storage && r.value.file == file
      ensures if persistent && file.Some? then
                var loaded := LoadedJobs(calendar, file.value);
                if loaded.Ok? then r.Ok? && r.value.Model() == loaded.value else r == Err(loaded.code)
              else r.Ok? && r.value.Model() == []
    {
      hide LoadedJobs;
      var store := new TrainingJobStore(config, calendar, persistent, file, storage);
      if persistent && file.Some? {
        var loaded := LoadedJobs(calendar, file.value);
        if loaded.Err? {
          return Err(loaded.code);
        }
        LoadedOk(calendar, file.value);
        store.Fill(loaded.value);
      }
      return Ok(store);
    }

    ghost predicate Indexed()
      reads `byId, `values
    {
      && (forall i :: 0 <= i < |values| ==> values[i].id in byId && byId[values[i].id] == values[i])
      && (forall id :: id in byId ==> byId[id] in values && byId[id].id == id)
      && (forall i, j :: 0 <= i < j < |values| ==> values[i].id != values[j].id)
    }

    ghost predicate Valid()
      reads `byId, `values, values
    {
      Indexed() && AllWritable(Model())
    }

    /** The store as a value. */
    function Model(): (s: Jobs)
      reads `values, values
      ensures |s| == |values| && forall i :: 0 <= i < |s| ==> s[i] == values[i].Snapshot()
    {
      Snapshots(values)
    }

    ghost predicate Synced()
      reads this, values
    {
      InSync(calendar, persistent, Model(), file)
    }

    lemma ModelUnique()
      requires Indexed()
      ensures UniqueIds(Model())
    {
    }

    lemma Position(id: Text)
      requires Indexed()
      ensures id in byId <==> Holds(Model(), id)
      ensures id in byId ==> values[Find(Model(), id).value] == byId[id]
    {
      ModelUnique();
      if id in byId {
        var i :| 0 <= i < |values| && values[i] == byId[id];
        assert Model()[i].id == id;
        FindAt(Model(), i);
      }
    }

    method Save()
      requires Valid()
      modifies this`file
      ensures Valid() && Synced()
    {
      hide SavedText, Dump, Snapshots, AllWritable;
      ModelUnique();
      SaveSucceeds(calendar, Model());
      if persistent {
        file := Some(SavedText(calendar, Model()).value);
      }
    }

    function RunningCount(): (n: nat)
      reads `values, values
    {
      Count(Model(), Running)
    }

    method SetStatus(ghost i: nat, record: TrainingJobRecord, status: Status, now: int)
      requires Valid() && i < |values| && values[i] == record && record.status != Deleted && status != Deleted
      modifies record
      ensures Valid()
      ensures Model() == old(Model())[i := old(Model())[i].(status := status, updatedAt := now)]
    {
      hide SavedText, Snapshots;
      assert Writable(Model()[i]);
      record.status := status;
      record.updatedAt := now;
      assert Model() == old(Model())[i := old(Model())[i].(status := status, updatedAt := now)];
    }

    /** One round of promotion. */
    method StartQueued(i: nat, now: int)
      requires Valid() && FirstQueued(Model()) == Some(i)
      modifies values
      ensures Valid() && Model() == StartFirst(old(Model()), now)
    {
      hide SavedText, Snapshots, FirstQueued, Indexed, AllWritable;
      SetStatus(i, values[i], Running, now);
    }

    /** `_promote_queued_locked` */
    method PromoteQueued(now: int)
      requires Valid()
      modifies values
      ensures Valid()
      ensures Model() == Promote(config.maxRunning, old(Model()), now)
    {
      hide SavedText, Snapshots, Count, Promote, Promoting, FirstQueued, StartFirst, Indexed, AllWritable;
      ghost var s, k: nat := Model(), 0;
      PromotionBegins(config.maxRunning, s, now);
      while RunningCount() < config.maxRunning
        invariant Valid() && Promoting(config.maxRunning, s, Model(), k, now)
        decreases config.maxRunning - RunningCount()
      {
        var queued := FirstQueued(Model());
        if queued.None? {
          PromotionEnds(config.maxRunning, s, Model(), k, now);
          return;
        }
        PromotionGoesOn(config.maxRunning, s, Model(), k, now);
        StartQueued(queued.value, now);
        k := k + 1;
      }
      PromotionEnds(config.maxRunning, s, Model(), k, now);
    }

    method Create(request: Request, now: int) returns (r: Result<TrainingJobRecord>)
      requires Valid() && ValidRequest(request)
      modifies this
      ensures Valid()
      ensures var spec := Spec.Create(config, old(Model()), request, now);
              if spec.Ok? then
                && Model() == spec.value
                && r.Ok? && r.value in values && r.value.id == StableJobId(config.sha, request)
              else Model() == old(Model()) && r == Err(spec.code)
      ensures forall v :: v in values ==> v in old(values) || fresh(v)
      ensures Synced() || (Model() == old(Model()) && file == old(file))
    {
      hide SavedText, StableJobId, Snapshots, ValidRequest, Count;
      var id := StableJobId(config.sha, request);
      Position(id);
      if id in byId {
        return Ok(byId[id]);
      }
      if ActiveCount(Model()) >= config.queueLimit {
        return Err(QueueLimitExceeded);
      }
      var record := new TrainingJobRecord(NewRecord(id, request, None, now));
      Add(record);
      return Ok(record);
    }

    /** `self._jobs[record.id] = record` for a new id, and the save that follows. */
    method Add(record: TrainingJobRecord)
      requires Valid() && record.id !in byId && record !in values && Writable(record.Snapshot())
      modifies this
      ensures Valid() && Synced()
      ensures values == old(values) + [record] && Model() == old(Model()) + [record.Snapshot()]
    {
      hide SavedText, Snapshots;
      byId := byId[record.id := record];
      values := values + [record];
      assert Model() == old(Model()) + [record.Snapshot()];
      Save();
    }

    method Cancel(id: Text, now: int) returns (r: Result<TrainingJobRecord>)
      requires Valid()
      modifies this`file, values
      ensures Valid()
      ensures var spec := Spec.Cancel(config, old(Model()), id, now);
              if spec.Ok? then Model() == spec.value && r.Ok? && r.value in values && r.value.id == id
              else Model() == old(Model()) && r == Err(spec.code)
      ensures Synced() || (Model() == old(Model()) && file == old(file))
    {
      hide SavedText, Snapshots, Promote;
      Position(id);
      if id !in byId {
        return Err(NotFound);
      }
      var record := byId[id];
      var next := CancelTarget(record.status);
      if next != record.status {
        ChangeStatus(record, next, now);
      }
      return Ok(record);
    }

    method UpdateStatus(id: Text, target: Status, now: int) returns (r: Result<TrainingJobRecord>)
      requires Valid() && (target == Running || target == Succeeded || target == Failed)
      modifies this`file, values
      ensures Valid()
      ensures var spec := Spec.UpdateStatus(config, old(Model()), id, target, now);
              if spec.Ok? then Model() == spec.value && r.Ok? && r.value in values && r.value.id == id
              else Model() == old(Model()) && r == Err(spec.code)
      ensures Synced() || (Model() == old(Model()) && file == old(file))
    {
      hide SavedText, Snapshots, Promote;
      Position(id);
      if id !in byId {
        return Err(NotFound);
      }
      var record := byId[id];
      var next := Transition(record.status, target);
      if next.Err? {
        return Err(next.code);
      }
      if next.value != record.status {
        ChangeStatus(record, next.value, now);
      }
      return Ok(record);
    }

    /** A new status, promotion when a slot came free, and the save. */
    method ChangeStatus(record: TrainingJobRecord, status: Status, now: int)
      requires Valid() && record in values && record.status != status && record.status != Deleted && status != Deleted
      modifies this`file, values
      ensures Valid() && Synced()
      ensures Find(old(Model()), record.id).Some?
      ensures Model() == Move(config, old(Model()), Find(old(Model()), record.id).value, status, now)
    {
      hide SavedText, Snapshots, Promote;
      Position(record.id);
      ghost var i := Find(Model(), record.id).value;
      var previous := record.status;
      SetStatus(i, record, status, now);
      if previous == Running {
        PromoteQueued(now);
      }
      Save();
    }

    /** `_next_retry_id_locked`; the search is sure to end only when some attempt is free. */
    method NextRetryId(original: Text) returns (id: Text)
      requires Valid() && RetryAttempt(config.sha, Model(), original).Some?
      ensures id == RetryId(config.sha, original, RetryAttempt(config.sha, Model(), original).value) && id !in byId
    {
      hide RetryId, RetryAttempt, Snapshots, Find;
      ghost var stop := RetryAttempt(config.sha, Model(), original).value;
      var attempt: nat := 1;
      while true
        invariant 1 <= attempt <= stop
        invariant forall m: nat :: 1 <= m < attempt ==> !FreeAttempt(config.sha, Model(), original, m)
        decreases stop - attempt
      {
        id := RetryId(config.sha, original, attempt);
        Position(id);
        if id !in byId {
          assert FreeAttempt(config.sha, Model(), original, attempt);
          return;
        }
        attempt := attempt + 1;
      }
    }

    method Retry(id: Text, now: int) returns (r: Result<TrainingJobRecord>)
      requires Valid()
      requires RetryRefusal(config, Model(), id).None? ==> RetryAttempt(config.sha, Model(), id).Some?
      modifies this
      ensures Valid()
      ensures var refusal := RetryRefusal(config, old(Model()), id);
              if refusal.Some? then Model() == old(Model()) && r == Err(refusal.value)
              else
                var n := old(RetryAttempt(config.sha, Model(), id).value);
                && Model() == Retried(config, old(Model()), id, n, now)
                && r.Ok? && r.value in values && r.value.id == RetryId(config.sha, id, n)
      ensures forall v :: v in values ==> v in old(values) || fresh(v)
      ensures Synced() || (Model() == old(Model()) && file == old(file))
    {
      hide SavedText, Snapshots, RetryId, RetryAttempt, Count;
      Position(id);
      if id !in byId {
        return Err(NotFound);
      }
      var original := byId[id];
      if original.status != Failed && original.status != Cancelled {
        return Err(InvalidTransition);
      }
      if original.request.None? {
        return Err(InvalidTransition);
      }
      if ActiveCount(Model()) >= config.queueLimit {
        return Err(QueueLimitExceeded);
      }
      var retryId := NextRetryId(id);
      var record := new TrainingJobRecord(NewRecord(retryId, original.request.value, Some(id), now));
      Add(record);
      return Ok(record);
    }

    /** The fields of one record take new values, its id and its being a tombstone aside. */
    lemma Replaced(before: Jobs, i: nat, record: TrainingJobRecord)
      requires Indexed() && i < |values| && values[i] == record && |before| == |values|
      requires AllWritable(before) && Writable(record.Snapshot())
      requires forall k :: 0 <= k < |values| && k != i ==> values[k].Snapshot() == before[k]
      ensures Valid() && Model() == before[i := record.Snapshot()]
    {
      hide Snapshots, Writable;
      assert Model() == before[i := record.Snapshot()];
    }

    /** New artifacts and provenance of one record, saved. */
    method SetArtifacts(ghost i: nat, record: TrainingJobRecord, artifacts: seq<Artifact>,
        provenance: Option<Provenance>, now: int)
      requires Valid() && i < |values| && values[i] == record
      modifies this`file, record
      ensures Valid() && Synced()
      ensures Model() == old(Model())[i := old(Model())[i].(artifacts := artifacts, provenance := provenance, updatedAt := now)]
    {
      hide SavedText, Snapshots;
      assert Writable(Model()[i]);
      record.artifacts := artifacts;
      record.provenance := provenance;
      record.updatedAt := now;
      Replaced(old(Model()), i, record);
      Save();
    }

    method RegisterArtifact(id: Text, artifact: Artifact, provenance: Provenance,
        now: int) returns (r: Result<TrainingJobRecord>)
      requires Valid()
      modifies this`file, values
      ensures Valid()
      ensures var spec := Register(old(Model()), id, artifact, provenance, now);
              if spec.Ok? then Model() == spec.value && r.Ok? && r.value in values && r.value.id == id
              else Model() == old(Model()) && r == Err(spec.code)
      ensures Synced() || (Model() == old(Model()) && file == old(file))
    {
      hide SavedText, Snapshots, IsJobId, IsArtifactId, ValidProvenance, AllWritable, Writable;
      Position(id);
      if !IsJobId(id) || !IsArtifactId(artifact.id) || !ValidProvenance(provenance) {
        return Err(ValidationError);
      }
      if id !in byId {
        return Err(NotFound);
      }
      var record := byId[id];
      if forall existing :: existing in record.artifacts ==> existing.id != artifact.id {
        SetArtifacts(Find(Model(), id).value, record, record.artifacts + [artifact], Some(provenance), now);
      }
      return Ok(record);
    }

    method SetArtifactStorageKey(id: Text, artifactId: Text, key: Text, now: int) returns (r: Result<TrainingJobRecord>)
      requires Valid()
      modifies this`file, values
      ensures Valid()
      ensures var spec := SetStorageKey(old(Model()), id, artifactId, key, now);
              if spec.Ok? then Model() == spec.value && r.Ok? && r.value in values && r.value.id == id
              else Model() == old(Model()) && r == Err(spec.code)
      ensures Synced() || (Model() == old(Model()) && file == old(file))
    {
      hide SavedText, Snapshots, IsJobId, IsArtifactId, AllWritable, Writable;
      Position(id);
      if !IsJobId(id) || !IsArtifactId(artifactId) {
        return Err(ValidationError);
      }
      if id !in byId {
        return Err(NotFound);
      }
      var record := byId[id];
      if FindArtifact(record.artifacts, artifactId).None? {
        return Err(NotFound);
      }
      SetArtifacts(Find(Model(), id).value, record, WithKey(record.artifacts, artifactId, key), record.provenance, now);
      return Ok(record);
    }

    /** What a method may change outside the store. */
    ghost function Backend(): set<ObjectStore> {
      if storage == null then {} else {storage}
    }

    /** What a deletion leaves of a record, saved. */
    method Bury(ghost i: nat, record: TrainingJobRecord, now: int, retainProvenance: bool)
      requires Valid() && i < |values| && values[i] == record
      modifies this`file, record
      ensures Valid() && Synced()
      ensures Model() == old(Model())[i := Tombstone(old(Model())[i], now, retainProvenance)]
    {
      hide SavedText, Snapshots;
      record.status := Deleted;
      record.request := None;
      record.artifacts := [];
      if !retainProvenance {
        record.provenance := None;
      }
      record.deletedAt := Some(now);
      record.updatedAt := now;
      Replaced(old(Model()), i, record);
      Save();
    }

    /** `_delete_artifact_locked`, on a job whose state lets it be deleted. */
    method DeleteLocked(ghost i: nat, record: TrainingJobRecord, artifact: Artifact, now: int, verify: bool,
        retainProvenance: bool)
      returns (receipt: Receipt, key: Option<Text>)
      requires Valid() && i < |values| && values[i] == record && record.status == Succeeded
      modifies this`file, record, Backend()
      ensures Valid() && Synced()
      ensures Model() == old(Model())[i := Tombstone(old(Model())[i], now, retainProvenance)]
      ensures key == artifact.storageKey
      ensures storage != null ==> storage.objects == Without(old(storage.objects), key)
      ensures receipt == Receipt(record.id, artifact.id, true, false,
                                 !verify || VerifyAbsence(calendar, Model(), HashesFor(old(Model())[i], artifact)) == Ok(true))
    {
      hide SavedText, Snapshots, VerifyAbsence, HashesFor, Tombstone, Indexed, AllWritable;
      var hashes := HashesFor(record.Snapshot(), artifact);
      key := artifact.storageKey;
      Bury(i, record, now, retainProvenance);
      if key.Some? && storage != null {
        storage.Delete(key.value);
      }
      var verified := true;
      if verify {
        verified := VerifyAbsence(calendar, Model(), hashes) == Ok(true);
      }
      receipt := Receipt(record.id, artifact.id, true, false, verified);
    }

    /** `_delete_expired_artifact_locked`: whether the job was deleted, and the object key if there is one. */
    method DeleteExpired(ghost i: nat, record: TrainingJobRecord, now: int, stamp: int) returns (deleted: bool,
        key: Option<Text>)
      requires Valid() && i < |values| && values[i] == record
      modifies this`file, record, Backend()
      ensures Valid()
      ensures Model() == old(Model())[i := Expire(old(Model())[i], now, stamp)]
      ensures deleted == Expired(old(Model())[i], now) && key == ExpiredKey(old(Model())[i], now)
      ensures storage != null ==> storage.objects == Without(old(storage.objects), key)
      ensures Synced() || (!deleted && Model() == old(Model()) && file == old(file))
    {
      hide SavedText, Snapshots, VerifyAbsence, IsExpired, Tombstone;
      deleted, key := false, None;
      assert Model()[i := Model()[i]] == Model();
      if record.status != Succeeded {
        return;
      }
      for j := 0 to |record.artifacts|
        invariant FirstExpired(record.artifacts, now) == FirstExpired(record.artifacts[j..], now)
      {
        assert record.artifacts[j..][1..] == record.artifacts[j + 1..];
        if IsExpired(record.artifacts[j], now) {
          deleted := true;
          var receipt;
          receipt, key := DeleteLocked(i, record, record.artifacts[j], stamp, false, true);
          return;
        }
      }
    }

    method EvaluateExpiry(id: Text, now: int, stamp: int) returns (r: Result<TrainingJobRecord>)
      requires Valid()
      modifies this`file, values, Backend()
      ensures Valid()
      ensures var spec := Spec.EvaluateExpiry(old(Model()), id, now, stamp);
              if spec.Ok? then
                && Model() == spec.value
                && r.Ok? && r.value in values && r.value.id == id
                && (storage != null ==>
                      storage.objects == Without(old(storage.objects), ExpiredKey(old(Model())[Find(old(Model()), id).value], now)))
              else
                && Model() == old(Model()) && r == Err(spec.code)
                && (storage != null ==> storage.objects == old(storage.objects))
      ensures Synced() || (Model() == old(Model()) && file == old(file))
    {
      hide SavedText, Snapshots, IsJobId, Expire, ExpiredKey, Expired;
      Position(id);
      if !IsJobId(id) {
        return Err(ValidationError);
      }
      if id !in byId {
        return Err(NotFound);
      }
      var deleted, key := DeleteExpired(Find(Model(), id).value, byId[id], now, stamp);
      return Ok(byId[id]);
    }

    method DeleteArtifact(id: Text, artifactId: Text, now: int) returns (r: Result<(Receipt, Option<Text>)>)
      requires Valid()
      modifies this`file, values, Backend()
      ensures Valid()
      ensures var spec := Spec.DeleteArtifact(old(Model()), id, artifactId, now);
              if spec.Ok? then
                && Model() == spec.value.0
                && r.Ok? && r.value.1 == spec.value.1
                && r.value.0.jobId == id && r.value.0.artifactId == artifactId && r.value.0.deleted
                && (r.value.0.alreadyDeleted <==> old(Model())[Find(old(Model()), id).value].status == Deleted)
                && (storage != null ==> storage.objects == Without(old(storage.objects), spec.value.1))
              else
                && Model() == old(Model()) && r.Err? && r.code == spec.code
                && (storage != null ==> storage.objects == old(storage.objects))
      ensures r.Ok? ==>
                (r.value.0.verified <==>
                 r.value.0.alreadyDeleted || FoundGone(calendar, old(Model()), id, artifactId, Model()))
      ensures r.Ok? && r.value.0.verified && !r.value.0.alreadyDeleted ==> Purged(old(Model()), id, artifactId, Model())
      ensures Synced() || (Model() == old(Model()) && file == old(file))
    {
      hide SavedText, Snapshots, IsJobId, IsArtifactId, VerifyAbsence, HashesFor, HashOf, NothingTold, HoldsHash,
        Tombstone, IsHash;
      Position(id);
      if !IsJobId(id) || !IsArtifactId(artifactId) {
        return Err(ValidationError);
      }
      if id !in byId {
        return Err(NotFound);
      }
      var record := byId[id];
      if record.status == Deleted {
        return Ok((Receipt(id, artifactId, true, true, true), None));
      }
      var artifact := FindArtifact(record.artifacts, artifactId);
      if artifact.None? {
        return Err(NotFound);
      }
      var allowed := Transition(record.status, Deleted);
      if allowed.Err? {
        return Err(allowed.code);
      }
      ghost var i := Find(Model(), id).value;
      ghost var hashes := HashesFor(Model()[i], artifact.value);
      var receipt, key := DeleteLocked(i, record, artifact.value, now, true, false);
      ModelUnique();
      NothingToldExactly(calendar, old(Model())[i], artifact.value, Model());
      forall t, h | receipt.verified && t in Model() && IsHash(h) && HashOf(old(Model())[i], artifact.value, h)
        ensures !HoldsHash(t, h)
      {
        HashesExactly(old(Model())[i], artifact.value, h);
        AbsenceIsSound(calendar, Model(), hashes, t, h);
      }
      return Ok((receipt, key));
    }

    /** `sweep_expired`: the ids of the deleted jobs, how many they are, and the object keys. */
    method SweepExpired(now: int, stamp: int) returns (ids: seq<Text>, count: nat, keys: seq<Text>)
      requires Valid()
      modifies this`file, values, Backend()
      ensures Valid()
      ensures Model() == Sweep(old(Model()), now, stamp)
      ensures ids == ExpiredIds(SortById(old(Model())), now) && count == |ids|
      ensures keys == ExpiredKeys(SortById(old(Model())), now)
      ensures storage != null ==> storage.objects == Remaining(old(storage.objects), keys)
      ensures Synced() || (Model() == old(Model()) && file == old(file))
    {
      hide SavedText, Snapshots, Expire, Expired, ExpiredKey, Indexed, AllWritable, SortById, OrderUpTo, Select, Ids,
        ExpiredIds, ExpiredKeys, SweptAt, Remaining, Without;
      ghost var s, before := Model(), if storage == null then map[] else storage.objects;
      var order := OrderUpTo(Ids(Model()), |values|);
      ghost var t := Select(s, order);
      SortedSelection(s);
      ids, keys := [], [];
      SweepStart(s, t, now, stamp);
      RemainingLess(before, [], None);
      for j := 0 to |order|
        invariant Valid()
        invariant Model() == SweptAt(s, order[..j], now, stamp)
        invariant ids == ExpiredIds(t[..j], now) && keys == ExpiredKeys(t[..j], now)
        invariant storage != null ==> storage.objects == Remaining(before, keys)
        invariant Synced() || (ids == [] && Model() == s && file == old(file))
      {
        SweepStep(s, order, j, now, stamp);
        var deleted, key := DeleteExpired(order[j], values[order[j]], now, stamp);
        RemainingLess(before, keys, key);
        NoKeyKept(s[order[j]], now);
        if deleted {
          ids := ids + [values[order[j]].id];
          if key.Some? {
            keys := keys + [key.value];
          }
        }
      }
      assert order[..|order|] == order && t[..|order|] == t;
      SweptAll(s, now, stamp);
      count := |ids|;
    }
  }
}
