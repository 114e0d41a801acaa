/** The job store as a value: records in insertion order, and what each store operation makes of them. */
module Jobs {
  import opened Texts
  import opened Contracts
  import opened StateMachine

  /** Artifact metadata; instants are whole seconds. */
  datatype Artifact = Artifact(
    id: Text,
    jobId: Text,
    datasetHash: Text,
    artifactHash: Text,
    createdAt: int,
    provenanceId: Text,
    retention: Retention,
    storageKey: Option<Text>)

  datatype Record = Record(
    id: Text,
    request: Option<Request>,
    status: Status,
    createdAt: int,
    updatedAt: int,
    artifacts: seq<Artifact>,
    provenance: Option<Provenance>,
    deletedAt: Option<int>,
    retryOf: Option<Text>)

  /** The dictionary of jobs: its values in insertion order. */
  type Jobs = seq<Record>

  /** The limits of a store and the digest function behind its ids. */
  datatype Config = Config(queueLimit: int, maxRunning: nat, sha: Sha)

  predicate UniqueIds(s: Jobs) {
    forall i, j :: 0 <= i < j < |s| ==> s[i].id != s[j].id
  }

  /** `self._jobs.get(job_id)`, as a position. */
  function Find(s: Jobs, id: Text): (i: Option<nat>)
    ensures i.Some? ==> i.value < |s| && s[i.value].id == id
    ensures i.None? ==> forall k :: 0 <= k < |s| ==> s[k].id != id
  {
    if s == [] then None
    else if s[|s| - 1].id == id then Some(|s| - 1)
    else Find(s[..|s| - 1], id)
  }

  predicate Holds(s: Jobs, id: Text) {
    Find(s, id).Some?
  }

  function Count(s: Jobs, status: Status): (n: nat)
    ensures n <= |s|
  {
    if s == [] then 0 else Count(s[..|s| - 1], status) + if s[|s| - 1].status == status then 1 else 0
  }

  /** `active_count` */
  function ActiveCount(s: Jobs): nat {
    Count(s, Queued) + Count(s, Running)
  }

  function NewRecord(id: Text, request: Request, retryOf: Option<Text>, now: int): Record {
    Record(id, Some(request), Queued, now, now, [], None, None, retryOf)
  }

  /** `create`: the job of the same id if there is one, a new queued job while there is room. */
  function Create(cfg: Config, s: Jobs, request: Request, now: int): (r: Result<Jobs>)
    requires ValidRequest(request)
  {
    var id := StableJobId(cfg.sha, request);
    if Holds(s, id) then Ok(s)
    else if ActiveCount(s) >= cfg.queueLimit then Err(QueueLimitExceeded)
    else Ok(s + [NewRecord(id, request, None, now)])
  }

  // --- Promotion

  function Started(r: Record, now: int): Record {
    r.(status := Running, updatedAt := now)
  }

  /** The first `k` queued jobs, in insertion order, turned into running ones. */
  function PromoteFirst(s: Jobs, k: nat, now: int): (t: Jobs)
    ensures |t| == |s|
  {
    if s == [] || k == 0 then s
    else if s[0].status == Queued then [Started(s[0], now)] + PromoteFirst(s[1..], k - 1, now)
    else [s[0]] + PromoteFirst(s[1..], k, now)
  }

  function FreeSlots(maxRunning: int, s: Jobs): nat {
    if Count(s, Running) < maxRunning then maxRunning - Count(s, Running) else 0
  }

  /** `_promote_queued_locked` */
  function Promote(maxRunning: int, s: Jobs, now: int): (t: Jobs)
    ensures |t| == |s|
  {
    PromoteFirst(s, FreeSlots(maxRunning, s), now)
  }

  // --- Status changes

  /** A job gets a new status; leaving RUNNING frees a slot for the queue. */
  function Move(cfg: Config, s: Jobs, i: nat, status: Status, now: int): (t: Jobs)
    requires i < |s|
    ensures |t| == |s|
  {
    if s[i].status == status then s
    else
      var moved := s[i := s[i].(status := status, updatedAt := now)];
      if s[i].status == Running then Promote(cfg.maxRunning, moved, now) else moved
  }

  /** `cancel` */
  function Cancel(cfg: Config, s: Jobs, id: Text, now: int): (r: Result<Jobs>) {
    var i := Find(s, id);
    if i.None? then Err(NotFound) else Ok(Move(cfg, s, i.value, CancelTarget(s[i.value].status), now))
  }

  /** `update_status` */
  function UpdateStatus(cfg: Config, s: Jobs, id: Text, target: Status, now: int): (r: Result<Jobs>) {
    var i := Find(s, id);
    if i.None? then Err(NotFound)
    else if Transition(s[i.value].status, target).Err? then Err(InvalidTransition)
    else Ok(Move(cfg, s, i.value, target, now))
  }

  // --- Retry

  function RetrySeed(original: Text, attempt: nat): Text {
    original + (Lit(":retry:") + Decimal10(attempt))
  }

  function RetryId(sha: Sha, original: Text, attempt: nat): (id: Text)
    ensures IsJobId(id)
  {
    DigestJobId(sha, RetrySeed(original, attempt))
  }

  predicate FreeAttempt(sha: Sha, s: Jobs, original: Text, n: nat) {
    n >= 1 && !Holds(s, RetryId(sha, original, n))
  }

  ghost predicate LeastFree(sha: Sha, s: Jobs, original: Text, n: nat) {
    FreeAttempt(sha, s, original, n) && forall m :: 1 <= m < n ==> !FreeAttempt(sha, s, original, m)
  }

  /** The attempt at which `_next_retry_id_locked` stops, if it ever does. */
  ghost function RetryAttempt(sha: Sha, s: Jobs, original: Text): (n: Option<nat>)
    ensures n.Some? ==> LeastFree(sha, s, original, n.value)
  {
    if n: nat :| LeastFree(sha, s, original, n) then Some(n) else None
  }

  /** Why a retry is refused, if it is. */
  function RetryRefusal(cfg: Config, s: Jobs, id: Text): (e: Option<ErrorCode>)
    ensures e.None? ==> Holds(s, id) && s[Find(s, id).value].request.Some?
  {
    var i := Find(s, id);
    if i.None? then Some(NotFound)
    else if s[i.value].status != Failed && s[i.value].status != Cancelled then Some(InvalidTransition)
    else if s[i.value].request.None? then Some(InvalidTransition)
    else if ActiveCount(s) >= cfg.queueLimit then Some(QueueLimitExceeded)
    else None
  }

  /** The store after an accepted retry with the given attempt number. */
  function Retried(cfg: Config, s: Jobs, id: Text, attempt: nat, now: int): Jobs
    requires RetryRefusal(cfg, s, id).None?
  {
    s + [NewRecord(RetryId(cfg.sha, id, attempt), s[Find(s, id).value].request.value, Some(id), now)]
  }

  // --- Artifacts

  predicate HasArtifact(artifacts: seq<Artifact>, id: Text) {
    exists a :: a in artifacts && a.id == id
  }

  /** `register_artifact` */
  function Register(s: Jobs, id: Text, artifact: Artifact, provenance: Provenance, now: int): (r: Result<Jobs>) {
    var i := Find(s, id);
    if !IsJobId(id) || !IsArtifactId(artifact.id) || !ValidProvenance(provenance) then Err(ValidationError)
    else if i.None? then Err(NotFound)
    else if HasArtifact(s[i.value].artifacts, artifact.id) then Ok(s)
    else
      var r := s[i.value];
      Ok(s[i.value := r.(artifacts := r.artifacts + [artifact], provenance := Some(provenance), updatedAt := now)])
  }

  /** Every artifact of the id gets the key. */
  function WithKey(artifacts: seq<Artifact>, id: Text, key: Text): (t: seq<Artifact>)
    ensures |t| == |artifacts|
    ensures forall i :: 0 <= i < |t| ==>
              t[i] == if artifacts[i].id == id then artifacts[i].(storageKey := Some(key)) else artifacts[i]
  {
    seq(|artifacts|, i requires 0 <= i < |artifacts| =>
      if artifacts[i].id == id then artifacts[i].(storageKey := Some(key)) else artifacts[i])
  }

  /** `set_artifact_storage_key` */
  function SetStorageKey(s: Jobs, id: Text, artifactId: Text, key: Text, now: int): (r: Result<Jobs>) {
    var i := Find(s, id);
    if !IsJobId(id) || !IsArtifactId(artifactId) then Err(ValidationError)
    else if i.None? || !HasArtifact(s[i.value].artifacts, artifactId) then Err(NotFound)
    else
      var r := s[i.value];
      Ok(s[i.value := r.(artifacts := WithKey(r.artifacts, artifactId, key), updatedAt := now)])
  }

  // --- Deletion and expiry

  /** What is left of a deleted job. */
  function Tombstone(r: Record, now: int, keepProvenance: bool): Record {
    r.(status := Deleted, request := None, artifacts := [],
       provenance := if keepProvenance then r.provenance else None,
       deletedAt := Some(now), updatedAt := now)
  }

  function FindArtifact(artifacts: seq<Artifact>, id: Text): (a: Option<Artifact>)
    ensures a.Some? <==> HasArtifact(artifacts, id)
    ensures a.Some? ==> a.value in artifacts && a.value.id == id
  {
    if artifacts == [] then None
    else if artifacts[0].id == id then Some(artifacts[0])
    else FindArtifact(artifacts[1..], id)
  }

  /** `delete_artifact`: the new store and the object key to delete from storage. */
  function DeleteArtifact(s: Jobs, id: Text, artifactId: Text, now: int): (r: Result<(Jobs, Option<Text>)>) {
    var i := Find(s, id);
    if !IsJobId(id) || !IsArtifactId(artifactId) then Err(ValidationError)
    else if i.None? then Err(NotFound)
    else if s[i.value].status == Deleted then Ok((s, None))
    else
      var a := FindArtifact(s[i.value].artifacts, artifactId);
      if a.None? then Err(NotFound)
      else if Transition(s[i.value].status, Deleted).Err? then Err(InvalidTransition)
      else Ok((s[i.value := Tombstone(s[i.value], now, false)], a.value.storageKey))
  }

  /** `is_expired` */
  predicate IsExpired(a: Artifact, now: int) {
    now >= a.createdAt + a.retention.ttl
  }

  function FirstExpired(artifacts: seq<Artifact>, now: int): (a: Option<Artifact>)
    ensures a.Some? <==> exists x :: x in artifacts && IsExpired(x, now)
    ensures a.Some? ==> a.value in artifacts && IsExpired(a.value, now)
  {
    if artifacts == [] then None
    else if IsExpired(artifacts[0], now) then Some(artifacts[0])
    else FirstExpired(artifacts[1..], now)
  }

  /** A succeeded job with an artifact past its time. */
  predicate Expired(r: Record, now: int) {
    r.status == Succeeded && FirstExpired(r.artifacts, now).Some?
  }

  function Expire(r: Record, now: int, stamp: int): Record {
    if Expired(r, now) then Tombstone(r, stamp, true) else r
  }

  /** The object key `_delete_expired_artifact_locked` hands to storage, if it deletes and there is one. */
  function ExpiredKey(r: Record, now: int): Option<Text> {
    if Expired(r, now) then FirstExpired(r.artifacts, now).value.storageKey else None
  }

  /** `evaluate_expiry` */
  function EvaluateExpiry(s: Jobs, id: Text, now: int, stamp: int): (r: Result<Jobs>) {
    var i := Find(s, id);
    if !IsJobId(id) then Err(ValidationError)
    else if i.None? then Err(NotFound)
    else Ok(s[i.value := Expire(s[i.value], now, stamp)])
  }

  /** The store after `sweep_expired`. */
  function Sweep(s: Jobs, now: int, stamp: int): (t: Jobs)
    ensures |t| == |s| && forall i :: 0 <= i < |s| ==> t[i] == Expire(s[i], now, stamp)
  {
    seq(|s|, i requires 0 <= i < |s| => Expire(s[i], now, stamp))
  }
}
