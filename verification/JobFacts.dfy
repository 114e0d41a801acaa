/** Laws of the store operations: counting, promotion, retry ids, sweeping. */
module JobFacts {
  import opened Texts
  import opened Contracts
  import opened StateMachine
  import opened Jobs

  // --- Finding and counting

  lemma {:induction false} FindAt(s: Jobs, i: nat)
    requires UniqueIds(s) && i < |s|
    ensures Find(s, s[i].id) == Some(i)
  {
    if i < |s| - 1 {
      assert s[|s| - 1].id != s[i].id;
      FindAt(s[..|s| - 1], i);
    }
  }

  lemma {:induction false} CountUpdate(s: Jobs, i: nat, r: Record, status: Status)
    requires i < |s|
    ensures Count(s[i := r], status) ==
            Count(s, status) - (if s[i].status == status then 1 else 0) + (if r.status == status then 1 else 0)
  {
    var t := s[i := r];
    if i == |s| - 1 {
      assert t[..|s| - 1] == s[..|s| - 1];
    } else {
      assert t[..|s| - 1] == s[..|s| - 1][i := r];
      CountUpdate(s[..|s| - 1], i, r, status);
    }
  }

  lemma CountAppend(s: Jobs, r: Record, status: Status)
    ensures Count(s + [r], status) == Count(s, status) + if r.status == status then 1 else 0
  {
    assert (s + [r])[..|s|] == s;
  }

  lemma {:induction false} CountCons(r: Record, s: Jobs, status: Status)
    ensures Count([r] + s, status) == (if r.status == status then 1 else 0) + Count(s, status)
  {
    if s == [] {
      assert ([r] + s)[..0] == [];
      assert [r] + s == [r];
    } else {
      assert ([r] + s)[..|s|] == [r] + s[..|s| - 1];
      CountCons(r, s[..|s| - 1], status);
    }
  }

  lemma CountSplit(s: Jobs, status: Status)
    requires s != []
    ensures Count(s, status) == (if s[0].status == status then 1 else 0) + Count(s[1..], status)
  {
    CountCons(s[0], s[1..], status);
    assert [s[0]] + s[1..] == s;
  }

  // --- Promotion

  function Min(a: nat, b: nat): nat {
    if a < b then a else b
  }

  lemma {:induction false} PromoteCounts(s: Jobs, k: nat, now: int)
    ensures Count(PromoteFirst(s, k, now), Queued) == Count(s, Queued) - Min(k, Count(s, Queued))
    ensures Count(PromoteFirst(s, k, now), Running) == Count(s, Running) + Min(k, Count(s, Queued))
    decreases |s|
  {
    if s != [] && k > 0 {
      var rest := if s[0].status == Queued then k - 1 else k;
      var t := PromoteFirst(s[1..], rest, now);
      PromoteCounts(s[1..], rest, now);
      CountSplit(s, Queued);
      CountSplit(s, Running);
      CountCons(s[0], t, Queued);
      CountCons(s[0], t, Running);
      CountCons(Started(s[0], now), t, Queued);
      CountCons(Started(s[0], now), t, Running);
    }
  }

  /** Which records promotion touches: a queued one with fewer than `k` queued ones before it. */
  lemma {:induction false} PromotedAt(s: Jobs, k: nat, now: int, i: nat)
    requires i < |s|
    ensures PromoteFirst(s, k, now)[i] ==
            if s[i].status == Queued && Count(s[..i], Queued) < k then Started(s[i], now) else s[i]
    decreases |s|
  {
    if i == 0 {
      assert s[..0] == [];
    } else {
      assert s[..i] == [s[0]] + s[1..][..i - 1];
      CountCons(s[0], s[1..][..i - 1], Queued);
      if k > 0 {
        PromotedAt(s[1..], if s[0].status == Queued then k - 1 else k, now, i - 1);
      }
    }
  }

  /**
   Promotion turns exactly the first min(free slots, queued) queued jobs, by insertion, into running ones
   and changes nothing else. It keeps the number of active jobs, fills no more than the free slots, and
   leaves no slot free while a job is queued.
   */
  lemma PromotionIsFifo(maxRunning: int, s: Jobs, now: int)
    ensures var t := Promote(maxRunning, s, now);
            var k := Min(FreeSlots(maxRunning, s), Count(s, Queued));
            && (forall i :: 0 <= i < |s| ==>
                  t[i] == if s[i].status == Queued && Count(s[..i], Queued) < k then Started(s[i], now) else s[i])
            && ActiveCount(t) == ActiveCount(s)
            && Count(t, Running) == Count(s, Running) + k
            && (Count(s, Running) <= maxRunning ==> Count(t, Running) <= maxRunning)
            && (FreeSlots(maxRunning, t) == 0 || Count(t, Queued) == 0)
  {
    var free := FreeSlots(maxRunning, s);
    PromoteCounts(s, free, now);
    forall i | 0 <= i < |s|
      ensures Promote(maxRunning, s, now)[i] ==
              if s[i].status == Queued && Count(s[..i], Queued) < Min(free, Count(s, Queued)) then Started(s[i], now) else s[i]
    {
      PromotedAt(s, free, now, i);
      CountPrefix(s, i, Queued);
    }
  }

  lemma {:induction false} CountPrefix(s: Jobs, i: nat, status: Status)
    requires i < |s|
    ensures Count(s[..i], status) + (if s[i].status == status then 1 else 0) <= Count(s, status)
    decreases |s|
  {
    if i == |s| - 1 {
      assert s[..i] == s[..|s| - 1];
    } else {
      CountPrefix(s[..|s| - 1], i, status);
      assert s[..|s| - 1][..i] == s[..i];
    }
  }

  lemma {:induction false} CountTakeUpdate(s: Jobs, i: nat, r: Record, k: nat, status: Status)
    requires i < |s| && k <= |s| && s[i].status != status && r.status != status
    ensures Count(s[i := r][..k], status) == Count(s[..k], status)
  {
    if i < k {
      assert s[i := r][..k] == s[..k][i := r];
      CountUpdate(s[..k], i, r, status);
    } else {
      assert s[i := r][..k] == s[..k];
    }
  }

  /**
   A running job that comes to an end makes room, and the room is used: exactly the queued jobs that then find a
   free slot, first come first served, are started, and no slot stays free while a job is queued.
   */
  lemma FreedSlotIsReused(cfg: Config, s: Jobs, i: nat, status: Status, now: int)
    requires i < |s| && s[i].status == Running && !Active(status)
    ensures var t := Move(cfg, s, i, status, now);
            var left := Count(s, Running) - 1;
            var k := Min(if left < cfg.maxRunning then cfg.maxRunning - left else 0, Count(s, Queued));
            && t[i] == s[i].(status := status, updatedAt := now)
            && (forall j :: 0 <= j < |s| && j != i ==>
                  t[j] == if s[j].status == Queued && Count(s[..j], Queued) < k then Started(s[j], now) else s[j])
            && Count(t, Running) == left + k
            && (FreeSlots(cfg.maxRunning, t) == 0 || Count(t, Queued) == 0)
  {
    hide Count, Promote;
    var moved := s[i := s[i].(status := status, updatedAt := now)];
    CountUpdate(s, i, moved[i], Running);
    CountUpdate(s, i, moved[i], Queued);
    PromotionIsFifo(cfg.maxRunning, moved, now);
    forall j | 0 <= j < |s|
      ensures Count(moved[..j], Queued) == Count(s[..j], Queued)
    {
      CountTakeUpdate(s, i, moved[i], j, Queued);
    }
  }

  /** The first queued record, if any. */
  function FirstQueued(s: Jobs): (i: Option<nat>)
    ensures i.Some? ==> i.value < |s| && s[i.value].status == Queued
    ensures i.Some? ==> forall k :: 0 <= k < i.value ==> s[k].status != Queued
    ensures i.None? ==> forall k :: 0 <= k < |s| ==> s[k].status != Queued
  {
    if s == [] then None
    else if s[0].status == Queued then Some(0)
    else
      var i := FirstQueued(s[1..]);
      if i.None? then None else Some(i.value + 1)
  }

  /** One round of the promotion loop. */
  function StartFirst(s: Jobs, now: int): (t: Jobs)
    ensures |t| == |s|
  {
    var i := FirstQueued(s);
    if i.None? then s else s[i.value := Started(s[i.value], now)]
  }

  lemma StartFirstBehind(r: Record, s: Jobs, now: int)
    requires r.status != Queued
    ensures StartFirst([r] + s, now) == [r] + StartFirst(s, now)
  {
    assert ([r] + s)[1..] == s;
  }

  /** Promoting one more job is starting the first one still queued. */
  lemma {:induction false} PromoteOneMore(s: Jobs, k: nat, now: int)
    ensures PromoteFirst(s, k + 1, now) == StartFirst(PromoteFirst(s, k, now), now)
    decreases |s|
  {
    hide StartFirst;
    if s == [] {
      StartNone(now);
    } else if k > 0 {
      var head := if s[0].status == Queued then Started(s[0], now) else s[0];
      var rest := if s[0].status == Queued then k - 1 else k;
      PromoteOneMore(s[1..], rest, now);
      StartFirstBehind(head, PromoteFirst(s[1..], rest, now), now);
    } else if s[0].status == Queued {
      StartHead(s, now);
      assert PromoteFirst(s[1..], 0, now) == s[1..];
    } else {
      PromoteOneMore(s[1..], 0, now);
      assert PromoteFirst(s[1..], 0, now) == s[1..];
      StartFirstBehind(s[0], s[1..], now);
      assert s == [s[0]] + s[1..];
    }
  }

  lemma StartNone(now: int)
    ensures StartFirst([], now) == []
  {
  }

  lemma StartHead(s: Jobs, now: int)
    requires s != [] && s[0].status == Queued
    ensures StartFirst(s, now) == [Started(s[0], now)] + s[1..]
  {
  }

  lemma {:induction false} NoneQueued(s: Jobs)
    ensures FirstQueued(s).None? <==> Count(s, Queued) == 0
  {
    if s != [] {
      CountSplit(s, Queued);
      NoneQueued(s[1..]);
    }
  }

  // --- Retry ids

  lemma {:induction false} LeastFreeExists(sha: Sha, s: Jobs, original: Text, n: nat)
    requires FreeAttempt(sha, s, original, n)
    ensures exists m: nat :: 1 <= m <= n && LeastFree(sha, s, original, m)
  {
    if m :| 1 <= m < n && FreeAttempt(sha, s, original, m) {
      LeastFreeExists(sha, s, original, m);
      var l: nat :| 1 <= l <= m && LeastFree(sha, s, original, l);
      assert l <= n;
    } else {
      assert LeastFree(sha, s, original, n);
    }
  }

  /** The search stops exactly when some attempt is free, and then at the least one. */
  lemma RetryAttemptExists(sha: Sha, s: Jobs, original: Text)
    ensures RetryAttempt(sha, s, original).Some? <==> exists n :: FreeAttempt(sha, s, original, n)
  {
    if n :| FreeAttempt(sha, s, original, n) {
      LeastFreeExists(sha, s, original, n);
    }
  }

  lemma LeastFreeUnique(sha: Sha, s: Jobs, original: Text, n: nat)
    requires LeastFree(sha, s, original, n)
    ensures RetryAttempt(sha, s, original) == Some(n)
  {
  }

  /** The first `k` attempts have different ids. */
  predicate DistinctAttempts(sha: Sha, original: Text, k: nat) {
    forall i, j :: 1 <= i < j <= k ==> RetryId(sha, original, i) != RetryId(sha, original, j)
  }

  function AttemptIds(sha: Sha, original: Text, k: nat): (ids: set<Text>)
    ensures forall i :: 1 <= i <= k ==> RetryId(sha, original, i) in ids
    ensures forall id :: id in ids ==> exists i :: 1 <= i <= k && id == RetryId(sha, original, i)
  {
    if k == 0 then {} else AttemptIds(sha, original, k - 1) + {RetryId(sha, original, k)}
  }

  lemma LastAttemptIsNew(sha: Sha, original: Text, k: nat)
    requires DistinctAttempts(sha, original, k) && k > 0
    ensures RetryId(sha, original, k) !in AttemptIds(sha, original, k - 1)
    ensures DistinctAttempts(sha, original, k - 1)
  {
    hide RetryId, AttemptIds;
  }

  lemma {:induction false} AttemptIdCount(sha: Sha, original: Text, k: nat)
    requires DistinctAttempts(sha, original, k)
    ensures |AttemptIds(sha, original, k)| == k
  {
    hide RetryId, DistinctAttempts;
    if k > 0 {
      LastAttemptIsNew(sha, original, k);
      AttemptIdCount(sha, original, k - 1);
    }
  }

  function IdSet(s: Jobs): (ids: set<Text>)
    ensures forall i :: 0 <= i < |s| ==> s[i].id in ids
    ensures |ids| <= |s|
  {
    if s == [] then {} else IdSet(s[..|s| - 1]) + {s[|s| - 1].id}
  }

  lemma SubsetSize(a: set<Text>, b: set<Text>)
    requires a <= b
    ensures |a| <= |b|
  {
    assert b == a + (b - a);
  }

  /** With different digests the search stops within one attempt more than there are jobs. */
  lemma RetrySearchTerminates(sha: Sha, s: Jobs, original: Text)
    requires DistinctAttempts(sha, original, |s| + 1)
    ensures RetryAttempt(sha, s, original).Some? && 1 <= RetryAttempt(sha, s, original).value <= |s| + 1
  {
    if forall n :: 1 <= n <= |s| + 1 ==> !FreeAttempt(sha, s, original, n) {
      var ids := AttemptIds(sha, original, |s| + 1);
      forall id | id in ids
        ensures id in IdSet(s)
      {
        var i :| 1 <= i <= |s| + 1 && id == RetryId(sha, original, i);
        assert !FreeAttempt(sha, s, original, i);
      }
      AttemptIdCount(sha, original, |s| + 1);
      SubsetSize(ids, IdSet(s));
      assert false;
    }
    var n :| 1 <= n <= |s| + 1 && FreeAttempt(sha, s, original, n);
    RetryAttemptExists(sha, s, original);
  }

  /** When every attempt has the id of one stored job, the search never stops. */
  lemma RetrySearchHangs(sha: Sha, s: Jobs, original: Text, i: nat)
    requires i < |s| && forall n :: n >= 1 ==> RetryId(sha, original, n) == s[i].id
    ensures RetryAttempt(sha, s, original).None?
  {
    forall n: nat
      ensures !FreeAttempt(sha, s, original, n)
    {
      if n >= 1 {
        assert s[i].id == RetryId(sha, original, n);
      }
    }
    RetryAttemptExists(sha, s, original);
  }

  // --- Sweeping

  /** Two records that differ at most in the instants of deletion. */
  function Untimed(r: Record): Record {
    if r.status == Deleted then r.(deletedAt := None, updatedAt := 0) else r
  }

  function UntimedJobs(s: Jobs): (t: Jobs)
    ensures |t| == |s| && forall i :: 0 <= i < |s| ==> t[i] == Untimed(s[i])
  {
    seq(|s|, i requires 0 <= i < |s| => Untimed(s[i]))
  }

  lemma {:induction false} ExpiryMonotone(artifacts: seq<Artifact>, t1: int, t2: int)
    requires t1 <= t2 && FirstExpired(artifacts, t1).Some?
    ensures FirstExpired(artifacts, t2).Some?
  {
    var a := FirstExpired(artifacts, t1).value;
    assert IsExpired(a, t2);
  }

  /** A sweep deletes just the succeeded jobs holding an artifact whose time is up, and touches nothing else. */
  lemma SweepIsExact(s: Jobs, now: int, stamp: int, i: nat)
    requires i < |s|
    ensures var t := Sweep(s, now, stamp);
            var due := s[i].status == Succeeded && exists a :: a in s[i].artifacts && now >= a.createdAt + a.retention.ttl;
            && (t[i] != s[i] <==> due)
            && (due ==> t[i].status == Deleted && t[i].request.None? && t[i].artifacts == [] && t[i].provenance == s[i].provenance)
            && t[i].id == s[i].id && t[i].retryOf == s[i].retryOf
  {
    var due := s[i].status == Succeeded && exists a :: a in s[i].artifacts && now >= a.createdAt + a.retention.ttl;
    if a :| a in s[i].artifacts && now >= a.createdAt + a.retention.ttl {
      assert IsExpired(a, now);
    }
    if Expired(s[i], now) {
      var a := FirstExpired(s[i].artifacts, now).value;
      assert IsExpired(a, now) && a in s[i].artifacts;
    }
  }

  /** Sweeping twice at one instant is sweeping once. */
  lemma SweepAgain(s: Jobs, now: int, stamp: int, later: int)
    ensures Sweep(Sweep(s, now, stamp), now, later) == Sweep(s, now, stamp)
  {
  }

  /** Sweeping early and then late deletes what sweeping late would have. */
  lemma SweepsCompose(s: Jobs, t1: int, t2: int, stamp1: int, stamp2: int, stamp: int)
    requires t1 <= t2
    ensures UntimedJobs(Sweep(Sweep(s, t1, stamp1), t2, stamp2)) == UntimedJobs(Sweep(s, t2, stamp))
  {
    forall i | 0 <= i < |s|
      ensures Untimed(Expire(Expire(s[i], t1, stamp1), t2, stamp2)) == Untimed(Expire(s[i], t2, stamp))
    {
      if Expired(s[i], t1) {
        ExpiryMonotone(s[i].artifacts, t1, t2);
      }
    }
  }
}
