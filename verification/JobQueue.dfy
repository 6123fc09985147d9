// The persistent job queue: claims under a lease, bounded retries with backoff, dead letters.
module JobQueue {
  import opened Wrappers
  import opened Pipeline
  import opened Retry

  datatype JobStatus = Queued | InProgress | Finished | Dead

  datatype Job = Job(
    key: RunKey,
    kind: JobKind,
    body: string,
    status: JobStatus,
    attempts: nat,
    availableAt: int,
    lockedAt: Option<int>)

  // One claim in the history of the queue. `reclaim` marks one that took over an expired lease.
  datatype Claim = Claim(id: nat, at: int, reclaim: bool)

  // `claims` is a history variable: no operation reads it.
  datatype Queue = Queue(jobs: map<nat, Job>, next: nat, claims: seq<Claim>)

  const EmptyQueue := Queue(map[], 1, [])

  predicate IsLive(j: Job) {
    j.status.Queued? || j.status.InProgress?
  }

  predicate Expired(j: Job, now: int) {
    j.status.InProgress? && j.lockedAt.Some? && j.lockedAt.value < now - DEFAULT_JOB_LEASE_MS
  }

  predicate Claimable(j: Job, now: int) {
    (j.status.Queued? && j.availableAt <= now) || Expired(j, now)
  }

  // The smallest claimable id, and nothing just when no job is claimable.
  function NextClaimable(q: Queue, from: nat, now: int): (r: Option<nat>)
    ensures r.Some? ==>
      && from <= r.value < q.next && r.value in q.jobs && Claimable(q.jobs[r.value], now)
      && forall id | from <= id < r.value && id in q.jobs :: !Claimable(q.jobs[id], now)
    ensures r.None? ==> forall id | from <= id < q.next && id in q.jobs :: !Claimable(q.jobs[id], now)
    decreases q.next - from
  {
    if from >= q.next then None
    else if from in q.jobs && Claimable(q.jobs[from], now) then Some(from)
    else NextClaimable(q, from + 1, now)
  }

  function EnqueueJob(q: Queue, key: RunKey, kind: JobKind, body: string, now: int): Queue {
    q.(jobs := q.jobs[q.next := Job(key, kind, body, Queued, 0, now, None)], next := q.next + 1)
  }

  function ClaimJob(q: Queue, id: nat, now: int): Queue
    requires id in q.jobs
  {
    var j := q.jobs[id];
    q.(
    jobs := q.jobs[id := j.(status := InProgress, attempts := j.attempts + 1, lockedAt := Some(now))],
    claims := q.claims + [Claim(id, now, j.status.InProgress?)])
  }

  function MarkJobDone(q: Queue, id: nat): Queue
    requires id in q.jobs
  {
    q.(jobs := q.jobs[id := q.jobs[id].(status := Finished)])
  }

  function Retried(j: Job, maxAttempts: nat, backoff: nat, now: int): Job {
    if j.attempts >= maxAttempts then j.(status := Dead)
    else j.(status := Queued, lockedAt := None, availableAt := now + ComputeBackoffMs(j.attempts, backoff))
  }

  function FailOrRetryJob(q: Queue, id: nat, now: int): Queue
    requires id in q.jobs
  {
    q.(jobs := q.jobs[id := Retried(q.jobs[id], MAX_JOB_ATTEMPTS, JOB_BACKOFF_BASE_MS, now)])
  }

  // ---- The invariant ----

  function Claims(claims: seq<Claim>, id: nat): nat {
    if claims == [] then 0
    else Claims(claims[..|claims| - 1], id) + if claims[|claims| - 1].id == id then 1 else 0
  }

  function Reclaims(claims: seq<Claim>, id: nat): nat {
    if claims == [] then 0
    else
      var c := claims[|claims| - 1];
      Reclaims(claims[..|claims| - 1], id) + if c.id == id && c.reclaim then 1 else 0
  }

  function Backoff(attempts: nat): nat {
    ComputeBackoffMs(attempts, JOB_BACKOFF_BASE_MS)
  }

  // A job's attempts are its claims; only taking over expired leases can exceed the cap.
  predicate JobCounted(q: Queue, id: nat, j: Job) {
    && j.attempts == Claims(q.claims, id)
    && j.attempts <= MAX_JOB_ATTEMPTS + Reclaims(q.claims, id)
    && (j.status.Queued? ==> j.attempts < MAX_JOB_ATTEMPTS)
  }

  // A waiting job waits out its backoff and no more than the longest one; a job in progress was locked no earlier than any claim of it.
  predicate JobTimed(q: Queue, id: nat, j: Job, now: int) {
    && (forall i | 0 <= i < |q.claims| && q.claims[i].id == id ::
          (j.status.Queued? ==> j.availableAt >= q.claims[i].at + Backoff(j.attempts)))
    && (j.status.Queued? ==> j.availableAt <= now + MAX_BACKOFF_MS)
    && (j.status.InProgress? ==> j.lockedAt.Some? && j.lockedAt.value <= now)
    && (forall i | 0 <= i < |q.claims| && q.claims[i].id == id ::
          (j.status.InProgress? ==> j.lockedAt.value >= q.claims[i].at))
  }

  // Two claims of one job: the later either took over an expired lease or came after a backoff.
  predicate ClaimsApart(claims: seq<Claim>) {
    forall i, j | 0 <= i < j < |claims| && claims[i].id == claims[j].id ::
      if claims[j].reclaim then claims[j].at > claims[i].at + DEFAULT_JOB_LEASE_MS
      else claims[j].at >= claims[i].at + Backoff(Claims(claims[..i + 1], claims[i].id))
  }

  ghost predicate QueueInv(q: Queue, now: int) {
    && 1 <= q.next && (forall id :: id in q.jobs <==> 1 <= id < q.next)
    && (forall id | id in q.jobs :: JobCounted(q, id, q.jobs[id]) && JobTimed(q, id, q.jobs[id], now))
    && (forall i | 0 <= i < |q.claims| :: q.claims[i].at <= now && q.claims[i].id in q.jobs)
    && ClaimsApart(q.claims)
  }

  lemma {:induction false} NeverClaimed(claims: seq<Claim>, id: nat)
    requires forall i | 0 <= i < |claims| :: claims[i].id != id
    ensures Claims(claims, id) == 0
  {
    if claims != [] { NeverClaimed(claims[..|claims| - 1], id); }
  }

  lemma EnqueueKeeps(q: Queue, key: RunKey, kind: JobKind, body: string, now: int)
    requires QueueInv(q, now)
    ensures QueueInv(EnqueueJob(q, key, kind, body, now), now)
  {
    hide ComputeBackoffMs, ClaimsApart;
    NeverClaimed(q.claims, q.next);
    var r := EnqueueJob(q, key, kind, body, now);
    forall other | other in r.jobs
      ensures JobCounted(r, other, r.jobs[other]) && JobTimed(r, other, r.jobs[other], now)
    {
      assert other in q.jobs ==> JobCounted(q, other, q.jobs[other]) && JobTimed(q, other, q.jobs[other], now);
    }
  }

  // Claims of one job are at least as many as in any earlier part of the history.
  lemma {:induction false} ClaimsGrow(claims: seq<Claim>, n: nat, id: nat)
    requires n <= |claims|
    ensures Claims(claims[..n], id) <= Claims(claims, id)
  {
    if n < |claims| {
      assert claims[..|claims| - 1][..n] == claims[..n];
      ClaimsGrow(claims[..|claims| - 1], n, id);
    } else {
      assert claims[..n] == claims;
    }
  }

  lemma ClaimedApart(q: Queue, id: nat, now: int)
    requires QueueInv(q, now) && id in q.jobs && Claimable(q.jobs[id], now)
    ensures ClaimsApart(ClaimJob(q, id, now).claims)
  {
    hide ComputeBackoffMs;
    var claims := ClaimJob(q, id, now).claims;
    forall i, j | 0 <= i < j < |claims| && claims[i].id == claims[j].id
      ensures if claims[j].reclaim then claims[j].at > claims[i].at + DEFAULT_JOB_LEASE_MS
              else claims[j].at >= claims[i].at + Backoff(Claims(claims[..i + 1], claims[i].id))
    {
      assert claims[..i + 1] == q.claims[..i + 1];
      if j == |q.claims| {
        ClaimsGrow(q.claims, i + 1, id);
        BackoffGrows(Claims(q.claims[..i + 1], id), q.jobs[id].attempts, JOB_BACKOFF_BASE_MS);
        assert JobTimed(q, id, q.jobs[id], now);
      }
    }
  }

  lemma ClaimKeeps(q: Queue, id: nat, now: int)
    requires QueueInv(q, now) && id in q.jobs && Claimable(q.jobs[id], now)
    ensures QueueInv(ClaimJob(q, id, now), now)
  {
    ClaimedApart(q, id, now);
    hide ComputeBackoffMs, ClaimsApart;
    var r := ClaimJob(q, id, now);
    assert r.claims[..|q.claims|] == q.claims;
    forall other | other in r.jobs
      ensures JobCounted(r, other, r.jobs[other]) && JobTimed(r, other, r.jobs[other], now)
    {
      assert JobCounted(q, other, q.jobs[other]) && JobTimed(q, other, q.jobs[other], now);
    }
  }

  lemma DoneKeeps(q: Queue, id: nat, now: int)
    requires QueueInv(q, now) && id in q.jobs
    ensures QueueInv(MarkJobDone(q, id), now)
  {
    hide ComputeBackoffMs, ClaimsApart;
    var r := MarkJobDone(q, id);
    forall other | other in r.jobs
      ensures JobCounted(r, other, r.jobs[other]) && JobTimed(r, other, r.jobs[other], now)
    {
      assert JobCounted(q, other, q.jobs[other]) && JobTimed(q, other, q.jobs[other], now);
    }
  }

  lemma RetryKeeps(q: Queue, id: nat, now: int)
    requires QueueInv(q, now) && id in q.jobs && q.jobs[id].status.InProgress?
    ensures QueueInv(FailOrRetryJob(q, id, now), now)
  {
    hide ComputeBackoffMs, ClaimsApart;
    var r := FailOrRetryJob(q, id, now);
    forall other | other in r.jobs
      ensures JobCounted(r, other, r.jobs[other]) && JobTimed(r, other, r.jobs[other], now)
    {
      assert JobCounted(q, other, q.jobs[other]) && JobTimed(q, other, q.jobs[other], now);
    }
  }

  lemma WaitingKeeps(q: Queue, now: int, later: int)
    requires QueueInv(q, now) && now <= later
    ensures QueueInv(q, later)
  {
    hide ComputeBackoffMs, ClaimsApart;
    forall other | other in q.jobs
      ensures JobTimed(q, other, q.jobs[other], later)
    {
      assert JobTimed(q, other, q.jobs[other], now);
    }
  }

  // ---- No fence ----

  // Neither completion checks who holds the lease. A second worker that lost its lease to one that has
  // since finished the job puts it back in the queue if and only if attempts remain; otherwise the
  // finished job is recorded as failed.
  lemma LateRetryResurrects(q: Queue, id: nat, now: int, later: int)
    requires id in q.jobs && Expired(q.jobs[id], now)
    ensures var finished := MarkJobDone(ClaimJob(q, id, now), id);
      var status := FailOrRetryJob(finished, id, later).jobs[id].status;
      finished.jobs[id].status.Finished?
      && (status.Queued? <==> q.jobs[id].attempts + 1 < MAX_JOB_ATTEMPTS)
      && (status.Dead? <==> q.jobs[id].attempts + 1 >= MAX_JOB_ATTEMPTS)
  {
    hide ComputeBackoffMs;
  }
}
