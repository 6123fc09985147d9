// The in-memory store: jobs, runs and processed deliveries, updated in place. Each method's new state
// is the one the transition system prescribes.
module MemoryStore {
  import opened Wrappers
  import opened Pipeline
  import opened RunInvariant
  import opened Steps
  import opened Retry
  import opened JobQueue
  import opened Orchestration

  datatype ArtifactKind = SpecArtifact | PlanArtifact

  // One run was created before the other.
  ghost predicate IsOlder(order: seq<RunKey>, older: RunKey, younger: RunKey) {
    exists i, j | 0 <= i < j < |order| :: order[i] == older && order[j] == younger
  }

  class InMemoryStore {
    var now: int
    var jobs: map<nat, Job>
    var nextJobId: nat
    var runs: map<RunKey, Run>
    var order: seq<RunKey>
    var nextTaskId: nat
    var processedEvents: set<string>
    ghost var claims: seq<Claim>
    ghost var deaths: multiset<RunKey>

    ghost function Contents(): World
      reads this
    {
      World(now, Queue(jobs, nextJobId, claims), runs, order, nextTaskId, processedEvents, deaths)
    }

    constructor (start: int)
      ensures Contents() == Initial(start)
    {
      now := start;
      jobs := map[];
      nextJobId := 1;
      runs := map[];
      order := [];
      nextTaskId := 1;
      processedEvents := {};
      claims := [];
      deaths := multiset{};
    }

    // ---- Jobs ----

    method EnqueueJob(key: RunKey, kind: JobKind, body: string) returns (id: nat)
      modifies this
      ensures Contents() == AddJob(old(Contents()), key, kind, body)
      ensures id == old(nextJobId) && jobs[id].status.Queued?
    {
      id := nextJobId;
      nextJobId := nextJobId + 1;
      jobs := jobs[id := Job(key, kind, body, Queued, 0, now, None)];
    }

    // The claim goes to the smallest claimable id, and to none just when no job is claimable.
    method ClaimNextJob() returns (claimed: Option<nat>)
      modifies this
      ensures claimed == NextClaimable(old(Contents()).queue, 0, now)
      ensures claimed.Some? ==>
        Contents() == old(Contents()).(queue := ClaimJob(old(Contents()).queue, claimed.value, now))
      ensures claimed.None? ==> Contents() == old(Contents())
    {
      var id := 0;
      while id < nextJobId
        invariant id <= nextJobId
        invariant NextClaimable(Contents().queue, 0, now) == NextClaimable(Contents().queue, id, now)
        invariant Contents() == old(Contents())
      {
        if id in jobs && Claimable(jobs[id], now) {
          var job := jobs[id];
          claims := claims + [Claim(id, now, job.status.InProgress?)];
          jobs := jobs[id := job.(status := InProgress, attempts := job.attempts + 1, lockedAt := Some(now))];
          return Some(id);
        }
        id := id + 1;
      }
      return None;
    }

    method MarkJobDone(id: nat)
      modifies this
      ensures id in old(jobs) ==> Contents() == Finish(old(Contents()), id)
      ensures id !in old(jobs) ==> Contents() == old(Contents())
    {
      if id in jobs {
        jobs := jobs[id := jobs[id].(status := Finished)];
      }
    }

    // Backs off while attempts remain, and buries the job once they are used up.
    method FailOrRetryJob(id: nat, maxAttempts: nat, backoffMs: nat) returns (status: JobStatus, attempts: nat)
      modifies this
      ensures id !in old(jobs) ==> Contents() == old(Contents()) && status.Dead? && attempts == 0
      ensures id in old(jobs) ==>
        && Contents() == old(Contents()).(queue := old(Contents()).queue.(
             jobs := old(jobs)[id := Retried(old(jobs)[id], maxAttempts, backoffMs, now)]))
        && status == jobs[id].status && attempts == old(jobs)[id].attempts
        && (status.Dead? <==> attempts >= maxAttempts) && (status.Queued? <==> attempts < maxAttempts)
    {
      if id !in jobs { return Dead, 0; }
      var job := jobs[id];
      attempts := job.attempts;
      if job.attempts >= maxAttempts {
        jobs := jobs[id := job.(status := Dead)];
        status := Dead;
      } else {
        var wait := ComputeBackoffMs(job.attempts, backoffMs);
        jobs := jobs[id := job.(status := Queued, lockedAt := None, availableAt := now + wait)];
        status := Queued;
      }
    }

    // ---- Runs ----

    method FindOrCreateRun(key: RunKey) returns (created: bool)
      modifies this
      ensures Contents() == Orchestration.FindOrCreateRun(old(Contents()), key)
      ensures created <==> key !in old(runs)
      ensures key in runs
    {
      created := key !in runs;
      if created {
        runs := runs[key := NewRun(now, DEFAULT_RUN_BUDGET_NANO_USD)];
        order := order + [key];
      }
    }

    // Replaces the row of one run, as every update of a run does.
    method PutRun(key: RunKey, run: Run)
      modifies this`runs
      ensures Contents() == old(Contents()).(runs := old(runs)[key := run])
    {
      runs := runs[key := run];
    }

    method UpdateRunState(key: RunKey, state: RunState)
      modifies this`runs
      ensures key in old(runs) ==>
        Contents() == old(Contents()).(runs := old(runs)[key := old(runs)[key].(state := state, updatedAt := now)])
      ensures key !in old(runs) ==> Contents() == old(Contents())
    {
      if key in runs { PutRun(key, runs[key].(state := state, updatedAt := now)); }
    }

    method UpdateRunContext(key: RunKey, ctx: Context)
      modifies this`runs
      ensures key in old(runs) ==>
        Contents() == old(Contents()).(runs := old(runs)[key := old(runs)[key].(ctx := ctx, updatedAt := now)])
      ensures key !in old(runs) ==> Contents() == old(Contents())
    {
      if key in runs { PutRun(key, runs[key].(ctx := ctx, updatedAt := now)); }
    }

    method SetRunBudget(key: RunKey, budget: int)
      modifies this`runs
      ensures key in old(runs) ==>
        Contents() == old(Contents()).(runs := old(runs)[key := old(runs)[key].(budget := budget, updatedAt := now)])
      ensures key !in old(runs) ==> Contents() == old(Contents())
    {
      if key in runs { PutRun(key, runs[key].(budget := budget, updatedAt := now)); }
    }

    // An event joins the history of a run.
    method Witness(key: RunKey, e: Event)
      modifies this`runs
      ensures key in old(runs) ==>
        Contents() == old(Contents()).(runs := old(runs)[key := Note(old(runs)[key], e)])
      ensures key !in old(runs) ==> Contents() == old(Contents())
    {
      if key in runs { PutRun(key, Note(runs[key], e)); }
    }

    // Leaves the staleness clock of the run alone.
    method MarkRunPinged(key: RunKey, at: int)
      modifies this`runs
      ensures key in old(runs) ==> Contents() == old(Contents()).(runs := old(runs)[key := Ping(old(runs)[key], at)])
      ensures key !in old(runs) ==> Contents() == old(Contents())
    {
      if key in runs { PutRun(key, Ping(runs[key], at)); }
    }

    // The runs in one of the given states that have been idle since before the given time, oldest first.
    method GetStaleRuns(states: set<RunState>, updatedBefore: int) returns (stale: seq<RunKey>)
      requires forall k :: k in runs <==> k in order
      requires forall i, j | 0 <= i < j < |order| :: order[i] != order[j]
      ensures forall k :: k in stale <==> k in runs && runs[k].state in states && runs[k].updatedAt < updatedBefore
      ensures forall a, b | 0 <= a < b < |stale| :: stale[a] != stale[b] && IsOlder(order, stale[a], stale[b])
    {
      stale := [];
      ghost var at: seq<nat> := [];
      for i := 0 to |order|
        invariant forall k :: k in stale <==>
          k in order[..i] && runs[k].state in states && runs[k].updatedAt < updatedBefore
        invariant |at| == |stale| && forall a | 0 <= a < |at| :: at[a] < i && order[at[a]] == stale[a]
        invariant forall a, b | 0 <= a < b < |at| :: at[a] < at[b]
      {
        assert order[..i + 1] == order[..i] + [order[i]];
        if runs[order[i]].state in states && runs[order[i]].updatedAt < updatedBefore {
          stale, at := stale + [order[i]], at + [i];
        }
      }
      assert order[..|order|] == order;
      forall a, b | 0 <= a < b < |stale| ensures IsOlder(order, stale[a], stale[b]) {
        assert at[a] < at[b];
      }
    }

    // ---- What a run owns ----

    // There is one artifact of a kind, however often it is recorded.
    method RecordArtifact(key: RunKey, kind: ArtifactKind)
      modifies this`runs
      ensures key in old(runs) ==>
        Contents() == old(Contents()).(runs := old(runs)[key :=
          if kind.SpecArtifact? then old(runs)[key].(hasSpec := true) else old(runs)[key].(hasPlan := true)])
      ensures key !in old(runs) ==> Contents() == old(Contents())
    {
      if key in runs {
        PutRun(key, if kind.SpecArtifact? then runs[key].(hasSpec := true) else runs[key].(hasPlan := true));
      }
    }

    method RecordTask(key: RunKey)
      modifies this`runs, this`nextTaskId
      ensures key in old(runs) ==>
        Contents() == old(Contents()).(
          runs := old(runs)[key := old(runs)[key].(tasks := old(runs)[key].tasks + [Task(old(nextTaskId), Pending)])],
          nextTask := old(nextTaskId) + 1)
      ensures key !in old(runs) ==> Contents() == old(Contents()).(nextTask := old(nextTaskId) + 1)
    {
      if key in runs { PutRun(key, runs[key].(tasks := runs[key].tasks + [Task(nextTaskId, Pending)])); }
      nextTaskId := nextTaskId + 1;
    }

    // A task that does not exist is left alone.
    method UpdateTask(key: RunKey, i: nat, status: TaskStatus)
      modifies this`runs
      ensures key in old(runs) && i < |old(runs)[key].tasks| ==>
        Contents() == old(Contents()).(runs :=
          old(runs)[key := old(runs)[key].(tasks := WithStatus(old(runs)[key].tasks, i, status))])
      ensures key !in old(runs) || i >= |old(runs)[key].tasks| ==> Contents() == old(Contents())
    {
      if key in runs && i < |runs[key].tasks| {
        PutRun(key, runs[key].(tasks := WithStatus(runs[key].tasks, i, status)));
      }
    }

    // Nothing is recorded, and the call throws, if the run is gone.
    method RecordLlmCall(key: RunKey, cost: nat) returns (remaining: Option<int>)
      modifies this`runs
      ensures remaining.Some? <==> key in old(runs)
      ensures remaining.Some? ==>
        && Contents() == old(Contents()).(runs := old(runs)[key := Charge(old(runs)[key], cost, now)])
        && remaining.value == old(runs)[key].budget - old(runs)[key].spent - cost
      ensures remaining.None? ==> Contents() == old(Contents())
    {
      if key !in runs { return None; }
      PutRun(key, Charge(runs[key], cost, now));
      remaining := Some(runs[key].budget - runs[key].spent);
    }

    // ---- Deliveries ----

    method TryMarkEventProcessed(deliveryId: string) returns (first: bool)
      modifies this`processedEvents
      ensures first <==> deliveryId !in old(processedEvents)
      ensures processedEvents == old(processedEvents) + {deliveryId}
    {
      first := deliveryId !in processedEvents;
      processedEvents := processedEvents + {deliveryId};
    }
  }
}
