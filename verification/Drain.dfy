// The queue drains: while the worker lives, every job it processes lowers a weight that only webhooks
// raise, although clarifying and planning enqueue each other.
module Drain {
  import opened Wrappers
  import opened Pipeline
  import opened RunInvariant
  import opened Steps
  import opened HandlerSpec
  import opened RunSafety
  import opened RunProgress
  import opened Retry
  import opened JobQueue
  import opened Orchestration
  import opened WorldSafety
  import opened Locality
  import opened WorldFlow
  import opened Liveness

  // Three attempts at any job that may follow a job weigh less than one attempt at that job.
  function Unit(kind: JobKind, reclarified: bool): nat {
    match kind
    case Review => 1
    case Implement => 4
    case ResumeImplementation => 13
    case ResumePlanDecision => 13
    case Fix => 40
    case ProducePlan => if reclarified then 1 else 13
    case Clarify => if reclarified then 4 else 40
    case ResumeClarification => if reclarified then 4 else 40
    case ProduceSpec => 121
    case IssueOpened => 364
  }

  predicate Reclarified(runs: map<RunKey, Run>, key: RunKey) {
    key in runs && runs[key].ctx.dorReclarified
  }

  function AttemptsLeft(j: Job): nat {
    if j.attempts + 1 < MAX_JOB_ATTEMPTS then MAX_JOB_ATTEMPTS - j.attempts else 1
  }

  function JobWeight(j: Job, runs: map<RunKey, Run>): nat {
    if IsLive(j) then AttemptsLeft(j) * Unit(j.kind, Reclarified(runs, j.key)) else 0
  }

  // The weight of the jobs whose ids are below `n`.
  function Total(jobs: map<nat, Job>, runs: map<RunKey, Run>, n: nat): nat {
    if n == 0 then 0
    else Total(jobs, runs, n - 1) + if n - 1 in jobs then JobWeight(jobs[n - 1], runs) else 0
  }

  function Weight(w: World): nat {
    Total(w.queue.jobs, w.runs, w.queue.next)
  }

  const DELIVERY_WEIGHT := 1092

  // ---- Totals ----

  predicate Lighter(jobs: map<nat, Job>, runs: map<RunKey, Run>, jobs': map<nat, Job>, runs': map<RunKey, Run>, id: nat) {
    (id in jobs' ==> id in jobs && JobWeight(jobs'[id], runs') <= JobWeight(jobs[id], runs))
  }

  function WeightAt(jobs: map<nat, Job>, runs: map<RunKey, Run>, id: nat): nat {
    if id in jobs then JobWeight(jobs[id], runs) else 0
  }

  // All jobs but `id` became no heavier.
  lemma {:induction false} TotalDrops(
      jobs: map<nat, Job>, runs: map<RunKey, Run>, jobs': map<nat, Job>, runs': map<RunKey, Run>, id: nat, n: nat)
    requires forall other: nat | other < n && other != id :: Lighter(jobs, runs, jobs', runs', other)
    ensures Total(jobs', runs', n) + (if id < n then WeightAt(jobs, runs, id) else 0)
         <= Total(jobs, runs, n) + (if id < n then WeightAt(jobs', runs', id) else 0)
  {
    hide JobWeight;
    if n > 0 {
      TotalDrops(jobs, runs, jobs', runs', id, n - 1);
      assert n - 1 != id ==> Lighter(jobs, runs, jobs', runs', n - 1);
    }
  }

  predicate FlagsKept(before: map<RunKey, Run>, after: map<RunKey, Run>) {
    forall k | k in before && before[k].ctx.dorReclarified :: k in after && after[k].ctx.dorReclarified
  }

  lemma KeptFlags(before: map<RunKey, Run>, after: map<RunKey, Run>)
    requires WorldKept(before, after)
    ensures FlagsKept(before, after)
  {
    hide DoneCount, TasksKept, HelpKept;
  }

  lemma LighterRuns(j: Job, runs: map<RunKey, Run>, runs': map<RunKey, Run>)
    requires FlagsKept(runs, runs')
    ensures JobWeight(j, runs') <= JobWeight(j, runs)
  {
    var before, after := Unit(j.kind, Reclarified(runs, j.key)), Unit(j.kind, Reclarified(runs', j.key));
    assert after <= before;
    assert AttemptsLeft(j) * after <= AttemptsLeft(j) * before;
  }

  // ---- One job ----

  // The job was processed: it is settled with one attempt more, and what it enqueued may follow it.
  predicate Processed(w: World, z: World, id: nat, enq: Option<NewJob>) {
    && id in w.queue.jobs && id in z.queue.jobs && id < w.queue.next
    && IsLive(w.queue.jobs[id])
    && z.queue.next == w.queue.next + (if enq.Some? then 1 else 0)
    && z.queue.jobs[id].key == w.queue.jobs[id].key && z.queue.jobs[id].kind == w.queue.jobs[id].kind
    && z.queue.jobs[id].attempts == w.queue.jobs[id].attempts + 1
    && !z.queue.jobs[id].status.InProgress?
    && (z.queue.jobs[id].status.Queued? ==> z.queue.jobs[id].attempts < MAX_JOB_ATTEMPTS)
    && (enq.Some? ==> w.queue.next in z.queue.jobs && Follows(w, w.queue.jobs[id], z, z.queue.jobs[w.queue.next]))
  }

  predicate Follows(w: World, job: Job, z: World, j: Job) {
    && j.status.Queued? && j.attempts == 0 && j.key == job.key
    && 3 * Unit(j.kind, Reclarified(z.runs, j.key)) < Unit(job.kind, Reclarified(w.runs, job.key))
  }

  lemma FollowUnit(kind: JobKind, before: Run, next: JobKind, after: Run,
                   runs: map<RunKey, Run>, runs': map<RunKey, Run>, key: RunKey)
    requires MayFollow(kind, before, next, after)
    requires Reclarified(runs, key) == before.ctx.dorReclarified && Reclarified(runs', key) == after.ctx.dorReclarified
    requires before.ctx.dorReclarified ==> after.ctx.dorReclarified
    ensures 3 * Unit(next, Reclarified(runs', key)) < Unit(kind, Reclarified(runs, key))
  {
  }

  lemma SettledWeight(w: World, z: World, id: nat, enq: Option<NewJob>)
    requires Processed(w, z, id, enq) && FlagsKept(w.runs, z.runs)
    ensures WeightAt(z.queue.jobs, z.runs, id) + (if enq.Some? then WeightAt(z.queue.jobs, z.runs, w.queue.next) else 0)
          < WeightAt(w.queue.jobs, w.runs, id)
  {
    var before, after := w.queue.jobs[id], z.queue.jobs[id];
    var u, u' := Unit(before.kind, Reclarified(w.runs, before.key)), Unit(after.kind, Reclarified(z.runs, after.key));
    assert u' <= u;
    var left := AttemptsLeft(before);
    assert WeightAt(w.queue.jobs, w.runs, id) == left * u;
    if after.status.Queued? {
      assert AttemptsLeft(after) == left - 1;
      assert (left - 1) * u' <= (left - 1) * u == left * u - u;
    } else {
      assert left * u >= u;
    }
  }

  lemma ProcessedWeight(w: World, z: World, id: nat, enq: Option<NewJob>)
    requires Processed(w, z, id, enq) && FlagsKept(w.runs, z.runs)
    requires forall other: nat | other in z.queue.jobs && other < w.queue.next && other != id ::
      other in w.queue.jobs && z.queue.jobs[other] == w.queue.jobs[other]
    ensures Weight(z) < Weight(w)
  {
    SettledWeight(w, z, id, enq);
    hide Processed, JobWeight, FlagsKept;
    forall other: nat | other < w.queue.next && other != id
      ensures Lighter(w.queue.jobs, w.runs, z.queue.jobs, z.runs, other)
    {
      if other in z.queue.jobs { LighterRuns(z.queue.jobs[other], w.runs, z.runs); }
    }
    TotalDrops(w.queue.jobs, w.runs, z.queue.jobs, z.runs, id, w.queue.next);
    ProcessedNext(w, z, id, enq);
  }

  lemma ProcessedNext(w: World, z: World, id: nat, enq: Option<NewJob>)
    requires Processed(w, z, id, enq)
    ensures id < w.queue.next && z.queue.next == w.queue.next + (if enq.Some? then 1 else 0)
  {
  }

  // ---- The worker's step ----

  // From the admitted job to the settled one.
  lemma DispatchProcessed(w: World, m: World, id: nat, a: Answers, f: Faults)
    requires WorldInv(m) && NoDeath(f) && Breathing(a)
    requires id in w.queue.jobs && IsLive(w.queue.jobs[id]) && FlowsFor(m, w.queue.jobs[id].key)
    requires m.queue == ClaimJob(w.queue, id, w.now)
    requires w.queue.jobs[id].key in m.runs
    requires Reclarified(w.runs, w.queue.jobs[id].key) == Reclarified(m.runs, w.queue.jobs[id].key)
    ensures Processed(w, Dispatch(m, id, a, f), id, Executed(m, id, a, f).enq)
    ensures forall other | other in Dispatch(m, id, a, f).queue.jobs && other < w.queue.next && other != id ::
      other in w.queue.jobs && Dispatch(m, id, a, f).queue.jobs[other] == w.queue.jobs[other]
  {
    hide WorldInv, FlowsFor, Handle, Put, Settle, Unit, Flows, MayFollow, CountersKept;
    var key := w.queue.jobs[id].key;
    var st := Executed(m, id, a, f);
    var z := Dispatch(m, id, a, f);
    ExecutedDeaths(m, id, a, f);
    FlowsFrom(m, id, a, f);
    HandleSound(m, id, a, f);
    DispatchOrDies(m, id, a, f);
    SettleShape(m, id, key, st);
    SettledAttempts(m, id, key, st, f);
    JobIdBelow(m, id);
    assert id in m.queue.jobs && IsLive(m.queue.jobs[id]);
    FlagFrom(m, z, id, key, st);
    if st.enq.Some? {
      FollowFrom(m.queue.jobs[id].kind, m.runs[key], st);
      FollowUnit(m.queue.jobs[id].kind, m.runs[key], st.enq.value.kind, st.run, w.runs, z.runs, key);
    }
  }

  lemma FollowFrom(kind: JobKind, before: Run, st: St)
    requires Flows(kind, before, st) && st.enq.Some?
    ensures MayFollow(kind, before, st.enq.value.kind, st.run)
  {
  }

  lemma FlagFrom(m: World, z: World, id: nat, key: RunKey, st: St)
    requires key in m.runs && Sound(m, key, st, if st.status == Threw(Died) then 1 else 0)
    requires Replaced(m, z, id, key, st.enq) && LetGo(z, id, key, st)
    ensures z.runs[key].ctx == st.run.ctx
    ensures m.runs[key].ctx.dorReclarified ==> st.run.ctx.dorReclarified
  {
    hide RunInv, DoneCount;
  }

  lemma SettledAttempts(w: World, id: nat, key: RunKey, st: St, f: Faults)
    requires WorldInv(w) && id in w.queue.jobs && NoDeath(f) && st.status != Threw(Died)
    ensures var z := Settle(Put(w, key, st), id, key, st.status, f);
      && id in z.queue.jobs && z.queue.jobs[id].attempts == w.queue.jobs[id].attempts
      && (z.queue.jobs[id].status.Queued? ==> z.queue.jobs[id].attempts < MAX_JOB_ATTEMPTS)
      && z.queue.next == w.queue.next + (if st.enq.Some? then 1 else 0)
  {
    hide WorldInv, Settle, Put;
    PutKeepsJob(w, key, st, id);
    SettleCounts(Put(w, key, st), id, key, st.status, f);
    PutNext(w, key, st);
  }

  lemma PutNext(w: World, key: RunKey, st: St)
    ensures Put(w, key, st).queue.next == w.queue.next + (if st.enq.Some? then 1 else 0)
  {
  }

  lemma SettleCounts(w: World, id: nat, key: RunKey, status: Status, f: Faults)
    requires id in w.queue.jobs && NoDeath(f) && status != Threw(Died)
    ensures var z := Settle(w, id, key, status, f);
      && z.queue.next == w.queue.next
      && id in z.queue.jobs && z.queue.jobs[id].attempts == w.queue.jobs[id].attempts
      && (z.queue.jobs[id].status.Queued? ==> z.queue.jobs[id].attempts < MAX_JOB_ATTEMPTS)
  {
    hide ComputeBackoffMs, Note;
  }

  lemma AdmitFlag(w: World, job: Job, c: Config, onSubscription: bool)
    ensures var m := Admit(w, job, c, onSubscription, false);
      m.queue == w.queue && Reclarified(m.runs, job.key) == Reclarified(w.runs, job.key)
  {
  }

  lemma ProcessJobWeight(w: World, id: nat, c: Config, onSubscription: bool, a: Answers, f: Faults)
    requires WorldInv(w) && FlowInv(w) && id in w.queue.jobs && Claimable(w.queue.jobs[id], w.now)
    requires NoDeath(f) && Breathing(a)
    ensures Weight(ProcessJob(w, id, c, onSubscription, a, f)) < Weight(w)
  {
    hide WorldInv, FlowsFor, Dispatch, JobFits, Processed, Weight, Admit, WorldKept;
    var job := w.queue.jobs[id];
    assert FlowsFor(w, job.key);
    var claimed := w.(queue := ClaimJob(w.queue, id, w.now));
    var admitted := Admit(claimed, job, c, onSubscription, false);
    var z := ProcessJob(w, id, c, onSubscription, a, f);
    ClaimSafe(w, id);
    ClaimFlow(w, id);
    FitOf(w, id);
    FitOf(claimed, id);
    JobHasRun(w, job);
    AdmitSafe(claimed, job, c, onSubscription, false);
    AdmitFlow(claimed, id, c, onSubscription);
    AdmitSameJob(claimed, id, job, c, onSubscription, false);
    AdmitFlag(claimed, job, c, onSubscription);
    if job.kind.ResumeImplementation? { ExistingAdmitted(claimed, job, c, onSubscription, false); }
    DispatchProcessed(w, admitted, id, a, f);
    ProcessJobSafe(w, id, c, onSubscription, a, f);
    KeptFlags(w.runs, z.runs);
    ProcessedWeight(w, z, id, Executed(admitted, id, a, f).enq);
  }

  // ---- Whole runs of the system ----

  predicate DoesWork(w: World, s: Step) {
    s.Worked? && NextClaimable(w.queue, 0, w.now).Some?
  }

  function JobsProcessed(w: World, steps: seq<Step>, c: Config): nat {
    if steps == [] then 0
    else
      var earlier := steps[..|steps| - 1];
      JobsProcessed(w, earlier, c) + if DoesWork(After(w, earlier, c), steps[|steps| - 1]) then 1 else 0
  }

  function Deliveries(steps: seq<Step>): nat {
    if steps == [] then 0
    else Deliveries(steps[..|steps| - 1]) + if steps[|steps| - 1].Delivered? then 1 else 0
  }

  lemma AddJobWeight(w: World, key: RunKey, kind: JobKind, body: string)
    ensures Weight(AddJob(w, key, kind, body)) <= Weight(w) + DELIVERY_WEIGHT
  {
    var r := AddJob(w, key, kind, body);
    forall other: nat | other < w.queue.next
      ensures Lighter(w.queue.jobs, w.runs, r.queue.jobs, r.runs, other)
    {
    }
    TotalDrops(w.queue.jobs, w.runs, r.queue.jobs, r.runs, w.queue.next, w.queue.next);
    var u := Unit(kind, Reclarified(w.runs, key));
    assert u <= 364;
    assert JobWeight(r.queue.jobs[w.queue.next], r.runs) == 3 * u;
    hide JobWeight;
  }

  lemma SameQueueWeight(w: World, z: World)
    requires z.queue == w.queue && FlagsKept(w.runs, z.runs)
    ensures Weight(z) <= Weight(w)
  {
    hide JobWeight, FlagsKept;
    forall other: nat | other < w.queue.next && other != w.queue.next
      ensures Lighter(w.queue.jobs, w.runs, z.queue.jobs, z.runs, other)
    {
      if other in z.queue.jobs { LighterRuns(z.queue.jobs[other], w.runs, z.runs); }
    }
    TotalDrops(w.queue.jobs, w.runs, z.queue.jobs, z.runs, w.queue.next, w.queue.next);
  }

  lemma ReplyWeight(w: World, key: RunKey, kind: JobKind, body: string)
    requires key in w.runs
    ensures Weight(Reply(w, key, kind, body)) <= Weight(w) + DELIVERY_WEIGHT
  {
    hide Weight;
    var told := w.(runs := w.runs[key := Hear(w.runs[key], body)]);
    SameQueueWeight(w, told);
    AddJobWeight(told, key, kind, body);
  }

  lemma DeliverWeight(w: World, d: Delivery)
    ensures Weight(Deliver(w, d)) <= Weight(w) + DELIVERY_WEIGHT
  {
    hide Weight, Reply, AddJob;
    var marked := w.(processed := w.processed + {d.id});
    SameQueueWeight(w, marked);
    SameQueueWeight(marked, w);
    if Accepted(d) && d.id !in w.processed {
      match d
      case Opened(_, installation, owner, repo, issue) =>
        AddJobWeight(marked, RunKey(installation.value, owner, repo, issue), IssueOpened, "");
      case IssueCommented(_, installation, owner, repo, issue, _, body) =>
        var key := RunKey(installation.value, owner, repo, issue);
        if key in w.runs && GateJob(w.runs[key].state).Some? {
          ReplyWeight(marked, key, GateJob(w.runs[key].state).value, body.GetOr(""));
        }
      case ReviewCommented(_, installation, owner, repo, branch, _, body) =>
        var key := BranchKey(installation.value, owner, repo, Branch.IssueNumberFromBranch(branch).value);
        if key.Some? && key.value in w.runs && w.runs[key.value].state.AwaitingPrReview? {
          ReplyWeight(marked, key.value, Fix, body.GetOr(""));
        }
      case ReviewSubmitted(_, installation, owner, repo, branch, _, body, _) =>
        var key := BranchKey(installation.value, owner, repo, Branch.IssueNumberFromBranch(branch).value);
        if key.Some? && key.value in w.runs && w.runs[key.value].state.AwaitingPrReview? {
          ReplyWeight(marked, key.value, Fix, body.GetOr(""));
        }
      case Uninstalled(_) =>
    }
  }

  // A productive step of the worker lowers the weight, a webhook raises it by a fixed amount at most,
  // and nothing else raises it.
  lemma NextWeight(w: World, s: Step, c: Config)
    requires WorldInv(w) && FlowInv(w) && Survives(s)
    ensures Weight(Next(w, s, c)) + (if DoesWork(w, s) then 1 else 0)
         <= Weight(w) + (if s.Delivered? then DELIVERY_WEIGHT else 0)
  {
    hide WorldInv, FlowInv, ProcessJob, Deliver, Weight, WorldKept;
    match s
    case Delivered(d) => DeliverWeight(w, d);
    case Worked(onSubscription, a, f) =>
      var id := NextClaimable(w.queue, 0, w.now);
      if id.Some? { ProcessJobWeight(w, id.value, c, onSubscription, a, f); }
    case Swept(posts) =>
      SweepSafe(w, posts);
      KeptFlags(w.runs, Sweep(w, posts).runs);
      SameQueueWeight(w, Sweep(w, posts));
    case Waited(ms) =>
      SameQueueWeight(w, Next(w, s, c));
    case Crashed(d) =>
  }

  // However long the system runs, the worker processes a bounded number of jobs for each webhook.
  lemma {:induction false} WorkIsBounded(w: World, steps: seq<Step>, c: Config)
    requires WorldInv(w) && FlowInv(w) && AllSurvive(steps)
    ensures JobsProcessed(w, steps, c) + Weight(After(w, steps, c)) <= Weight(w) + DELIVERY_WEIGHT * Deliveries(steps)
  {
    hide WorldInv, FlowInv, Next, Weight, DoesWork;
    if steps != [] {
      var earlier := steps[..|steps| - 1];
      WorkIsBounded(w, earlier, c);
      AllFlow(w, earlier, c);
      NextWeight(After(w, earlier, c), steps[|steps| - 1], c);
    }
  }

  // With no new webhooks, the queue comes to rest after at most Weight(w) jobs.
  lemma QueueDrains(w: World, steps: seq<Step>, c: Config)
    requires WorldInv(w) && FlowInv(w) && AllSurvive(steps)
    requires forall i | 0 <= i < |steps| :: !steps[i].Delivered?
    ensures JobsProcessed(w, steps, c) <= Weight(w)
  {
    WorkIsBounded(w, steps, c);
    NoDeliveries(steps);
    hide Weight, WorldInv, FlowInv;
  }

  lemma {:induction false} NoDeliveries(steps: seq<Step>)
    requires forall i | 0 <= i < |steps| :: !steps[i].Delivered?
    ensures Deliveries(steps) == 0
  {
    if steps != [] { NoDeliveries(steps[..|steps| - 1]); }
  }

  // ---- The queue empties ----

  // Long enough for any backoff to be over and any lease to expire.
  const PAUSE_MS := MAX_BACKOFF_MS + DEFAULT_JOB_LEASE_MS + 1

  predicate HasLiveJobs(w: World) {
    exists id | id in w.queue.jobs :: IsLive(w.queue.jobs[id])
  }

  // A schedule without webhooks in which the worker works once after each of `n` pauses.
  ghost predicate IsPaced(steps: seq<Step>, n: nat) {
    && |steps| == 2 * n && AllSurvive(steps)
    && forall i | 0 <= i < n ::
         steps[2 * i].Waited? && steps[2 * i].ms >= PAUSE_MS && steps[2 * i + 1].Worked?
  }

  lemma {:induction false} LiveWeighs(jobs: map<nat, Job>, runs: map<RunKey, Run>, id: nat, n: nat)
    requires id in jobs && IsLive(jobs[id]) && id < n
    ensures Total(jobs, runs, n) >= 1
  {
    hide JobWeight;
    if id == n - 1 { LiveHasWeight(jobs[id], runs); } else { LiveWeighs(jobs, runs, id, n - 1); }
  }

  lemma LiveHasWeight(j: Job, runs: map<RunKey, Run>)
    requires IsLive(j)
    ensures JobWeight(j, runs) >= 1
  {
    var u, left := Unit(j.kind, Reclarified(runs, j.key)), AttemptsLeft(j);
    assert u >= 1 && left >= 1;
    assert left * u >= 1;
  }

  // After a pause every live job can be claimed.
  lemma DueAfterPause(w: World, ms: nat, id: nat)
    requires WorldInv(w) && ms >= PAUSE_MS && id in w.queue.jobs && IsLive(w.queue.jobs[id])
    ensures NextClaimable(w.queue, 0, w.now + ms).Some?
  {
    hide RunInv, JobFits, JobCounted, ClaimsApart;
    assert JobTimed(w.queue, id, w.queue.jobs[id], w.now);
    assert Claimable(w.queue.jobs[id], w.now + ms);
    JobIdBelow(w, id);
  }

  // A pause and a step of the worker lower the weight, unless no live job is left.
  lemma PauseWorks(w: World, pause: Step, work: Step, c: Config)
    requires WorldInv(w) && FlowInv(w) && Survives(pause) && Survives(work)
    requires pause.Waited? && pause.ms >= PAUSE_MS && work.Worked?
    ensures var z := Next(Next(w, pause, c), work, c);
      && WorldInv(z) && FlowInv(z)
      && Weight(z) <= Weight(w) && (HasLiveJobs(w) ==> Weight(z) < Weight(w))
  {
    hide WorldInv, FlowInv, ProcessNextJob, Weight, NextClaimable;
    var rested := Next(w, pause, c);
    NextSafe(w, pause, c);
    NextAllFlow(w, pause, c);
    NextWeight(w, pause, c);
    if HasLiveJobs(w) {
      var id :| id in w.queue.jobs && IsLive(w.queue.jobs[id]);
      DueAfterPause(w, pause.ms, id);
    }
    NextSafe(rested, work, c);
    NextAllFlow(rested, work, c);
    NextWeight(rested, work, c);
  }

  lemma {:induction false} DeadWeighsNothing(jobs: map<nat, Job>, runs: map<RunKey, Run>, n: nat)
    requires forall id | id in jobs :: !IsLive(jobs[id])
    ensures Total(jobs, runs, n) == 0
  {
    if n > 0 { DeadWeighsNothing(jobs, runs, n - 1); }
  }

  // The queue weighs nothing exactly if no live job is left.
  lemma WeightlessIff(w: World)
    requires WorldInv(w)
    ensures Weight(w) == 0 <==> !HasLiveJobs(w)
  {
    hide WorldInv;
    if HasLiveJobs(w) {
      var id :| id in w.queue.jobs && IsLive(w.queue.jobs[id]);
      JobIdBelow(w, id);
      LiveWeighs(w.queue.jobs, w.runs, id, w.queue.next);
    } else {
      DeadWeighsNothing(w.queue.jobs, w.runs, w.queue.next);
    }
  }

  lemma LastTwo(w: World, steps: seq<Step>, n: nat, c: Config)
    requires n > 0 && |steps| == 2 * n
    ensures After(w, steps, c) == Next(Next(After(w, steps[..2 * n - 2], c), steps[2 * n - 2], c), steps[2 * n - 1], c)
  {
    hide Next;
    assert steps[..2 * n - 1][..2 * n - 2] == steps[..2 * n - 2];
  }

  lemma PacedBefore(steps: seq<Step>, n: nat)
    requires n > 0 && IsPaced(steps, n)
    ensures IsPaced(steps[..2 * n - 2], n - 1)
    ensures Survives(steps[2 * n - 2]) && steps[2 * n - 2].Waited? && steps[2 * n - 2].ms >= PAUSE_MS
    ensures Survives(steps[2 * n - 1]) && steps[2 * n - 1].Worked?
  {
    hide Survives;
    assert steps[2 * (n - 1)].Waited? && steps[2 * (n - 1) + 1].Worked?;
  }

  lemma {:induction false} PausesDrain(w: World, steps: seq<Step>, n: nat, c: Config)
    requires WorldInv(w) && FlowInv(w) && IsPaced(steps, n)
    ensures var z := After(w, steps, c);
      WorldInv(z) && FlowInv(z) && (Weight(z) + n <= Weight(w) || Weight(z) == 0)
    decreases n
  {
    hide WorldInv, FlowInv, Next, Weight, Survives, IsPaced, HasLiveJobs;
    PacedLength(steps, n);
    if n > 0 {
      var earlier := steps[..2 * n - 2];
      var last := After(w, earlier, c);
      PacedBefore(steps, n);
      PausesDrain(w, earlier, n - 1, c);
      WeightlessIff(last);
      PauseWorks(last, steps[2 * n - 2], steps[2 * n - 1], c);
      LastTwo(w, steps, n, c);
    }
  }

  lemma PacedLength(steps: seq<Step>, n: nat)
    requires IsPaced(steps, n)
    ensures |steps| == 2 * n
  {
  }

  // At a gate, closed, or stuck by a throw in one of the two windows.
  predicate IsAtRest(r: Run) {
    IsGate(r.state) || IsTerminal(r.state) || (IsStranded(r) && IsStuck(r))
  }

  // Without webhooks and deaths, a worker that gets as many turns as the queue weighs, one after each pause,
  // leaves no live job. Then every run is at a gate, closed, or lost to one of the two windows.
  lemma QueueEmpties(w: World, steps: seq<Step>, n: nat, c: Config)
    requires ReachableAlive(w) && IsPaced(steps, n) && n >= Weight(w)
    ensures var z := After(w, steps, c);
      && !HasLiveJobs(z)
      && forall key | key in z.runs :: IsAtRest(z.runs[key])
  {
    hide ReachableAlive, WorldInv, FlowsFor, After, Weight, IsPaced, IsAtRest;
    AliveFlows(w);
    PausesDrain(w, steps, n, c);
    var z := After(w, steps, c);
    WeightlessIff(z);
    forall key | key in z.runs
      ensures IsAtRest(z.runs[key])
    {
      assert FlowsFor(z, key);
      RestsServed(z, key);
    }
  }

  // A run that has all it needs to go on, and no job, waits for none.
  lemma RestsServed(w: World, key: RunKey)
    requires FlowsFor(w, key) && key in w.runs && !HasLiveJobs(w)
    ensures IsAtRest(w.runs[key])
  {
    hide Drafted, DraftedOnce, Unharmed, Watch;
  }
}
