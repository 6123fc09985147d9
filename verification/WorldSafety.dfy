// What every reachable state of the system keeps, whatever is delivered, thrown or killed.
module WorldSafety {
  import opened Wrappers
  import opened Pipeline
  import opened Plan
  import opened RunInvariant
  import opened Steps
  import opened HandlerSpec
  import opened RunSafety
  import opened RunProgress
  import opened JobQueue
  import opened Orchestration

  // A live job may be run against what the store holds for its issue.
  predicate JobFits(runs: map<RunKey, Run>, j: Job) {
    IsLive(j) && !j.kind.IssueOpened? ==>
      j.key in runs && Ready(j.kind, runs[j.key]) && Voiced(j.kind, j.body, runs[j.key])
  }

  ghost predicate RunsListed(w: World) {
    && (forall k :: k in w.runs <==> k in w.order)
    && (forall i, j | 0 <= i < j < |w.order| :: w.order[i] != w.order[j])
  }

  ghost predicate JobsFit(w: World) {
    forall id | id in w.queue.jobs :: JobFits(w.runs, w.queue.jobs[id])
  }

  // Everything holds, but that the worker may have died owing the run `key` a count.
  ghost predicate WorldInvBut(w: World, key: RunKey, owed: nat) {
    && QueueInv(w.queue, w.now)
    && RunsListed(w)
    && JobsFit(w)
    && forall k | k in w.runs :: RunInv(w.runs[k], w.nextTask, if k == key then owed else 0)
  }

  ghost predicate WorldInv(w: World) {
    && QueueInv(w.queue, w.now)
    && RunsListed(w)
    && JobsFit(w)
    && forall k | k in w.runs :: RunInv(w.runs[k], w.nextTask, 0)
  }

  lemma NoDebt(w: World, key: RunKey)
    ensures WorldInv(w) <==> WorldInvBut(w, key, 0)
  {
    hide QueueInv, RunsListed, JobsFit, RunInv;
  }

  // No run is lost and no counter of any run goes back.
  ghost predicate WorldKept(before: map<RunKey, Run>, after: map<RunKey, Run>) {
    forall k | k in before :: k in after && CountersKept(before[k], after[k])
  }

  lemma SameKept(r: Run)
    ensures CountersKept(r, r)
  {
    QuietKeeps(r, r);
  }

  lemma FitsKept(before: map<RunKey, Run>, after: map<RunKey, Run>, j: Job)
    requires WorldKept(before, after) && JobFits(before, j)
    ensures JobFits(after, j)
  {
  }

  // Replacing one run by a successor keeps every job fitting.
  lemma ReplaceKept(runs: map<RunKey, Run>, key: RunKey, run: Run)
    requires key in runs ==> CountersKept(runs[key], run)
    ensures WorldKept(runs, runs[key := run])
  {
    hide CountersKept;
    forall k | k in runs ensures CountersKept(runs[k], runs[key := run][k]) {
      if k != key { SameKept(runs[k]); }
    }
  }

  lemma WorldKeptSame(runs: map<RunKey, Run>)
    ensures WorldKept(runs, runs)
  {
    hide CountersKept;
    forall k | k in runs ensures CountersKept(runs[k], runs[k]) { SameKept(runs[k]); }
  }

  lemma WorldKeptTransitive(a: map<RunKey, Run>, b: map<RunKey, Run>, c: map<RunKey, Run>)
    requires WorldKept(a, b) && WorldKept(b, c)
    ensures WorldKept(a, c)
  {
    hide CountersKept;
    forall k | k in a ensures CountersKept(a[k], c[k]) { CountersKeptTransitive(a[k], b[k], c[k]); }
  }

  lemma RunInvLater(r: Run, next: nat, later: nat, owed: nat)
    requires RunInv(r, next, owed) && next <= later
    ensures RunInv(r, later, owed)
  {
    hide MayEnter, Gated, WithinCaps, MoneyAdds, DoneCount, Watch;
  }

  // ---- The parts of one worker step ----

  lemma ClaimSafe(w: World, id: nat)
    requires WorldInv(w) && id in w.queue.jobs && Claimable(w.queue.jobs[id], w.now)
    ensures WorldInv(w.(queue := ClaimJob(w.queue, id, w.now)))
  {
    ClaimKeeps(w.queue, id, w.now);
    hide QueueInv, RunInv, Ready, Voiced;
    assert JobFits(w.runs, w.queue.jobs[id]);
  }

  lemma NewRunInv(now: int, budget: int, next: nat)
    ensures RunInv(NewRun(now, budget), next, 0)
  {
  }

  lemma FindOrCreateSafe(w: World, key: RunKey)
    requires WorldInv(w)
    ensures WorldInv(FindOrCreateRun(w, key))
    ensures WorldKept(w.runs, FindOrCreateRun(w, key).runs)
  {
    NewRunInv(w.now, DEFAULT_RUN_BUDGET_NANO_USD, w.nextTask);
    hide QueueInv, RunInv, CountersKept, NewRun;
    WorldKeptSame(w.runs);
    if key !in w.runs {
      ReplaceKept(w.runs, key, NewRun(w.now, DEFAULT_RUN_BUDGET_NANO_USD));
      JobsFitKept(w, FindOrCreateRun(w, key));
    }
  }

  lemma JobsFitKept(w: World, r: World)
    requires JobsFit(w) && WorldKept(w.runs, r.runs) && r.queue == w.queue
    ensures JobsFit(r)
  {
    hide JobFits, WorldKept;
    forall id | id in r.queue.jobs ensures JobFits(r.runs, r.queue.jobs[id]) {
      FitsKept(w.runs, r.runs, w.queue.jobs[id]);
    }
  }

  lemma AdmitSafe(w: World, job: Job, c: Config, onSubscription: bool, dies: bool)
    requires WorldInv(w)
    ensures WorldInv(Admit(w, job, c, onSubscription, dies))
    ensures WorldKept(w.runs, Admit(w, job, c, onSubscription, dies).runs)
    ensures !job.kind.ResumeImplementation? ==> job.key in Admit(w, job, c, onSubscription, dies).runs
  {
    hide WorldInv, WorldKept, BirthBudget, NewRun;
    FindOrCreateSafe(w, job.key);
    WorldKeptSame(w.runs);
    if job.kind.IssueOpened? && job.key !in w.runs && !dies {
      var budget := BirthBudget(c, onSubscription);
      BirthSafe(w, job.key, c, onSubscription);
      BudgetIsSet(w, job.key, budget);
    }
  }

  lemma BudgetIsSet(w: World, key: RunKey, budget: int)
    requires key !in w.runs
    ensures var created := FindOrCreateRun(w, key);
      && created.(runs := created.runs[key := created.runs[key].(budget := budget)])
         == FindOrCreateRun(w, key).(runs := w.runs[key := NewRun(w.now, budget)])
  {
    var created := FindOrCreateRun(w, key);
    assert created.runs[key := created.runs[key].(budget := budget)] == w.runs[key := NewRun(w.now, budget)];
  }

  lemma BirthSafe(w: World, key: RunKey, c: Config, onSubscription: bool)
    requires WorldInv(w) && key !in w.runs
    ensures var budget := BirthBudget(c, onSubscription);
      var r := FindOrCreateRun(w, key).(runs := w.runs[key := NewRun(w.now, budget)]);
      WorldInv(r) && WorldKept(w.runs, r.runs)
  {
    var budget := BirthBudget(c, onSubscription);
    var r := FindOrCreateRun(w, key).(runs := w.runs[key := NewRun(w.now, budget)]);
    NewRunInv(w.now, budget, w.nextTask);
    hide QueueInv, RunInv, CountersKept, NewRun, BirthBudget;
    ReplaceKept(w.runs, key, NewRun(w.now, budget));
    JobsFitKept(w, r);
  }

  // What a handler execution must leave for the store to stay sound.
  predicate Sound(w: World, key: RunKey, st: St, owed: nat)
    requires key in w.runs
  {
    && RunInv(st.run, st.nextTask, owed)
    && st.nextTask >= w.nextTask
    && CountersKept(w.runs[key], st.run)
    && (st.enq.Some? ==> Ready(st.enq.value.kind, st.run) && Voiced(st.enq.value.kind, st.enq.value.body, st.run))
  }

  lemma PutSafe(w: World, key: RunKey, st: St, owed: nat)
    requires WorldInv(w) && key in w.runs && Sound(w, key, st, owed)
    ensures WorldInvBut(Put(w, key, st), key, owed)
    ensures WorldKept(w.runs, Put(w, key, st).runs)
  {
    hide QueueInv, RunInv, CountersKept, Ready, Voiced;
    var put := w.(runs := w.runs[key := st.run], nextTask := st.nextTask);
    ReplaceKept(w.runs, key, st.run);
    JobsFitKept(w, put);
    forall k | k in put.runs ensures RunInv(put.runs[k], st.nextTask, if k == key then owed else 0) {
      if k != key { RunInvLater(w.runs[k], w.nextTask, st.nextTask, 0); }
    }
    if st.enq.Some? { AddJobSafe(put, key, st.enq.value.kind, st.enq.value.body, key, owed); }
  }

  lemma AddJobSafe(w: World, key: RunKey, kind: JobKind, body: string, debtor: RunKey, owed: nat)
    requires WorldInvBut(w, debtor, owed)
    requires kind.IssueOpened? || (key in w.runs && Ready(kind, w.runs[key]) && Voiced(kind, body, w.runs[key]))
    ensures WorldInvBut(AddJob(w, key, kind, body), debtor, owed)
  {
    hide QueueInv, RunInv, Ready, Voiced;
    EnqueueKeeps(w.queue, key, kind, body, w.now);
  }

  lemma LeavesSound(kind: JobKind, body: string, st: St, r: St, owed: nat)
    requires Leaves(kind, st, r) && Relays(kind, body, r) && Voiced(kind, body, st.run)
    requires RunInv(r.run, r.nextTask, owed)
    ensures r.nextTask >= st.nextTask && CountersKept(st.run, r.run)
    ensures r.enq.Some? ==> Ready(r.enq.value.kind, r.run) && Voiced(r.enq.value.kind, r.enq.value.body, r.run)
  {
    hide RunInv, Ready, TasksKept, HelpKept;
  }

  lemma FitsItsRun(w: World, id: nat)
    requires WorldInv(w) && id in w.queue.jobs && IsLive(w.queue.jobs[id]) && w.queue.jobs[id].key in w.runs
    ensures var job := w.queue.jobs[id];
      && Ready(job.kind, w.runs[job.key]) && Voiced(job.kind, job.body, w.runs[job.key])
      && RunInv(w.runs[job.key], w.nextTask, 0)
  {
    hide QueueInv, RunInv, RunsListed;
    assert JobFits(w.runs, w.queue.jobs[id]);
  }

  lemma HandleSound(w: World, id: nat, a: Answers, f: Faults)
    requires WorldInv(w) && id in w.queue.jobs && IsLive(w.queue.jobs[id]) && w.queue.jobs[id].key in w.runs
    ensures var job := w.queue.jobs[id];
      var r := Handle(job.kind, job.body, Open(w, job.key), a, f);
      Sound(w, job.key, r, if r.status == Threw(Died) then 1 else 0) && !r.status.Returned?
  {
    hide WorldInv, RunInv, Handle, CountersKept, Ready, Voiced, Leaves, Relays, Served, Drafting;
    var job := w.queue.jobs[id];
    var st := Open(w, job.key);
    FitsItsRun(w, id);
    HandleSafe(job.kind, job.body, st, a, f);
    HandleProgress(job.kind, job.body, st, a, f);
    var r := Handle(job.kind, job.body, st, a, f);
    LeavesSound(job.kind, job.body, st, r, if r.status == Threw(Died) then 1 else 0);
  }

  // ---- Settling a job ----

  lemma DeathNoted(r: Run, next: nat, owed: nat)
    requires RunInv(r, next, owed) && owed <= 1
    ensures RunInv(Note(r, WorkerDied), next, 0)
    ensures CountersKept(r, Note(r, WorkerDied))
  {
    hide Watch, DoneCount, Sum, ParsePlanDecision;
    assert HelpIsCurrent(Note(r, WorkerDied)) == HelpIsCurrent(r);
    QuietKeeps(r, Note(r, WorkerDied));
  }

  lemma ClosedKeeps(r: Run, now: int, next: nat)
    requires RunInv(r, next, 0)
    ensures RunInv(r.(state := Failed, updatedAt := now), next, 0)
    ensures CountersKept(r, r.(state := Failed, updatedAt := now))
  {
    var closed := r.(state := Failed, updatedAt := now);
    hide Watch, DoneCount, Sum, ParsePlanDecision;
    assert HelpIsCurrent(closed) == HelpIsCurrent(r);
    QuietKeeps(r, closed);
  }

  // One run replaced by a successor that keeps its invariant.
  lemma ReplaceSafe(w: World, key: RunKey, run: Run, owed: nat)
    requires WorldInvBut(w, key, owed) && key in w.runs
    requires RunInv(run, w.nextTask, 0) && CountersKept(w.runs[key], run)
    ensures WorldInv(w.(runs := w.runs[key := run]))
    ensures WorldKept(w.runs, w.runs[key := run])
  {
    hide QueueInv, RunInv, CountersKept;
    ReplaceKept(w.runs, key, run);
    JobsFitKept(w, w.(runs := w.runs[key := run]));
  }

  lemma DieSafe(w: World, key: RunKey, owed: nat)
    requires WorldInvBut(w, key, owed) && owed <= 1
    ensures WorldInv(Die(w, key)) && WorldKept(w.runs, Die(w, key).runs)
  {
    hide QueueInv, RunInv, RunsListed, JobsFit, WorldKept, CountersKept, Note;
    WorldKeptSame(w.runs);
    var counted := w.(deaths := w.deaths + multiset{key});
    DeathsSafe(w, key, owed);
    if key in w.runs {
      DeathNoted(w.runs[key], w.nextTask, owed);
      ReplaceSafe(counted, key, Note(w.runs[key], WorkerDied), owed);
    }
  }

  lemma DeathsSafe(w: World, key: RunKey, owed: nat)
    requires WorldInvBut(w, key, owed)
    ensures WorldInvBut(w.(deaths := w.deaths + multiset{key}), key, owed)
  {
    hide QueueInv, RunInv, JobFits;
  }

  lemma CloseRunSafe(w: World, key: RunKey)
    requires WorldInv(w)
    ensures WorldInv(CloseRun(w, key)) && WorldKept(w.runs, CloseRun(w, key).runs)
  {
    WorldKeptSame(w.runs);
    hide QueueInv, RunInv, CountersKept;
    if key in w.runs {
      ClosedKeeps(w.runs[key], w.now, w.nextTask);
      ReplaceSafe(w, key, w.runs[key].(state := Failed, updatedAt := w.now), 0);
    }
  }

  lemma FinishSafe(w: World, id: nat)
    requires WorldInv(w) && id in w.queue.jobs
    ensures WorldInv(Finish(w, id))
  {
    DoneKeeps(w.queue, id, w.now);
    hide QueueInv, RunInv, Ready, Voiced;
  }

  lemma FinishKeepsRuns(w: World, id: nat)
    requires id in w.queue.jobs
    ensures Finish(w, id).runs == w.runs
  {
  }

  lemma RefuseSafe(w: World, id: nat, key: RunKey, f: Faults)
    requires WorldInv(w) && id in w.queue.jobs
    ensures WorldInv(Refuse(w, id, key, f)) && WorldKept(w.runs, Refuse(w, id, key, f).runs)
  {
    hide WorldInv, WorldInvBut, WorldKept, Die;
    var closed := CloseRun(w, key);
    assert closed.queue == w.queue;
    hide CloseRun;
    CloseRunSafe(w, key);
    NoDebt(closed, key);
    DieSafe(closed, key, 0);
    FinishSafe(closed, id);
    WorldKeptTransitive(w.runs, closed.runs, Die(closed, key).runs);
  }

  lemma RetrySafe(w: World, id: nat)
    requires WorldInv(w) && id in w.queue.jobs && w.queue.jobs[id].status.InProgress?
    ensures WorldInv(w.(queue := FailOrRetryJob(w.queue, id, w.now)))
  {
    RetryKeeps(w.queue, id, w.now);
    assert JobFits(w.runs, w.queue.jobs[id]);
    hide QueueInv, RunInv, Ready, Voiced;
  }

  lemma RetryOrBurySafe(w: World, id: nat, key: RunKey, f: Faults)
    requires WorldInv(w) && id in w.queue.jobs && w.queue.jobs[id].status.InProgress?
    ensures WorldInv(RetryOrBury(w, id, key, f)) && WorldKept(w.runs, RetryOrBury(w, id, key, f).runs)
  {
    hide WorldInv, WorldInvBut, WorldKept, CloseRun, Die;
    var retried := w.(queue := FailOrRetryJob(w.queue, id, w.now));
    RetrySafe(w, id);
    NoDebt(retried, key);
    DieSafe(retried, key, 0);
    CloseRunSafe(retried, key);
    WorldKeptSame(w.runs);
  }

  lemma SettleSafe(w: World, id: nat, key: RunKey, status: Status, f: Faults)
    requires WorldInvBut(w, key, if status == Threw(Died) then 1 else 0)
    requires id in w.queue.jobs && w.queue.jobs[id].status.InProgress?
    ensures WorldInv(Settle(w, id, key, status, f)) && WorldKept(w.runs, Settle(w, id, key, status, f).runs)
  {
    hide WorldInv, WorldInvBut, WorldKept, Die, Finish, Refuse, RetryOrBury;
    WorldKeptSame(w.runs);
    DieSafe(w, key, if status == Threw(Died) then 1 else 0);
    if status != Threw(Died) && f(At(91)) != Some(Died) {
      NoDebt(w, key);
      FinishSafe(w, id);
      assert Finish(w, id).runs == w.runs by { FinishKeepsRuns(w, id); }
      RefuseSafe(w, id, key, f);
      RetryOrBurySafe(w, id, key, f);
    }
  }

  lemma PutKeepsJob(w: World, key: RunKey, st: St, id: nat)
    requires WorldInv(w) && id in w.queue.jobs
    ensures id in Put(w, key, st).queue.jobs && Put(w, key, st).queue.jobs[id] == w.queue.jobs[id]
  {
    hide RunInv, JobFits, JobCounted, JobTimed, ClaimsApart;
  }

  lemma DispatchSafe(w: World, id: nat, a: Answers, f: Faults)
    requires WorldInv(w) && id in w.queue.jobs && w.queue.jobs[id].status.InProgress? && w.queue.jobs[id].key in w.runs
    ensures WorldInv(Dispatch(w, id, a, f)) && WorldKept(w.runs, Dispatch(w, id, a, f).runs)
  {
    hide WorldInv, WorldInvBut, Sound, WorldKept, Handle, Put, Settle;
    var job := w.queue.jobs[id];
    var r := Handle(job.kind, job.body, Open(w, job.key), a, f);
    HandleSound(w, id, a, f);
    PutSafe(w, job.key, r, if r.status == Threw(Died) then 1 else 0);
    var put := Put(w, job.key, r);
    assert id in put.queue.jobs && put.queue.jobs[id] == job by { PutKeepsJob(w, job.key, r, id); }
    SettleSafe(put, id, job.key, r.status, f);
    WorldKeptTransitive(w.runs, put.runs, Settle(put, id, job.key, r.status, f).runs);
  }

  lemma ProcessJobSafe(w: World, id: nat, c: Config, onSubscription: bool, a: Answers, f: Faults)
    requires WorldInv(w) && id in w.queue.jobs && Claimable(w.queue.jobs[id], w.now)
    ensures WorldInv(ProcessJob(w, id, c, onSubscription, a, f))
    ensures WorldKept(w.runs, ProcessJob(w, id, c, onSubscription, a, f).runs)
  {
    hide WorldInv, WorldInvBut, WorldKept, Dispatch, Settle, Die, Admit;
    var job := w.queue.jobs[id];
    var dies := f(At(90)) == Some(Died);
    var claimed := w.(queue := ClaimJob(w.queue, id, w.now));
    ClaimSafe(w, id);
    NoDebt(claimed, job.key);
    DieSafe(claimed, job.key, 0);
    AdmitSafe(claimed, job, c, onSubscription, dies);
    var admitted := Admit(claimed, job, c, onSubscription, dies);
    assert admitted.queue == claimed.queue by { AdmitKeepsQueue(claimed, job, c, onSubscription, dies); }
    NoDebt(admitted, job.key);
    if dies {
      DieSafe(admitted, job.key, 0);
    } else if job.key !in admitted.runs {
      SettleSafe(admitted, id, job.key, Running, f);
    } else {
      DispatchSafe(admitted, id, a, f);
    }
    if f(At(89)) != Some(Died) {
      WorldKeptTransitive(w.runs, admitted.runs, ProcessJob(w, id, c, onSubscription, a, f).runs);
    }
  }

  lemma AdmitKeepsQueue(w: World, job: Job, c: Config, onSubscription: bool, dies: bool)
    ensures Admit(w, job, c, onSubscription, dies).queue == w.queue
  {
    hide BirthBudget, NewRun;
  }

  // ---- Webhooks ----

  lemma HeardMore(r: Run, body: string, next: nat)
    requires RunInv(r, next, 0)
    ensures RunInv(Hear(r, body), next, 0)
    ensures CountersKept(r, Hear(r, body))
  {
    var told := Hear(r, body);
    hide Watch, DoneCount, Sum, ParsePlanDecision;
    assert HelpIsCurrent(told) == HelpIsCurrent(r);
    QuietKeeps(r, told);
  }

  lemma GateRunHasSpec(r: Run, next: nat)
    requires RunInv(r, next, 0) && IsGate(r.state)
    ensures r.hasSpec && r.ctx.specData.Some?
  {
  }

  lemma ReplySafe(w: World, key: RunKey, kind: JobKind, body: string)
    requires WorldInv(w) && key in w.runs && IsGate(w.runs[key].state)
    ensures WorldInv(Reply(w, key, kind, body)) && WorldKept(w.runs, Reply(w, key, kind, body).runs)
  {
    var run := w.runs[key];
    var told := Hear(run, body);
    HeardMore(run, body, w.nextTask);
    GateRunHasSpec(run, w.nextTask);
    hide QueueInv, RunInv, CountersKept;
    ReplaceSafe(w, key, told, 0);
    AddJobSafe(w.(runs := w.runs[key := told]), key, kind, body, key, 0);
  }

  lemma DeliverSafe(w: World, d: Delivery)
    requires WorldInv(w)
    ensures WorldInv(Deliver(w, d)) && WorldKept(w.runs, Deliver(w, d).runs)
  {
    WorldKeptSame(w.runs);
    var marked := w.(processed := w.processed + {d.id});
    if Accepted(d) && d.id !in w.processed {
      match d
      case Opened(_, installation, owner, repo, issue) =>
        var key := RunKey(installation.value, owner, repo, issue);
        AddJobSafe(marked, key, IssueOpened, "", key, 0);
      case IssueCommented(_, installation, owner, repo, issue, _, body) =>
        var key := RunKey(installation.value, owner, repo, issue);
        if key in w.runs && GateJob(w.runs[key].state).Some? {
          ReplySafe(marked, key, GateJob(w.runs[key].state).value, body.GetOr(""));
        }
      case ReviewCommented(_, installation, owner, repo, branch, _, body) =>
        var key := BranchKey(installation.value, owner, repo, Branch.IssueNumberFromBranch(branch).value);
        if key.Some? && key.value in w.runs && w.runs[key.value].state.AwaitingPrReview? {
          ReplySafe(marked, key.value, Fix, body.GetOr(""));
        }
      case ReviewSubmitted(_, installation, owner, repo, branch, _, body, _) =>
        var key := BranchKey(installation.value, owner, repo, Branch.IssueNumberFromBranch(branch).value);
        if key.Some? && key.value in w.runs && w.runs[key.value].state.AwaitingPrReview? {
          ReplySafe(marked, key.value, Fix, body.GetOr(""));
        }
      case Uninstalled(_) =>
    }
    hide QueueInv, RunInv, CountersKept, WorldKept, Reply;
  }

  // ---- The sweep ----

  lemma AbandonKeeps(r: Run, now: int, next: nat)
    requires RunInv(r, next, 0)
    ensures RunInv(Abandon(r, now), next, 0) && CountersKept(r, Abandon(r, now))
  {
    hide Watch, DoneCount, Sum, ParsePlanDecision;
    assert HelpIsCurrent(Abandon(r, now)) == HelpIsCurrent(r);
    QuietKeeps(r, Abandon(r, now));
  }

  lemma PingKeeps(r: Run, now: int, next: nat)
    requires RunInv(r, next, 0) && r.pingedAt.None?
    ensures var pinged := Ping(Note(r, Reminded), now);
      RunInv(pinged, next, 0) && CountersKept(r, pinged)
  {
    var pinged := Ping(Note(r, Reminded), now);
    hide Watch, DoneCount, Sum, ParsePlanDecision;
    assert HelpIsCurrent(pinged) == HelpIsCurrent(r);
    QuietKeeps(r, pinged);
  }

  // A reminder posted and not recorded.
  lemma CutKeeps(r: Run, next: nat)
    requires RunInv(r, next, 0)
    ensures var cut := Note(Note(r, Reminded), SweepDied);
      RunInv(cut, next, 0) && CountersKept(r, cut)
  {
    var cut := Note(Note(r, Reminded), SweepDied);
    hide Watch, DoneCount, Sum, ParsePlanDecision;
    assert HelpIsCurrent(cut) == HelpIsCurrent(r);
    QuietKeeps(r, cut);
  }

  lemma SweptRunKeeps(r: Run, now: int, post: PostOutcome, next: nat)
    requires RunInv(r, next, 0)
    ensures RunInv(SweptRun(r, now, post), next, 0) && CountersKept(r, SweptRun(r, now, post))
  {
    SameKept(r);
    AbandonKeeps(r, now, next);
    if r.pingedAt.None? { PingKeeps(r, now, next); }
    CutKeeps(r, next);
    NoteKeeps(r, SweepDied, next);
    QuietKeeps(r, Note(r, SweepDied));
    hide RunInv, CountersKept, Abandon, Ping, Note;
  }

  lemma SweepSafe(w: World, posts: RunKey -> PostOutcome)
    requires WorldInv(w)
    ensures WorldInv(Sweep(w, posts)) && WorldKept(w.runs, Sweep(w, posts).runs)
  {
    hide RunInv, CountersKept, SweptRun, QueueInv, Outcome;
    var r := Sweep(w, posts);
    forall k | k in w.runs
      ensures RunInv(r.runs[k], r.nextTask, 0) && CountersKept(w.runs[k], r.runs[k])
    {
      SweptRunKeeps(w.runs[k], w.now, Outcome(w, posts, k), w.nextTask);
    }
    JobsFitKept(w, r);
  }

  // ---- Whole runs of the system ----

  lemma NextSafe(w: World, s: Step, c: Config)
    requires WorldInv(w)
    ensures WorldInv(Next(w, s, c)) && WorldKept(w.runs, Next(w, s, c).runs)
  {
    hide WorldInv, WorldKept, ProcessJob, Deliver, Sweep;
    match s
    case Delivered(d) => DeliverSafe(w, d);
    case Worked(onSubscription, a, f) =>
      WorldKeptSame(w.runs);
      var id := NextClaimable(w.queue, 0, w.now);
      if id.Some? { ProcessJobSafe(w, id.value, c, onSubscription, a, f); }
    case Swept(posts) => SweepSafe(w, posts);
    case Waited(ms) =>
      WorldKeptSame(w.runs);
      WaitedSafe(w, ms);
    case Crashed(d) =>
      WorldKeptSame(w.runs);
      MarkedSafe(w, Mark(w, d).processed);
  }

  lemma MarkedSafe(w: World, processed: set<string>)
    requires WorldInv(w)
    ensures WorldInv(w.(processed := processed))
  {
    hide RunInv, QueueInv, JobFits;
  }

  lemma WaitedSafe(w: World, ms: nat)
    requires WorldInv(w)
    ensures WorldInv(w.(now := w.now + ms))
  {
    WaitingKeeps(w.queue, w.now, w.now + ms);
    hide QueueInv, RunInv, JobFits;
  }

  // Every reachable state satisfies the invariant, and every state keeps the counters of every
  // earlier one.
  lemma {:induction false} AlwaysSafe(w: World, steps: seq<Step>, c: Config)
    requires WorldInv(w)
    ensures WorldInv(After(w, steps, c)) && WorldKept(w.runs, After(w, steps, c).runs)
  {
    WorldKeptSame(w.runs);
    if steps != [] {
      var before := After(w, steps[..|steps| - 1], c);
      AlwaysSafe(w, steps[..|steps| - 1], c);
      NextSafe(before, steps[|steps| - 1], c);
      hide WorldInv, WorldKept, Next;
      WorldKeptTransitive(w.runs, before.runs, After(w, steps, c).runs);
    }
  }

  lemma InitialInv(now: int)
    ensures WorldInv(Initial(now))
  {
  }

  lemma ReachableInv(w: World)
    requires Reachable(w)
    ensures WorldInv(w)
  {
    hide WorldInv, After;
    var now, steps, c :| w == After(Initial(now), steps, c);
    InitialInv(now);
    AlwaysSafe(Initial(now), steps, c);
  }
}
