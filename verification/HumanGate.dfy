// What holds of every run in every reachable state, said of its history and of its recorded calls,
// whatever is thrown and wherever the worker dies.
module HumanGate {
  import opened Wrappers
  import opened Pipeline
  import opened Plan
  import opened RunInvariant
  import opened RunProgress
  import opened Steps
  import opened HandlerSpec
  import opened JobQueue
  import opened Orchestration
  import opened WorldSafety
  import opened Locality
  import opened WorldFlow
  import opened Chronicle

  // ---- Reading a history ----

  // `e` happened in `h`, right after `past`.
  predicate Happened(h: History, past: History, e: Event) {
    match h
    case Start => false
    case Then(earlier, last) => (earlier == past && last == e) || Happened(earlier, past, e)
  }

  // The comment that approved the plan now in force, if the last plan put before the gate was approved.
  function ApprovalInForce(h: History): Option<string> {
    match h
    case Start => None
    case Then(_, Approved(body)) => Some(body)
    case Then(_, PlanRecorded(_)) => None
    case Then(past, _) => ApprovalInForce(past)
  }

  // The last plan put before the gate announced a test setup.
  predicate SetupAnnounced(h: History) {
    match h
    case Start => false
    case Then(_, PlanRecorded(consent)) => consent
    case Then(past, _) => SetupAnnounced(past)
  }

  // How many tasks the last decomposition of the plan had.
  function LastDecomposition(h: History): nat {
    match h
    case Start => 0
    case Then(_, Decomposed(tasks)) => tasks
    case Then(past, _) => LastDecomposition(past)
  }

  predicate IsPlanCommit(e: Event) { e.PlanCommitted? }
  predicate IsFixCommit(e: Event) { e.FixCommitted? }
  predicate IsReclarification(e: Event) { e.Reclarified? }
  predicate IsGuidance(e: Event) { e.Guided? }
  predicate IsReminder(e: Event) { e.Reminded? }
  predicate IsPing(e: Event) { e.Pinged? }
  predicate IsSweepDeath(e: Event) { e.SweepDied? }
  predicate IsDeath(e: Event) { e.WorkerDied? }

  function Count(h: History, counted: Event -> bool): nat {
    match h
    case Start => 0
    case Then(past, e) => Count(past, counted) + if counted(e) then 1 else 0
  }

  lemma WatchStep(h: History)
    requires h.Then?
    ensures Watch(h) == Observe(Watch(h.past), h.last)
  {
  }

  // The monitor says of a history what the readings above say.
  lemma {:induction false} MonitorReads(h: History)
    ensures var m := Watch(h);
      && (m.approved <==> ApprovalInForce(h).Some?)
      && (ApprovalInForce(h).Some? ==> ApprovalInForce(h).value in m.approvals)
      && (m.consent <==> SetupAnnounced(h))
  {
    if h.Then? {
      hide Watch, Observe, ApprovalInForce, SetupAnnounced;
      MonitorReads(h.past);
      WatchStep(h);
      ApprovalStep(h);
      ObserveApproval(Watch(h.past), h.last);
    }
  }

  lemma ObserveApproval(m: Monitor, e: Event)
    ensures var n := Observe(m, e);
      && n.approved == (e.Approved? || (m.approved && !e.PlanRecorded?))
      && n.consent == (if e.PlanRecorded? then e.consent else m.consent)
      && n.approvals == m.approvals + (if e.Approved? then {e.body} else {})
  {
    match e
    case PlanRecorded(_) =>
    case Approved(_) =>
    case _ =>
  }

  lemma ApprovalStep(h: History)
    requires h.Then?
    ensures var e := h.last;
      && ApprovalInForce(h) ==
         (if e.Approved? then Some(e.body) else if e.PlanRecorded? then None else ApprovalInForce(h.past))
      && SetupAnnounced(h) == (if e.PlanRecorded? then e.consent else SetupAnnounced(h.past))
  {
  }

  lemma ObservePlan(m: Monitor, e: Event)
    ensures var n := Observe(m, e);
      && n.planned == (if e.Decomposed? then e.tasks else m.planned)
      && n.truncated == (m.truncated || (e.PrOpened? && e.recorded != m.planned))
  {
    match e
    case Decomposed(_) =>
    case PrOpened(_, _) =>
    case _ =>
  }

  lemma {:induction false} PlannedReads(h: History)
    ensures Watch(h).planned == LastDecomposition(h)
  {
    if h.Then? {
      hide Watch, Observe;
      PlannedReads(h.past);
      WatchStep(h);
      ObservePlan(Watch(h.past), h.last);
    }
  }

  lemma CountStep(h: History, counted: Event -> bool)
    requires h.Then?
    ensures Count(h, counted) == Count(h.past, counted) + if counted(h.last) then 1 else 0
  {
  }

  lemma ObserveCommits(m: Monitor, e: Event)
    ensures var n := Observe(m, e);
      && n.planCommits == m.planCommits + (if IsPlanCommit(e) then 1 else 0)
      && n.fixCommits == m.fixCommits + (if IsFixCommit(e) then 1 else 0)
      && n.deaths == m.deaths + (if IsDeath(e) then 1 else 0)
  {
    match e
    case PlanCommitted =>
    case FixCommitted =>
    case WorkerDied =>
    case _ =>
  }

  lemma ObserveRounds(m: Monitor, e: Event)
    ensures var n := Observe(m, e);
      && n.reclarified == m.reclarified + (if IsReclarification(e) then 1 else 0)
      && n.guided == m.guided + (if IsGuidance(e) then 1 else 0)
  {
    match e
    case Reclarified =>
    case Guided =>
    case _ =>
  }

  lemma ObserveSweeps(m: Monitor, e: Event)
    ensures var n := Observe(m, e);
      && n.pings == m.pings + (if IsPing(e) then 1 else 0)
      && n.reminders == m.reminders + (if IsReminder(e) then 1 else 0)
      && n.sweepDeaths == m.sweepDeaths + (if IsSweepDeath(e) then 1 else 0)
  {
    match e
    case Reminded =>
    case Pinged =>
    case SweepDied =>
    case _ =>
  }

  lemma {:induction false} CommitsCounted(h: History)
    ensures Watch(h).planCommits == Count(h, IsPlanCommit)
    ensures Watch(h).fixCommits == Count(h, IsFixCommit)
    ensures Watch(h).deaths == Count(h, IsDeath)
  {
    if h.Then? {
      hide Watch, Count, Observe;
      WatchStep(h);
      ObserveCommits(Watch(h.past), h.last);
      CommitsCounted(h.past);
      CountStep(h, IsPlanCommit);
      CountStep(h, IsFixCommit);
      CountStep(h, IsDeath);
    }
  }

  lemma {:induction false} RoundsCounted(h: History)
    ensures Watch(h).reclarified == Count(h, IsReclarification)
    ensures Watch(h).guided == Count(h, IsGuidance)
  {
    if h.Then? {
      hide Watch, Count, Observe;
      WatchStep(h);
      ObserveRounds(Watch(h.past), h.last);
      RoundsCounted(h.past);
      CountStep(h, IsReclarification);
      CountStep(h, IsGuidance);
    }
  }

  lemma {:induction false} SweepsCounted(h: History)
    ensures Watch(h).pings == Count(h, IsPing)
    ensures Watch(h).reminders == Count(h, IsReminder)
    ensures Watch(h).sweepDeaths == Count(h, IsSweepDeath)
  {
    if h.Then? {
      hide Watch, Count, Observe;
      WatchStep(h);
      ObserveSweeps(Watch(h.past), h.last);
      SweepsCounted(h.past);
      CountStep(h, IsPing);
      CountStep(h, IsReminder);
      CountStep(h, IsSweepDeath);
    }
  }

  // What the monitor found sound in the end was sound at every event.
  lemma {:induction false} SoundAll(h: History, past: History, e: Event)
    requires Happened(h, past, e) && Watch(h).sound
    ensures Watch(past).approvals <= Watch(h).approvals
    ensures Observe(Watch(past), e).sound
  {
    var Then(earlier, last) := h;
    hide Watch, Observe;
    WatchStep(h);
    ObserveKeeps(Watch(earlier), last);
    if !(earlier == past && last == e) { SoundAll(earlier, past, e); }
  }

  lemma ObserveKeeps(m: Monitor, e: Event)
    ensures Observe(m, e).sound ==> m.sound
    ensures m.approvals <= Observe(m, e).approvals
  {
    match e
    case Approved(_) =>
    case _ =>
  }

  // A pull request opened over fewer or more tasks than were planned exactly if the monitor says so.
  lemma {:induction false} TruncatedIff(h: History)
    ensures Watch(h).truncated <==>
      exists past, e :: Happened(h, past, e) && e.PrOpened? && e.recorded != LastDecomposition(past)
  {
    if h.Then? {
      TruncatedIff(h.past);
      PlannedReads(h.past);
      assert Happened(h, h.past, h.last);
      hide Watch, Observe, LastDecomposition;
      WatchStep(h);
      ObservePlan(Watch(h.past), h.last);
    }
  }

  lemma ReachableRun(w: World, key: RunKey)
    requires Reachable(w) && key in w.runs
    ensures RunInv(w.runs[key], w.nextTask, 0)
  {
    hide RunInv, Reachable;
    ReachableInv(w);
    RunOk(w, key);
  }

  // ---- The human gate ----

  predicate IsCodeCommit(e: Event) {
    e.SetupCommitted? || e.TaskCommitted? || e.FixCommitted?
  }

  // The comment was told to the run by a human, and commands approval.
  predicate ApprovedBy(r: Run, body: Option<string>) {
    body.Some? && body.value in r.heard && Commands(body.value, "approve")
  }

  // No code reaches the branch but under a human approval of the last plan put before the gate; a test
  // setup only if that plan announced it; and a pull request opens only when every task is done.
  lemma HumanGate(w: World, key: RunKey, past: History, e: Event)
    requires Reachable(w) && key in w.runs && Happened(w.runs[key].history, past, e)
    ensures var r := w.runs[key];
      && (IsCodeCommit(e) ==> ApprovedBy(r, ApprovalInForce(past)))
      && (e.SetupCommitted? ==> SetupAnnounced(past))
      && (e.PrOpened? ==> e.undone == 0)
  {
    hide Reachable, ParsePlanDecision, Commands, MayEnter, WithinCaps, TasksInOrder, MoneyAdds;
    hide Watch, ApprovalInForce, SetupAnnounced;
    var r := w.runs[key];
    ReachableRun(w, key);
    assert Gated(r);
    hide RunInv;
    SoundAll(r.history, past, e);
    MonitorReads(past);
    if ApprovalInForce(past).Some? { DecisionIff(ApprovalInForce(past).value); }
  }

  // ---- Caps ----

  // Every cap holds over the whole life of a run, across retries, resumes and deaths of the worker. What was
  // posted or committed may exceed what was counted by the deaths in between.
  lemma CapsHold(w: World, key: RunKey)
    requires Reachable(w) && key in w.runs
    ensures var r := w.runs[key];
      var h := r.history;
      && Count(h, IsPlanCommit) <= 4
      && r.ctx.fixRounds <= Count(h, IsFixCommit) <= r.ctx.fixRounds + Count(h, IsDeath)
      && r.ctx.fixRounds <= 3
      && Count(h, IsReclarification) <= 1
      && Count(h, IsGuidance) <= 3 * |r.tasks|
      && Count(h, IsPing) <= 1
      && Count(h, IsPing) <= Count(h, IsReminder) <= Count(h, IsPing) + Count(h, IsSweepDeath)
  {
    var r := w.runs[key];
    ReachableRun(w, key);
    CommitsCounted(r.history);
    RoundsCounted(r.history);
    SweepsCounted(r.history);
    hide Reachable, Watch, DoneCount, Count, MayEnter, Gated, MoneyAdds;
  }

  // The worker died over the run exactly if its history says so.
  lemma HurtIff(w: World, key: RunKey)
    ensures Hurt(w, key) <==> key in w.runs && Count(w.runs[key].history, IsDeath) > 0
  {
    if key in w.runs { CommitsCounted(w.runs[key].history); }
    hide Watch, Count;
  }

  // Without a death of the worker, the fix commits of a run are the rounds it counted, and within their cap.
  lemma FixCapHolds(w: World, key: RunKey)
    requires Reachable(w) && key in w.runs && Count(w.runs[key].history, IsDeath) == 0
    ensures Count(w.runs[key].history, IsFixCommit) == w.runs[key].ctx.fixRounds <= 3
  {
    hide Reachable, Count;
    CapsHold(w, key);
  }

  // ---- Tasks ----

  // Tasks are closed in order; at the help gate the recorded help is for the first open one, and a run
  // under review has none open.
  lemma TasksCloseInOrder(w: World, key: RunKey)
    requires Reachable(w) && key in w.runs
    ensures var r := w.runs[key];
      var n := DoneCount(r.tasks);
      && (forall i | 0 <= i < |r.tasks| :: r.tasks[i].status.Done? <==> i < n)
      && (r.state.AwaitingImplHelp? ==>
            n < |r.tasks| && r.ctx.implHelp.Some? && r.ctx.implHelp.value.taskId == r.tasks[n].id)
      && (r.state.Reviewing? || r.state.AwaitingPrReview? ==> n == |r.tasks|)
  {
    ReachableRun(w, key);
    hide Reachable, Watch, Gated, MoneyAdds, WithinCaps;
  }

  // Without a death of the worker over the run, its recorded tasks are the last decomposition of the plan,
  // whole; and every pull request opened over all of it.
  lemma PlanIsRecordedWhole(w: World, key: RunKey)
    requires Reachable(w) && key in w.runs && Count(w.runs[key].history, IsDeath) == 0
    ensures |w.runs[key].tasks| == LastDecomposition(w.runs[key].history)
    ensures forall past, e | Happened(w.runs[key].history, past, e) && e.PrOpened? ::
      e.recorded == LastDecomposition(past) && e.undone == 0
  {
    hide Reachable, WorldInv, Watch, IsServed, Drafted, DraftedOnce, LastDecomposition, Count, Hurt;
    var h := w.runs[key].history;
    HurtIff(w, key);
    ReachableFlows(w, key);
    PlannedReads(h);
    TruncatedIff(h);
    forall past, e | Happened(h, past, e) && e.PrOpened? ensures e.undone == 0 { HumanGate(w, key, past, e); }
  }

  // A list of tasks once begun never gets longer: what a dying worker did not record is never recorded.
  lemma PlanNeverGrows(w: World, later: World, key: RunKey)
    requires Reachable(w) && LeadsTo(w, later) && key in w.runs && w.runs[key].tasks != []
    ensures key in later.runs && |later.runs[key].tasks| == |w.runs[key].tasks|
  {
    hide Reachable, LeadsTo, HelpKept;
    CountersNeverGoBack(w, later, key);
  }

  // ---- Money ----

  lemma {:induction false} SumAtLeast(costs: seq<nat>)
    requires forall i | 0 <= i < |costs| :: costs[i] >= 1
    ensures Sum(costs) >= |costs|
  {
    if costs != [] { SumAtLeast(costs[..|costs| - 1]); }
  }

  // What a run spent is what its calls cost; only its last call may overrun the budget; and so a run
  // whose every call costs something makes no more calls than its budget has units.
  lemma BudgetHolds(w: World, key: RunKey)
    requires Reachable(w) && key in w.runs
    ensures var r := w.runs[key];
      && r.spent == Sum(r.calls)
      && (r.calls != [] ==> Sum(r.calls[..|r.calls| - 1]) < r.budget)
      && ((forall i | 0 <= i < |r.calls| :: r.calls[i] >= 1) ==> r.calls == [] || |r.calls| <= r.budget)
  {
    var r := w.runs[key];
    ReachableRun(w, key);
    hide Reachable, MayEnter, Gated, WithinCaps, TasksInOrder, Sum;
    if r.calls != [] && forall i | 0 <= i < |r.calls| :: r.calls[i] >= 1 {
      SumAtLeast(r.calls[..|r.calls| - 1]);
    }
  }

  // ---- Counters ----

  // No step of the system takes a counter back, forgets an artifact, reopens a closed task or drops a
  // run; help rounds start over only when another task has been closed since.
  lemma CountersNeverGoBack(w: World, later: World, key: RunKey)
    requires Reachable(w) && LeadsTo(w, later) && key in w.runs
    ensures key in later.runs && CountersKept(w.runs[key], later.runs[key])
  {
    hide Reachable, After, WorldInv, CountersKept;
    ReachableInv(w);
    var steps, c :| later == After(w, steps, c);
    AlwaysSafe(w, steps, c);
  }

  // The ceiling a run is given in the step that creates it, and with `CountersNeverGoBack` for good: its
  // installation's own on a subscription, where there is one, otherwise the deployment's, otherwise the
  // default, which is also what a death right after the creation leaves.
  lemma CeilingIsSetOnce(w: World, id: nat, c: Config, onSubscription: bool, a: Answers, f: Faults)
    requires WorldInv(w) && id in w.queue.jobs && Claimable(w.queue.jobs[id], w.now) && w.queue.jobs[id].key !in w.runs
    ensures var key := w.queue.jobs[id].key;
      var z := ProcessJob(w, id, c, onSubscription, a, f);
      var ceiling :=
        if f(At(90)) == Some(Died) then DEFAULT_RUN_BUDGET_NANO_USD
        else if onSubscription && c.subscriptionRunBudget.Some? then c.subscriptionRunBudget.value
        else if c.runBudget.Some? then c.runBudget.value
        else DEFAULT_RUN_BUDGET_NANO_USD;
      key in z.runs ==> z.runs[key].budget == ceiling
  {
    hide WorldInv, JobFits, Dispatch, Die, Admit, HelpKept, TasksKept;
    var job := w.queue.jobs[id];
    var claimed := w.(queue := ClaimJob(w.queue, id, w.now));
    FitOf(w, id);
    JobHasRun(w, job);
    if f(At(89)) == Some(Died) {
      NoRunDies(claimed, job.key);
    } else {
      var dies := f(At(90)) == Some(Died);
      ClaimSafe(w, id);
      AdmitSafe(claimed, job, c, onSubscription, dies);
      AdmitKeepsQueue(claimed, job, c, onSubscription, dies);
      AdmittedCeiling(claimed, job, c, onSubscription, dies);
      var admitted := Admit(claimed, job, c, onSubscription, dies);
      if dies {
        DieKeepsBudget(admitted, job.key);
      } else {
        DispatchSafe(admitted, id, a, f);
      }
    }
  }

  lemma AdmittedCeiling(w: World, job: Job, c: Config, onSubscription: bool, dies: bool)
    requires job.kind.IssueOpened? && job.key !in w.runs
    ensures var r := Admit(w, job, c, onSubscription, dies);
      && job.key in r.runs
      && r.runs[job.key].budget == if dies then DEFAULT_RUN_BUDGET_NANO_USD else BirthBudget(c, onSubscription)
  {
  }

  lemma DieKeepsBudget(w: World, key: RunKey)
    requires key in w.runs
    ensures Die(w, key).runs[key].budget == w.runs[key].budget
  {
  }
}
