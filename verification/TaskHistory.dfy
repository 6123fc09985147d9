// What stands behind a closed task: a commit made for it, or an attempt that found it satisfied.
module TaskHistory {
  import opened Wrappers
  import opened Pipeline
  import opened Plan
  import opened RunInvariant
  import opened Steps
  import opened HandlerSpec
  import opened RunSafety
  import opened RunProgress
  import opened JobQueue
  import opened Orchestration
  import opened WorldSafety
  import opened Locality
  import opened WorldFlow
  import opened HumanGate
  import opened Branch
  import opened QueueSafety
  import opened Chronicle
  import opened PlanGate

  predicate AccountsFor(e: Event, id: nat) {
    e == TaskCommitted(id) || e == FoundSatisfied(id)
  }

  // The history holds a commit for the task, or an attempt that found it satisfied.
  predicate IsAccounted(h: History, id: nat) {
    h.Then? && (AccountsFor(h.last, id) || IsAccounted(h.past, id))
  }

  ghost predicate HasAccount(h: History, id: nat) {
    exists past, e :: Happened(h, past, e) && AccountsFor(e, id)
  }

  lemma {:induction false} AccountedIff(h: History, id: nat)
    ensures IsAccounted(h, id) <==> HasAccount(h, id)
  {
    if h.Then? {
      AccountedIff(h.past, id);
      if AccountsFor(h.last, id) { assert Happened(h, h.past, h.last); }
      if HasAccount(h.past, id) {
        var past, e :| Happened(h.past, past, e) && AccountsFor(e, id);
        assert Happened(h, past, e);
      }
      if HasAccount(h, id) && !AccountsFor(h.last, id) {
        var past, e :| Happened(h, past, e) && AccountsFor(e, id);
        assert Happened(h.past, past, e);
      }
    }
  }

  // Every closed task is accounted for.
  predicate ClosedAccounted(h: History, tasks: seq<Task>) {
    forall i | 0 <= i < |tasks| && tasks[i].status.Done? :: IsAccounted(h, tasks[i].id)
  }

  // At every pull request, each of the tasks recorded by then was accounted for.
  predicate PullsAccounted(h: History, tasks: seq<Task>) {
    match h
    case Start => true
    case Then(past, PrOpened(_, recorded)) =>
      recorded <= |tasks| && (forall i | 0 <= i < recorded :: IsAccounted(past, tasks[i].id)) && PullsAccounted(past, tasks)
    case Then(past, _) => PullsAccounted(past, tasks)
  }

  predicate Accounted(r: Run) {
    ClosedAccounted(r.history, r.tasks) && PullsAccounted(r.history, r.tasks)
  }

  // ---- Histories that grow ----

  lemma {:induction false} AccountedLater(h: History, g: History, s: Scope, id: nat)
    requires Adds(h, g, s) && IsAccounted(h, id)
    ensures IsAccounted(g, id)
  {
    if h != g { AccountedLater(h, g.past, s, id); }
  }

  lemma {:induction false} PullsKept(h: History, g: History, s: Scope, tasks: seq<Task>)
    requires Adds(h, g, s) && !s.pulls && PullsAccounted(h, tasks)
    ensures PullsAccounted(g, tasks)
  {
    if h != g { PullsKept(h, g.past, s, tasks); }
  }

  lemma AccountedOn(before: Run, after: Run, s: Scope)
    requires Accounted(before) && Adds(before.history, after.history, s) && !s.pulls && after.tasks == before.tasks
    ensures Accounted(after)
  {
    hide Adds, IsAccounted, PullsAccounted;
    PullsKept(before.history, after.history, s, before.tasks);
    forall i | 0 <= i < |after.tasks| && after.tasks[i].status.Done? ensures IsAccounted(after.history, after.tasks[i].id) {
      AccountedLater(before.history, after.history, s, after.tasks[i].id);
    }
  }

  // Which tasks there are, whatever became of them.
  predicate SameIds(a: seq<Task>, b: seq<Task>) {
    |a| == |b| && forall i | 0 <= i < |a| :: a[i].id == b[i].id
  }

  lemma {:induction false} PullsSameIds(h: History, a: seq<Task>, b: seq<Task>)
    requires PullsAccounted(h, a) && (SameIds(a, b) || a == [])
    ensures PullsAccounted(h, b)
  {
    if h.Then? { PullsSameIds(h.past, a, b); }
  }

  // ---- The implement handler ----

  lemma ParkStalledAccounts(st: St, i: nat, f: Faults)
    requires i < |st.run.tasks| && Accounted(st.run)
    ensures Accounted(ParkStalled(st, i, f).run)
  {
    hide Ok, Watch, Adds, UpdateTask, SetContext, Post, SetState, ReturnEarly, MayEnter, DoneCount;
    hide IsAccounted, PullsAccounted;
    var r := ParkStalled(st, i, f);
    Unchanged(st.run.history, BARE);
    ParkStalledAdds(st.run.history, st, i, f, BARE);
    AccountedOn(st.run, st.run.(history := r.run.history), BARE);
    assert SameIds(st.run.tasks, r.run.tasks);
    PullsSameIds(r.run.history, st.run.tasks, r.run.tasks);
  }

  // A task that is accounted for may be closed.
  lemma CloseAccounts(st: St, i: nat, f: Faults, at: Site, clear: Site)
    requires i < |st.run.tasks| && Accounted(st.run) && (Live(st) ==> IsAccounted(st.run.history, st.run.tasks[i].id))
    ensures Accounted(ClearHelp(UpdateTask(st, i, Done, f, at), st.run.tasks[i].id, f, clear).run)
  {
    hide Ok, Watch, UpdateTask, ClearHelp, DoneCount, IsAccounted, PullsAccounted;
    var r := ClearHelp(UpdateTask(st, i, Done, f, at), st.run.tasks[i].id, f, clear);
    assert SameIds(st.run.tasks, r.run.tasks);
    PullsSameIds(r.run.history, st.run.tasks, r.run.tasks);
  }

  lemma JustAccounted(r: Run, e: Event, id: nat)
    requires Accounted(r) && AccountsFor(e, id)
    ensures Accounted(Note(r, e)) && IsAccounted(Note(r, e).history, id)
  {
    Unchanged(r.history, CODING);
    AccountedOn(r, Note(r, e), CODING);
  }

  lemma LandedAccounts(st: St, i: nat, f: Faults)
    requires i < |st.run.tasks| && Accounted(st.run)
    ensures var taskId := st.run.tasks[i].id;
      var committed := Effect(Call(st, f, Turn(i, 9)), TaskCommitted(taskId), f, Turn(i, 10));
      Accounted(ClearHelp(UpdateTask(committed, i, Done, f, Turn(i, 11)), taskId, f, Turn(i, 12)).run)
  {
    hide Ok, Watch, Note, Call, Effect, UpdateTask, ClearHelp, DoneCount, Accounted, IsAccounted;
    var taskId := st.run.tasks[i].id;
    var committed := Effect(Call(st, f, Turn(i, 9)), TaskCommitted(taskId), f, Turn(i, 10));
    JustAccounted(st.run, TaskCommitted(taskId), taskId);
    CloseAccounts(committed, i, f, Turn(i, 11), Turn(i, 12));
  }

  lemma SatisfiedAccounts(st: St, i: nat, f: Faults)
    requires i < |st.run.tasks| && Accounted(st.run)
    ensures var taskId := st.run.tasks[i].id;
      Accounted(ClearHelp(UpdateTask(NoteStep(st, FoundSatisfied(taskId)), i, Done, f, Turn(i, 7)), taskId, f, Turn(i, 8)).run)
  {
    hide Ok, Watch, Note, NoteStep, UpdateTask, ClearHelp, DoneCount, Accounted, IsAccounted;
    var taskId := st.run.tasks[i].id;
    JustAccounted(st.run, FoundSatisfied(taskId), taskId);
    CloseAccounts(NoteStep(st, FoundSatisfied(taskId)), i, f, Turn(i, 7), Turn(i, 8));
  }

  lemma TaskTurnAccounts(st: St, i: nat, a: Answers, f: Faults)
    requires i < |st.run.tasks| && Accounted(st.run)
    ensures Accounted(TaskTurn(st, i, a, f).run)
  {
    hide Ok, Watch, Adds, RunTdd, ParkStalled, UpdateTask, ClearHelp, Call, Effect, NoteStep, CloseWith, ReturnEarly;
    hide SameMarks, DoneCount, ClosedAccounted, PullsAccounted;
    if Exhausted(st.run) {
      Unchanged(st.run.history, BARE);
      CloseAdds(st.run.history, st, Failed, f, Turn(i, 0), Turn(i, 1), BARE);
      AccountedOn(st.run, TaskTurn(st, i, a, f).run, BARE);
    } else {
      var st1 := RunTdd(st, a.tdd(i));
      ParkStalledAccounts(st1, i, f);
      SatisfiedAccounts(st1, i, f);
      LandedAccounts(st1, i, f);
    }
  }

  lemma {:induction false} TaskLoopAccounts(st: St, i: nat, a: Answers, f: Faults)
    requires i <= |st.run.tasks| && Accounted(st.run)
    ensures Accounted(TaskLoop(st, i, a, f).run)
    decreases |st.run.tasks| - i
  {
    hide TaskTurn, Accounted;
    if i < |st.run.tasks| && Live(st) {
      if st.run.tasks[i].status.Done? {
        TaskLoopAccounts(st, i + 1, a, f);
      } else {
        TaskTurnAccounts(st, i, a, f);
        TurnKeepsCount(st, i, a, f);
        TaskLoopAccounts(TaskTurn(st, i, a, f), i + 1, a, f);
      }
    }
  }

  lemma {:induction false} RecordedPending(st: St, n: nat, f: Faults)
    ensures forall i | |st.run.tasks| <= i < |RecordTasks(st, n, f).run.tasks| :: RecordTasks(st, n, f).run.tasks[i].status.Pending?
    decreases n
  {
    hide Ok, Watch;
    if n > 0 && Live(Tolerate(st, f, Record(n))) {
      RecordedPending(RecordTask(Tolerate(st, f, Record(n))), n - 1, f);
    }
  }

  lemma DecomposeAccounts(st: St, a: Answers, f: Faults)
    requires Accounted(st.run)
    ensures Accounted(DecomposeStep(st, a, f).run)
  {
    hide Ok, Watch, Ask, NoteStep, RecordTasks, Adds, IsAccounted, PullsAccounted;
    var r := DecomposeStep(st, a, f);
    if |st.run.tasks| == 0 {
      Unchanged(st.run.history, BARE);
      DecomposeAdds(st.run.history, st, a, f, BARE);
      PullsKept(st.run.history, r.run.history, BARE, st.run.tasks);
      PullsSameIds(r.run.history, st.run.tasks, r.run.tasks);
      RecordedPending(NoteStep(Ask(st, a.agent, f, At(8)), Decomposed(a.taskCount)), a.taskCount, f);
    }
  }

  lemma ImplementBodyAccounts(st: St, a: Answers, f: Faults)
    requires Accounted(st.run)
    ensures Accounted(ImplementBody(st, a, f).run)
  {
    hide Ok, Watch, Adds, BootstrapStep, DecomposeStep, TaskLoop, Call, HandToReview, Accounted;
    var st7 := BootstrapStep(st, a, f);
    Unchanged(st.run.history, FIXING);
    BootstrapAdds(st.run.history, st, a, f, FIXING);
    BootstrapKeepsTasks(st, a, f);
    AccountedOn(st.run, st7.run, FIXING);
    DecomposeAccounts(st7, a, f);
    var st9 := Call(if Live(st7) then DecomposeStep(st7, a, f) else st7, f, At(9));
    TaskLoopAccounts(st9, 0, a, f);
    HandOnAccounts(TaskLoop(st9, 0, a, f), f);
  }

  lemma HandOnAccounts(st: St, f: Faults)
    requires Accounted(st.run)
    ensures Accounted(HandToReview(st, f).run)
  {
    hide Ok, Watch, Adds, Post, SetState, Enqueue, MayEnter, Accounted;
    Unchanged(st.run.history, BARE);
    HandToReviewAdds(st.run.history, st, f, BARE);
    AccountedOn(st.run, HandToReview(st, f).run, BARE);
  }

  lemma BudgetAccounts(st: St, f: Faults, post: Site, close: Site)
    requires Accounted(st.run)
    ensures Accounted(OnBudget(st, f, post, close).run)
  {
    hide Ok, Watch, Adds, OnBudget, CloseWith, SameMarks, Accounted;
    Unchanged(st.run.history, BARE);
    BudgetAdds(st.run.history, st, f, post, close, BARE);
    AccountedOn(st.run, OnBudget(st, f, post, close).run, BARE);
  }

  lemma ImplementAccounts(st: St, a: Answers, f: Faults)
    requires Accounted(st.run)
    ensures Accounted(HandleImplement(st, a, f).run)
  {
    hide Ok, Watch, Call, ImplementBody, OnBudget, Closing, Accounted;
    var st1 := Call(Call(st, f, At(0)), f, At(1));
    ImplementBodyAccounts(st1, a, f);
    BudgetAccounts(ImplementBody(st1, a, f), f, At(13), At(14));
  }

  // ---- The review handler ----

  lemma OpenedAccounts(r: Run)
    requires Accounted(r) && DoneCount(r.tasks) == |r.tasks|
    ensures Accounted(Note(r, PrOpened(|r.tasks| - DoneCount(r.tasks), |r.tasks|)))
  {
    var opening := PrOpened(|r.tasks| - DoneCount(r.tasks), |r.tasks|);
    hide Watch, DoneCount, IsAccounted;
    forall i | 0 <= i < |r.tasks| ensures IsAccounted(Note(r, opening).history, r.tasks[i].id) {
      Unchanged(r.history, REVIEWING);
      AccountedLater(r.history, Note(r, opening).history, REVIEWING, r.tasks[i].id);
    }
  }

  lemma ReviewAccounts(st: St, a: Answers, f: Faults)
    requires Accounted(st.run) && (st.run.state.Reviewing? ==> DoneCount(st.run.tasks) == |st.run.tasks|)
    ensures Accounted(HandleReview(st, a, f).run)
  {
    hide Ok, Watch, Adds, Note, Call, Ask, Effect, Post, SetState, OnBudget, DoneCount, MayEnter, Accounted;
    if st.run.state.Reviewing? {
      var st1 := Ask(Call(st, f, At(0)), a.agent, f, At(1));
      var pull := Effect(st1, PrOpened(|st1.run.tasks| - DoneCount(st1.run.tasks), |st1.run.tasks|), f, At(2));
      QuietAccounts(st.run, st1.run);
      OpenedAccounts(st1.run);
      Unchanged(pull.run.history, BARE);
      PostAdds(pull.run.history, pull, f, At(3), BARE);
      AccountedOn(pull.run, ReviewBody(st, a, f).run, BARE);
      BudgetAccounts(ReviewBody(st, a, f), f, At(5), At(6));
    }
  }

  lemma QuietAccounts(before: Run, after: Run)
    requires Accounted(before) && after.history == before.history && after.tasks == before.tasks
    ensures Accounted(after)
  {
  }

  // ---- All handlers, and the steps of the system ----

  lemma MovesAccount(kind: JobKind, body: string, before: Run, after: Run)
    requires MayMove(kind, body, before, after) && !kind.Review? && after.tasks == before.tasks && Accounted(before)
    ensures Accounted(after)
  {
    hide Adds, HasOpenTasks, ParsePlanDecision, Accounted;
    if Adds(before.history, after.history, ScopeOf(kind, before)) {
      AccountedOn(before, after, ScopeOf(kind, before));
    } else {
      var told := before.(history := Then(before.history, Approved(body)));
      ApprovedAccounts(before, body);
      AccountedOn(told, after, BARE);
    }
  }

  lemma ApprovedAccounts(r: Run, body: string)
    requires Accounted(r)
    ensures Accounted(r.(history := Then(r.history, Approved(body))))
  {
  }

  lemma ExecutionAccounts(w: World, id: nat, a: Answers, f: Faults)
    requires WorldInv(w) && id in w.queue.jobs && IsLive(w.queue.jobs[id]) && w.queue.jobs[id].key in w.runs
    requires Accounted(w.runs[w.queue.jobs[id].key])
    ensures Accounted(Executed(w, id, a, f).run)
  {
    hide WorldInv, HandleIssueOpened, HandleProduceSpec, HandleClarify, HandleResumeClarification, HandleProducePlan;
    hide HandleResumePlanDecision, HandleImplement, HandleResumeImplementation, HandleReview, HandleFix;
    hide Adds, Accounted, CountersKept, RunInv, Ready, Voiced, HasOpenTasks, ParsePlanDecision, Served, Relays, Drafting;
    var job := w.queue.jobs[id];
    var st := Open(w, job.key);
    if job.kind.Implement? {
      ImplementAccounts(st, a, f);
    } else if job.kind.Review? {
      ReviewReady(w, job.key);
      ReviewAccounts(st, a, f);
    } else {
      FitsItsRun(w, id);
      HandleProgress(job.kind, job.body, st, a, f);
      HandleMoves(job.kind, job.body, st, a, f);
      MovesAccount(job.kind, job.body, st.run, Executed(w, id, a, f).run);
    }
  }

  lemma ReviewReady(w: World, key: RunKey)
    requires WorldInv(w) && key in w.runs
    ensures w.runs[key].state.Reviewing? ==> DoneCount(w.runs[key].tasks) == |w.runs[key].tasks|
  {
    hide WorldInv, Watch, DoneCount, Gated, WithinCaps, TasksInOrder, MoneyAdds;
    RunOk(w, key);
  }

  lemma DispatchAccounts(w: World, id: nat, a: Answers, f: Faults)
    requires WorldInv(w) && id in w.queue.jobs && IsLive(w.queue.jobs[id]) && w.queue.jobs[id].key in w.runs
    requires Accounted(w.runs[w.queue.jobs[id].key])
    ensures var key := w.queue.jobs[id].key;
      var z := Dispatch(w, id, a, f);
      key in z.runs && Accounted(z.runs[key])
  {
    hide WorldInv, Handle, Put, Settle, Adds, Accounted;
    var key := w.queue.jobs[id].key;
    var st := Executed(w, id, a, f);
    ExecutionAccounts(w, id, a, f);
    PutShape(w, id, key, st);
    Unchanged(st.run.history, BARE);
    SettleAdds(st.run.history, Put(w, key, st), id, key, st.status, f, BARE);
    AccountedOn(st.run, Dispatch(w, id, a, f).runs[key], BARE);
  }

  lemma DieAccounts(w: World, key: RunKey)
    requires key in w.runs && Accounted(w.runs[key])
    ensures key in Die(w, key).runs && Accounted(Die(w, key).runs[key])
  {
    hide Die, Adds, Accounted;
    Unchanged(w.runs[key].history, BARE);
    DeathAdds(w.runs[key].history, w, key, BARE);
    AccountedOn(w.runs[key], Die(w, key).runs[key], BARE);
  }

  lemma ProcessAccounts(w: World, id: nat, c: Config, onSubscription: bool, a: Answers, f: Faults)
    requires WorldInv(w) && id in w.queue.jobs && Claimable(w.queue.jobs[id], w.now)
    requires IsBackedUp(w, w.queue.jobs[id].key)
    ensures IsBackedUp(ProcessJob(w, id, c, onSubscription, a, f), w.queue.jobs[id].key)
  {
    hide WorldInv, Dispatch, Die, Admit, Settle, Accounted;
    var job := w.queue.jobs[id];
    var dies := f(At(90)) == Some(Died);
    var claimed := w.(queue := ClaimJob(w.queue, id, w.now));
    var admitted := Admit(claimed, job, c, onSubscription, dies);
    ClaimSafe(w, id);
    FitOf(w, id);
    JobHasRun(w, job);
    AdmitSafe(claimed, job, c, onSubscription, dies);
    AdmitHasRun(claimed, job, c, onSubscription, dies);
    AdmitKeepsQueue(claimed, job, c, onSubscription, dies);
    AdmittedAccounts(claimed, job, c, onSubscription, dies);
    if f(At(89)) == Some(Died) {
      if job.key in w.runs { DieAccounts(claimed, job.key); } else { NoRunDies(claimed, job.key); }
    } else if dies {
      DieAccounts(admitted, job.key);
    } else {
      DispatchAccounts(admitted, id, a, f);
    }
  }

  lemma AdmittedAccounts(w: World, job: Job, c: Config, onSubscription: bool, dies: bool)
    requires IsBackedUp(w, job.key)
    ensures IsBackedUp(Admit(w, job, c, onSubscription, dies), job.key)
  {
    hide BirthBudget;
  }

  // ---- The whole life of a run ----

  predicate IsBackedUp(w: World, key: RunKey) {
    key in w.runs ==> Accounted(w.runs[key])
  }

  lemma HearAccounts(r: Run, body: string)
    requires Accounted(r)
    ensures Accounted(Hear(r, body))
  {
    hide Watch;
  }

  lemma NextAccounts(w: World, s: Step, c: Config, key: RunKey)
    requires WorldInv(w) && IsBackedUp(w, key)
    ensures IsBackedUp(Next(w, s, c), key)
  {
    hide WorldInv, ProcessJob, Deliver, SweptRun, Outcome, Accounted, Hear, Requested, Adds;
    match s
    case Delivered(d) =>
      if key !in w.runs { DeliveryCreatesNone(w, d, key); } else {
        DeliveredRun(w, d, key);
        if Accepted(d) && d.id !in w.processed && Requested(w, d).Some? {
          HearAccounts(w.runs[key], Requested(w, d).value.body);
        }
      }
    case Worked(onSubscription, a, f) =>
      var id := NextClaimable(w.queue, 0, w.now);
      if id.Some? {
        if w.queue.jobs[id.value].key == key {
          ProcessAccounts(w, id.value, c, onSubscription, a, f);
        } else {
          ProcessJobLocal(w, id.value, c, onSubscription, a, f);
        }
      }
    case Swept(posts) =>
      if key in w.runs {
        SweptRunAdds(w.runs[key], w.now, Outcome(w, posts, key));
        AccountedOn(w.runs[key], Next(w, s, c).runs[key], BARE);
      }
    case Waited(ms) =>
    case Crashed(d) =>
  }

  lemma {:induction false} AlwaysAccounted(w: World, steps: seq<Step>, c: Config, key: RunKey)
    requires WorldInv(w) && IsBackedUp(w, key)
    ensures IsBackedUp(After(w, steps, c), key)
  {
    hide WorldInv, Next, IsBackedUp;
    if steps != [] {
      var earlier := steps[..|steps| - 1];
      AlwaysSafe(w, earlier, c);
      AlwaysAccounted(w, earlier, c, key);
      NextAccounts(After(w, earlier, c), steps[|steps| - 1], c, key);
    }
  }

  lemma ReachableAccounted(w: World, key: RunKey)
    requires Reachable(w) && key in w.runs
    ensures Accounted(w.runs[key])
  {
    hide WorldInv, After, Accounted;
    var now, steps, c :| w == After(Initial(now), steps, c);
    InitialInv(now);
    AlwaysAccounted(Initial(now), steps, c, key);
  }

  // Behind every closed task, wherever the worker died, stands a commit made for it or an attempt that
  // found it satisfied.
  lemma ClosedTaskHasAccount(w: World, key: RunKey, i: nat)
    requires Reachable(w) && key in w.runs && i < |w.runs[key].tasks| && w.runs[key].tasks[i].status.Done?
    ensures HasAccount(w.runs[key].history, w.runs[key].tasks[i].id)
  {
    hide Reachable, IsAccounted, PullsAccounted, HasAccount;
    ReachableAccounted(w, key);
    AccountedIff(w.runs[key].history, w.runs[key].tasks[i].id);
  }

  lemma {:induction false} PullAccounted(h: History, tasks: seq<Task>, past: History, e: Event)
    requires PullsAccounted(h, tasks) && Happened(h, past, e) && e.PrOpened?
    ensures e.recorded <= |tasks| && forall i | 0 <= i < e.recorded :: IsAccounted(past, tasks[i].id)
  {
    if !(h.past == past && h.last == e) { PullAccounted(h.past, tasks, past, e); }
  }

  // And by the time a pull request opened, that held of every task recorded until then.
  lemma PullRequestHasAccounts(w: World, key: RunKey, past: History, e: Event, i: nat)
    requires Reachable(w) && key in w.runs && Happened(w.runs[key].history, past, e) && e.PrOpened? && i < e.recorded
    ensures i < |w.runs[key].tasks| && HasAccount(past, w.runs[key].tasks[i].id)
  {
    hide Reachable, IsAccounted, PullsAccounted, HasAccount, Happened, ClosedAccounted;
    ReachableAccounted(w, key);
    PullAccounted(w.runs[key].history, w.runs[key].tasks, past, e);
    AccountedIff(past, w.runs[key].tasks[i].id);
  }
}
