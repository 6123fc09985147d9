// How often a task is committed: once, unless the worker dies between the commit and the record of it; and
// never again once the whole list is done.
module TaskLedger {
  import opened Wrappers
  import opened Pipeline
  import opened Plan
  import opened RunInvariant
  import opened Steps
  import opened HandlerSpec
  import opened RunSafety
  import opened RunProgress
  import opened JobQueue
  import opened Orchestration
  import opened WorldSafety
  import opened Locality
  import opened WorldFlow
  import opened HumanGate
  import opened Branch
  import opened QueueSafety
  import opened Chronicle
  import opened PlanGate

  // The commits made for tasks with one of these ids.
  function CommitsOf(h: History, ids: set<nat>): nat {
    match h
    case Start => 0
    case Then(past, TaskCommitted(id)) => CommitsOf(past, ids) + if id in ids then 1 else 0
    case Then(past, _) => CommitsOf(past, ids)
  }

  // The tasks with one of these ids that are done.
  function DoneOf(tasks: seq<Task>, ids: set<nat>): nat {
    if tasks == [] then 0
    else
      var last := tasks[|tasks| - 1];
      DoneOf(tasks[..|tasks| - 1], ids) + if last.status.Done? && last.id in ids then 1 else 0
  }

  function Owed(status: Status): nat {
    if status == Threw(Died) then 1 else 0
  }

  // Every commit in between stands for a task closed in between, but for those still owed.
  predicate Pays(before: Run, after: Run, ids: set<nat>, owed: int) {
    CommitsOf(after.history, ids) + DoneOf(before.tasks, ids)
    <= CommitsOf(before.history, ids) + DoneOf(after.tasks, ids) + owed
  }

  lemma CommitStep(h: History, ids: set<nat>)
    requires h.Then?
    ensures CommitsOf(h, ids) == CommitsOf(h.past, ids) + if h.last.TaskCommitted? && h.last.taskId in ids then 1 else 0
  {
  }

  lemma {:induction false} AddsNoCommits(h: History, g: History, s: Scope, ids: set<nat>)
    requires Adds(h, g, s) && !s.tasks
    ensures CommitsOf(g, ids) == CommitsOf(h, ids)
  {
    if h != g {
      hide CommitsOf;
      AddsNoCommits(h, g.past, s, ids);
      CommitStep(g, ids);
    }
  }

  // ---- Tasks ----

  lemma {:induction false} DoneOfUpdate(tasks: seq<Task>, i: nat, status: TaskStatus, ids: set<nat>)
    requires i < |tasks| && !tasks[i].status.Done?
    ensures DoneOf(WithStatus(tasks, i, status), ids) ==
      DoneOf(tasks, ids) + if status.Done? && tasks[i].id in ids then 1 else 0
  {
    var n := |tasks| - 1;
    var after := WithStatus(tasks, i, status);
    if i < n {
      assert after[..n] == WithStatus(tasks[..n], i, status);
      DoneOfUpdate(tasks[..n], i, status, ids);
    } else {
      assert after[..n] == tasks[..n];
    }
  }

  lemma {:induction false} DoneOfKept(before: seq<Task>, after: seq<Task>, ids: set<nat>)
    requires |before| == |after|
    requires forall i | 0 <= i < |before| ::
      after[i].id == before[i].id && (before[i].status.Done? ==> after[i].status.Done?)
    ensures DoneOf(before, ids) <= DoneOf(after, ids)
  {
    if before != [] { DoneOfKept(before[..|before| - 1], after[..|after| - 1], ids); }
  }

  lemma TasksKeptCount(before: Run, after: Run, ids: set<nat>)
    requires CountersKept(before, after)
    ensures DoneOf(before.tasks, ids) <= DoneOf(after.tasks, ids)
  {
    hide HelpKept;
    if before.tasks != [] { DoneOfKept(before.tasks, after.tasks, ids); }
  }

  lemma {:induction false} DoneOfNone(tasks: seq<Task>, id: nat)
    requires forall i | 0 <= i < |tasks| :: tasks[i].id != id
    ensures DoneOf(tasks, {id}) == 0
  {
    if tasks != [] { DoneOfNone(tasks[..|tasks| - 1], id); }
  }

  lemma {:induction false} DoneOfOne(tasks: seq<Task>, next: nat, id: nat)
    requires GrowingIds(tasks, next)
    ensures DoneOf(tasks, {id}) <= 1
  {
    if tasks != [] {
      var n := |tasks| - 1;
      if tasks[n].id == id { DoneOfNone(tasks[..n], id); } else { DoneOfOne(tasks[..n], next, id); }
    }
  }

  // ---- The implement handler ----

  lemma BookedSame(before: Run, after: Run, s: Scope, ids: set<nat>)
    requires Adds(before.history, after.history, s) && !s.tasks && after.tasks == before.tasks
    ensures Pays(before, after, ids, 0)
  {
    AddsNoCommits(before.history, after.history, s, ids);
  }

  lemma ParkStalledPays(st: St, i: nat, f: Faults, ids: set<nat>)
    requires i < |st.run.tasks| && !st.run.tasks[i].status.Done?
    ensures Pays(st.run, ParkStalled(st, i, f).run, ids, 0)
  {
    hide Ok, Watch, Adds, UpdateTask, SetContext, Post, SetState, ReturnEarly, MayEnter, DoneCount, CommitsOf, DoneOf;
    Unchanged(st.run.history, BARE);
    ParkStalledAdds(st.run.history, st, i, f, BARE);
    AddsNoCommits(st.run.history, ParkStalled(st, i, f).run.history, BARE, ids);
    DoneOfUpdate(st.run.tasks, i, Escalated, ids);
  }

  lemma ClosedPays(st: St, i: nat, f: Faults, at: Site, clear: Site, ids: set<nat>)
    requires i < |st.run.tasks| && !st.run.tasks[i].status.Done?
    ensures var r := ClearHelp(UpdateTask(st, i, Done, f, at), st.run.tasks[i].id, f, clear);
      && r.run.history == st.run.history && DoneOf(st.run.tasks, ids) <= DoneOf(r.run.tasks, ids)
      && (Live(st) && r.status != Threw(Died) ==>
            DoneOf(r.run.tasks, ids) == DoneOf(st.run.tasks, ids) + if st.run.tasks[i].id in ids then 1 else 0)
  {
    hide Ok, Watch, UpdateTask, ClearHelp, DoneCount, DoneOf;
    DoneOfUpdate(st.run.tasks, i, Done, ids);
  }

  lemma LandedPays(st: St, i: nat, f: Faults, ids: set<nat>)
    requires i < |st.run.tasks| && !st.run.tasks[i].status.Done?
    ensures var taskId := st.run.tasks[i].id;
      var committed := Effect(Call(st, f, Turn(i, 9)), TaskCommitted(taskId), f, Turn(i, 10));
      var r := ClearHelp(UpdateTask(committed, i, Done, f, Turn(i, 11)), taskId, f, Turn(i, 12));
      Pays(st.run, r.run, ids, Owed(r.status))
  {
    hide Ok, Watch, Call, Effect, UpdateTask, ClearHelp, DoneCount, DoneOf, CommitsOf;
    var taskId := st.run.tasks[i].id;
    var committed := Effect(Call(st, f, Turn(i, 9)), TaskCommitted(taskId), f, Turn(i, 10));
    ClosedPays(committed, i, f, Turn(i, 11), Turn(i, 12), ids);
    if Live(committed) { CommitStep(committed.run.history, ids); }
  }

  lemma SatisfiedPays(st: St, i: nat, f: Faults, ids: set<nat>)
    requires i < |st.run.tasks| && !st.run.tasks[i].status.Done?
    ensures var taskId := st.run.tasks[i].id;
      var noted := NoteStep(st, FoundSatisfied(taskId));
      Pays(st.run, ClearHelp(UpdateTask(noted, i, Done, f, Turn(i, 7)), taskId, f, Turn(i, 8)).run, ids, 0)
  {
    hide Ok, Watch, UpdateTask, ClearHelp, NoteStep, DoneCount, DoneOf, CommitsOf;
    var noted := NoteStep(st, FoundSatisfied(st.run.tasks[i].id));
    ClosedPays(noted, i, f, Turn(i, 7), Turn(i, 8), ids);
    if Live(st) { CommitStep(noted.run.history, ids); }
  }

  lemma ClosedTurnPays(st: St, f: Faults, i: nat, ids: set<nat>)
    ensures var r := ReturnEarly(CloseWith(st, Failed, f, Turn(i, 0), Turn(i, 1)));
      Pays(st.run, r.run, ids, 0)
  {
    hide Ok, Watch, Adds, ReturnEarly, CloseWith, SameMarks, Pays;
    var r := ReturnEarly(CloseWith(st, Failed, f, Turn(i, 0), Turn(i, 1)));
    Unchanged(st.run.history, BARE);
    CloseAdds(st.run.history, st, Failed, f, Turn(i, 0), Turn(i, 1), BARE);
    BookedSame(st.run, r.run, BARE, ids);
  }

  lemma TaskTurnPays(st: St, i: nat, a: Answers, f: Faults, ids: set<nat>)
    requires i < |st.run.tasks| && !st.run.tasks[i].status.Done?
    ensures var r := TaskTurn(st, i, a, f);
      Pays(st.run, r.run, ids, Owed(r.status))
  {
    hide Ok, Watch, RunTdd, ParkStalled, UpdateTask, ClearHelp, Call, Effect, CloseWith, ReturnEarly, DoneCount;
    hide SameMarks, CommitsOf, DoneOf, NoteStep;
    if Exhausted(st.run) {
      ClosedTurnPays(st, f, i, ids);
    } else {
      var st1 := RunTdd(st, a.tdd(i));
      ParkStalledPays(st1, i, f, ids);
      SatisfiedPays(st1, i, f, ids);
      LandedPays(st1, i, f, ids);
    }
  }

  lemma PaysTransitive(a: Run, b: Run, c: Run, ids: set<nat>, owed: int)
    requires Pays(a, b, ids, 0) && Pays(b, c, ids, owed)
    ensures Pays(a, c, ids, owed)
  {
    hide CommitsOf, DoneOf;
  }

  lemma {:induction false} TaskLoopPays(st: St, i: nat, a: Answers, f: Faults, ids: set<nat>)
    requires i <= |st.run.tasks|
    ensures var r := TaskLoop(st, i, a, f);
      Pays(st.run, r.run, ids, if Live(st) then Owed(r.status) else 0)
    decreases |st.run.tasks| - i
  {
    hide TaskTurn, CommitsOf, DoneOf;
    if i < |st.run.tasks| && Live(st) {
      if st.run.tasks[i].status.Done? {
        TaskLoopPays(st, i + 1, a, f, ids);
      } else {
        var next := TaskTurn(st, i, a, f);
        TaskTurnPays(st, i, a, f, ids);
        TurnKeepsCount(st, i, a, f);
        if Live(next) {
          TaskLoopPays(next, i + 1, a, f, ids);
          PaysTransitive(st.run, next.run, TaskLoop(st, i, a, f).run, ids, Owed(TaskLoop(st, i, a, f).status));
        } else {
          LoopStopped(next, i + 1, a, f);
        }
      }
    }
  }

  lemma LoopStopped(st: St, i: nat, a: Answers, f: Faults)
    requires i <= |st.run.tasks| && !Live(st)
    ensures TaskLoop(st, i, a, f) == st
  {
  }

  lemma BootstrapPays(st: St, a: Answers, f: Faults, ids: set<nat>)
    ensures Pays(st.run, BootstrapStep(st, a, f).run, ids, 0)
  {
    hide BootstrapStep, Adds, Pays;
    Unchanged(st.run.history, FIXING);
    BootstrapAdds(st.run.history, st, a, f, FIXING);
    BootstrapKeepsTasks(st, a, f);
    BookedSame(st.run, BootstrapStep(st, a, f).run, FIXING, ids);
  }

  lemma DecomposePays(st: St, a: Answers, f: Faults, ids: set<nat>)
    ensures Pays(st.run, DecomposeStep(st, a, f).run, ids, 0)
  {
    hide Ok, Watch, Ask, NoteStep, RecordTasks, Adds, CommitsOf;
    Unchanged(st.run.history, BARE);
    DecomposeAdds(st.run.history, st, a, f, BARE);
    AddsNoCommits(st.run.history, DecomposeStep(st, a, f).run.history, BARE, ids);
  }

  lemma HandOnPays(st: St, f: Faults, ids: set<nat>)
    ensures Pays(st.run, HandToReview(st, f).run, ids, 0)
    ensures !Live(st) ==> HandToReview(st, f) == st
  {
    hide Ok, Watch, Adds, Post, SetState, Enqueue, MayEnter, Pays;
    Unchanged(st.run.history, BARE);
    HandToReviewAdds(st.run.history, st, f, BARE);
    BookedSame(st.run, HandToReview(st, f).run, BARE, ids);
  }

  lemma TasksWorked(st: St, a: Answers, f: Faults, ids: set<nat>)
    requires Live(st)
    ensures var st7 := BootstrapStep(st, a, f);
      var st8 := if Live(st7) then DecomposeStep(st7, a, f) else st7;
      var st10 := TaskLoop(Call(st8, f, At(9)), 0, a, f);
      Pays(st.run, st10.run, ids, Owed(st10.status))
  {
    hide BootstrapStep, DecomposeStep, TaskLoop, Call, CommitsOf, DoneOf, Ok;
    var st7 := BootstrapStep(st, a, f);
    var st8 := if Live(st7) then DecomposeStep(st7, a, f) else st7;
    var st9 := Call(st8, f, At(9));
    var st10 := TaskLoop(st9, 0, a, f);
    BootstrapPays(st, a, f, ids);
    DecomposePays(st7, a, f, ids);
    TaskLoopPays(st9, 0, a, f, ids);
  }

  lemma ImplementBodyPays(st: St, a: Answers, f: Faults, ids: set<nat>)
    requires Live(st)
    ensures var r := ImplementBody(st, a, f);
      Pays(st.run, r.run, ids, Owed(r.status))
  {
    hide BootstrapStep, DecomposeStep, TaskLoop, Call, HandToReview, CommitsOf, DoneOf, Ok;
    TasksWorked(st, a, f, ids);
    var st7 := BootstrapStep(st, a, f);
    var st8 := if Live(st7) then DecomposeStep(st7, a, f) else st7;
    HandOnPays(TaskLoop(Call(st8, f, At(9)), 0, a, f), f, ids);
  }

  lemma BudgetPays(st: St, f: Faults, post: Site, close: Site, ids: set<nat>)
    ensures Pays(st.run, OnBudget(st, f, post, close).run, ids, 0)
    ensures st.status == Threw(Died) ==> OnBudget(st, f, post, close) == st
  {
    hide Ok, Watch, Adds, OnBudget, CloseWith, SameMarks, Pays;
    Unchanged(st.run.history, BARE);
    BudgetAdds(st.run.history, st, f, post, close, BARE);
    BookedSame(st.run, OnBudget(st, f, post, close).run, BARE, ids);
  }

  lemma ImplementPays(st: St, a: Answers, f: Faults, ids: set<nat>)
    requires Live(st)
    ensures var r := HandleImplement(st, a, f);
      Pays(st.run, r.run, ids, Owed(r.status))
  {
    hide Ok, Call, ImplementBody, OnBudget, Closing, CommitsOf, DoneOf, Watch;
    var st1 := Call(Call(st, f, At(0)), f, At(1));
    if Live(st1) {
      ImplementBodyPays(st1, a, f, ids);
      BudgetPays(ImplementBody(st1, a, f), f, At(13), At(14), ids);
    }
  }

  // ---- Steps of the system ----

  // Every commit is paid for by a closed task or by a recorded death of the worker.
  predicate Squares(before: Run, after: Run, ids: set<nat>) {
    Pays(before, after, ids, Watch(after.history).deaths - Watch(before.history).deaths)
  }

  lemma ExecutionPays(w: World, id: nat, a: Answers, f: Faults, ids: set<nat>)
    requires WorldInv(w) && id in w.queue.jobs && IsLive(w.queue.jobs[id]) && w.queue.jobs[id].key in w.runs
    ensures var st := Executed(w, id, a, f);
      Pays(w.runs[w.queue.jobs[id].key], st.run, ids, Owed(st.status))
  {
    hide WorldInv, HandleIssueOpened, HandleProduceSpec, HandleClarify, HandleResumeClarification, HandleProducePlan;
    hide HandleResumePlanDecision, HandleImplement, HandleResumeImplementation, HandleReview, HandleFix;
    hide Adds, CommitsOf, DoneOf, CountersKept, RunInv, Ready, Voiced, HasOpenTasks, ParsePlanDecision;
    var job := w.queue.jobs[id];
    var before := w.runs[job.key];
    var st := Executed(w, id, a, f);
    if job.kind.Implement? {
      ImplementPays(Open(w, job.key), a, f, ids);
    } else {
      HandleSound(w, id, a, f);
      TasksKeptCount(before, st.run, ids);
      HandleMoves(job.kind, job.body, Open(w, job.key), a, f);
      MovesCommitNothing(job.kind, job.body, before, st.run, ids);
    }
  }

  // Nothing but the implement handler on open tasks commits a task.
  lemma MovesCommitNothing(kind: JobKind, body: string, before: Run, after: Run, ids: set<nat>)
    requires MayMove(kind, body, before, after) && (kind.Implement? ==> !HasOpenTasks(before))
    ensures CommitsOf(after.history, ids) == CommitsOf(before.history, ids)
  {
    hide Adds, CommitsOf, HasOpenTasks, ParsePlanDecision;
    var told := Then(before.history, Approved(body));
    if Adds(before.history, after.history, ScopeOf(kind, before)) {
      AddsNoCommits(before.history, after.history, ScopeOf(kind, before), ids);
    } else {
      AddsNoCommits(told, after.history, BARE, ids);
      CommitStep(told, ids);
    }
  }

  lemma SettlePays(w: World, id: nat, key: RunKey, status: Status, f: Faults, ids: set<nat>)
    requires id in w.queue.jobs && key in w.runs
    ensures var z := Settle(w, id, key, status, f);
      && key in z.runs && Pays(w.runs[key], z.runs[key], ids, 0)
      && Deaths(z.runs[key]) >= Deaths(w.runs[key]) + Owed(status)
  {
    hide Settle, Adds, Pays, Deaths;
    var z := Settle(w, id, key, status, f);
    Unchanged(w.runs[key].history, BARE);
    SettleAdds(w.runs[key].history, w, id, key, status, f, BARE);
    SettleOrDies(w, id, key, status, f);
    BookedSame(w.runs[key], z.runs[key], BARE, ids);
    if status == Threw(Died) { DiedSettles(w, id, key, status, f); }
  }

  lemma DiedSettles(w: World, id: nat, key: RunKey, status: Status, f: Faults)
    requires id in w.queue.jobs && key in w.runs && status == Threw(Died)
    ensures var z := Settle(w, id, key, status, f);
      key in z.runs && Deaths(z.runs[key]) == Deaths(w.runs[key]) + 1
  {
    hide Die, Deaths;
    DieDeaths(w, key);
  }

  lemma DispatchSquares(w: World, id: nat, a: Answers, f: Faults, ids: set<nat>)
    requires WorldInv(w) && id in w.queue.jobs && IsLive(w.queue.jobs[id]) && w.queue.jobs[id].key in w.runs
    ensures var key := w.queue.jobs[id].key;
      var z := Dispatch(w, id, a, f);
      key in z.runs && Squares(w.runs[key], z.runs[key], ids)
  {
    hide WorldInv, Handle, Put, Settle, CommitsOf, DoneOf, Watch;
    var key := w.queue.jobs[id].key;
    var st := Executed(w, id, a, f);
    ExecutionPays(w, id, a, f, ids);
    ExecutedDeaths(w, id, a, f);
    PutShape(w, id, key, st);
    SettlePays(Put(w, key, st), id, key, st.status, f, ids);
  }

  lemma DieSquares(w: World, key: RunKey, ids: set<nat>)
    requires key in w.runs
    ensures key in Die(w, key).runs && Squares(w.runs[key], Die(w, key).runs[key], ids)
  {
    hide Die, Adds, CommitsOf, DoneOf, Watch;
    Unchanged(w.runs[key].history, BARE);
    DeathAdds(w.runs[key].history, w, key, BARE);
    BookedSame(w.runs[key], Die(w, key).runs[key], BARE, ids);
    DieDeaths(w, key);
  }

  lemma ProcessSquares(w: World, id: nat, c: Config, onSubscription: bool, a: Answers, f: Faults, ids: set<nat>)
    requires WorldInv(w) && id in w.queue.jobs && Claimable(w.queue.jobs[id], w.now) && w.queue.jobs[id].key in w.runs
    ensures var key := w.queue.jobs[id].key;
      var z := ProcessJob(w, id, c, onSubscription, a, f);
      key in z.runs && Squares(w.runs[key], z.runs[key], ids)
  {
    hide WorldInv, Dispatch, Die, Admit, Squares;
    var job := w.queue.jobs[id];
    var claimed := w.(queue := ClaimJob(w.queue, id, w.now));
    ClaimSafe(w, id);
    ExistingAdmitted(claimed, job, c, onSubscription, f(At(90)) == Some(Died));
    DieSquares(claimed, job.key, ids);
    DispatchSquares(claimed, id, a, f, ids);
  }

  // ---- The books over a whole run ----

  predicate IsBooked(r: Run, ids: set<nat>) {
    CommitsOf(r.history, ids) <= DoneOf(r.tasks, ids) + Deaths(r)
  }

  predicate Booked(w: World, key: RunKey, ids: set<nat>) {
    key in w.runs ==> IsBooked(w.runs[key], ids)
  }

  lemma SquaresKeep(before: Run, after: Run, ids: set<nat>)
    requires IsBooked(before, ids) && Squares(before, after, ids)
    ensures IsBooked(after, ids)
  {
    hide CommitsOf, DoneOf, Watch;
  }

  lemma QuietKeepsBooks(before: Run, after: Run, ids: set<nat>)
    requires IsBooked(before, ids) && Adds(before.history, after.history, BARE) && after.tasks == before.tasks
    ensures IsBooked(after, ids)
  {
    hide CommitsOf, DoneOf, Watch, Adds;
    AddsNoCommits(before.history, after.history, BARE, ids);
    DeathsGrow(before.history, after.history, BARE);
  }

  lemma {:induction false} DeathsGrow(h: History, g: History, s: Scope)
    requires Adds(h, g, s)
    ensures Watch(g).deaths >= Watch(h).deaths
  {
    if h != g {
      hide Watch, Observe;
      DeathsGrow(h, g.past, s);
      WatchStep(g);
      ObserveCommits(Watch(g.past), g.last);
    }
  }

  lemma HearKeepsBooks(r: Run, body: string, ids: set<nat>)
    requires IsBooked(r, ids)
    ensures IsBooked(Hear(r, body), ids)
  {
    hide Watch, CommitsOf, DoneOf;
    CommitStep(Hear(r, body).history, ids);
  }

  lemma NewIsBooked(r: Run, ids: set<nat>)
    requires Adds(Start, r.history, BARE)
    ensures IsBooked(r, ids)
  {
    hide Adds, DoneOf;
    AddsNoCommits(Start, r.history, BARE, ids);
  }

  lemma NextBooked(w: World, s: Step, c: Config, key: RunKey, ids: set<nat>)
    requires WorldInv(w) && Booked(w, key, ids)
    ensures Booked(Next(w, s, c), key, ids)
  {
    hide WorldInv, ProcessJob, Deliver, SweptRun, Outcome, IsBooked, Hear, Requested, Adds;
    match s
    case Delivered(d) =>
      if key !in w.runs { DeliveryCreatesNone(w, d, key); } else {
        DeliveredRun(w, d, key);
        if Accepted(d) && d.id !in w.processed && Requested(w, d).Some? {
          HearKeepsBooks(w.runs[key], Requested(w, d).value.body, ids);
        }
      }
    case Worked(onSubscription, a, f) =>
      var id := NextClaimable(w.queue, 0, w.now);
      if id.Some? {
        if w.queue.jobs[id.value].key != key {
          ProcessJobLocal(w, id.value, c, onSubscription, a, f);
        } else if key in w.runs {
          ProcessSquares(w, id.value, c, onSubscription, a, f, ids);
          SquaresKeep(w.runs[key], Next(w, s, c).runs[key], ids);
        } else {
          ProcessMoves(w, id.value, c, onSubscription, a, f);
          if key in Next(w, s, c).runs { NewIsBooked(Next(w, s, c).runs[key], ids); }
        }
      }
    case Swept(posts) =>
      if key in w.runs {
        SweptRunAdds(w.runs[key], w.now, Outcome(w, posts, key));
        QuietKeepsBooks(w.runs[key], Next(w, s, c).runs[key], ids);
      }
    case Waited(ms) =>
    case Crashed(d) =>
  }

  lemma {:induction false} AlwaysBooked(w: World, steps: seq<Step>, c: Config, key: RunKey, ids: set<nat>)
    requires WorldInv(w) && Booked(w, key, ids)
    ensures Booked(After(w, steps, c), key, ids)
  {
    hide WorldInv, Next, Booked;
    if steps != [] {
      var earlier := steps[..|steps| - 1];
      AlwaysSafe(w, earlier, c);
      AlwaysBooked(w, earlier, c, key, ids);
      NextBooked(After(w, earlier, c), steps[|steps| - 1], c, key, ids);
    }
  }

  // Over the whole life of a run, and whichever of its tasks one looks at, the commits made for them are at
  // most those of them that are done and the deaths of the worker over the run: each death costs at most
  // one commit, and without one no task is committed twice or without being closed.
  lemma CommitsArePaid(w: World, key: RunKey, ids: set<nat>)
    requires Reachable(w) && key in w.runs
    ensures var r := w.runs[key];
      CommitsOf(r.history, ids) <= DoneOf(r.tasks, ids) + Count(r.history, IsDeath)
  {
    hide WorldInv, After, CommitsOf, DoneOf, Watch, Count;
    var now, steps, c :| w == After(Initial(now), steps, c);
    InitialInv(now);
    AlwaysBooked(Initial(now), steps, c, key, ids);
    CommitsCounted(w.runs[key].history);
  }

  // So each task is committed once at most, but for the deaths.
  lemma OneCommitEach(w: World, key: RunKey, id: nat)
    requires Reachable(w) && key in w.runs
    ensures CommitsOf(w.runs[key].history, {id}) <= 1 + Count(w.runs[key].history, IsDeath)
  {
    hide Reachable, CommitsOf, DoneOf, Count, MayEnter, Gated, WithinCaps, MoneyAdds, DonePrefix;
    CommitsArePaid(w, key, {id});
    ReachableRun(w, key);
    DoneOfOne(w.runs[key].tasks, w.nextTask, id);
  }

  // ---- A finished list ----

  predicate IsFinished(r: Run) {
    r.tasks != [] && DoneCount(r.tasks) == |r.tasks|
  }

  lemma FinishedStays(before: Run, after: Run)
    requires IsFinished(before) && CountersKept(before, after)
    ensures IsFinished(after)
  {
    DoneCountIs(after.tasks, |after.tasks|);
    hide DoneCount, HelpKept;
  }

  lemma NextCommitsNothing(w: World, s: Step, c: Config, key: RunKey, ids: set<nat>)
    requires WorldInv(w) && key in w.runs && IsFinished(w.runs[key])
    ensures key in Next(w, s, c).runs
    ensures CommitsOf(Next(w, s, c).runs[key].history, ids) == CommitsOf(w.runs[key].history, ids)
  {
    hide WorldInv, ProcessJob, Deliver, SweptRun, Outcome, Hear, Requested, Adds, CommitsOf, DoneCount, MayMove;
    match s
    case Delivered(d) =>
      DeliveredRun(w, d, key);
      if Accepted(d) && d.id !in w.processed && Requested(w, d).Some? {
        HearCommitsNothing(w.runs[key], Requested(w, d).value.body, ids);
      }
    case Worked(onSubscription, a, f) =>
      var id := NextClaimable(w.queue, 0, w.now);
      if id.Some? {
        if w.queue.jobs[id.value].key != key {
          ProcessJobLocal(w, id.value, c, onSubscription, a, f);
        } else {
          ProcessMoves(w, id.value, c, onSubscription, a, f);
          MovesCommitNothing(w.queue.jobs[id.value].kind, w.queue.jobs[id.value].body,
                             w.runs[key], Next(w, s, c).runs[key], ids);
        }
      }
    case Swept(posts) =>
      SweptRunAdds(w.runs[key], w.now, Outcome(w, posts, key));
      AddsNoCommits(w.runs[key].history, Next(w, s, c).runs[key].history, BARE, ids);
    case Waited(ms) =>
    case Crashed(d) =>
  }

  lemma HearCommitsNothing(r: Run, body: string, ids: set<nat>)
    ensures CommitsOf(Hear(r, body).history, ids) == CommitsOf(r.history, ids)
  {
    hide CommitsOf;
    CommitStep(Hear(r, body).history, ids);
  }

  lemma {:induction false} AlwaysFinished(w: World, steps: seq<Step>, c: Config, key: RunKey, ids: set<nat>)
    requires WorldInv(w) && key in w.runs && IsFinished(w.runs[key])
    ensures var z := After(w, steps, c);
      && key in z.runs && IsFinished(z.runs[key])
      && CommitsOf(z.runs[key].history, ids) == CommitsOf(w.runs[key].history, ids)
  {
    hide WorldInv, Next, IsFinished, CommitsOf, CountersKept;
    if steps != [] {
      var earlier := steps[..|steps| - 1];
      var last := After(w, earlier, c);
      AlwaysSafe(w, earlier, c);
      AlwaysFinished(w, earlier, c, key, ids);
      NextSafe(last, steps[|steps| - 1], c);
      NextCommitsNothing(last, steps[|steps| - 1], c, key, ids);
      FinishedStays(last.runs[key], After(w, steps, c).runs[key]);
    }
  }

  // Once every task of a list that is not empty is done, no task is committed any more: a new plan that is
  // approved after a review is never taken apart.
  lemma FinishedForGood(w: World, later: World, key: RunKey, ids: set<nat>)
    requires Reachable(w) && LeadsTo(w, later) && key in w.runs && IsFinished(w.runs[key])
    ensures key in later.runs && IsFinished(later.runs[key])
    ensures CommitsOf(later.runs[key].history, ids) == CommitsOf(w.runs[key].history, ids)
  {
    hide Reachable, After, WorldInv, IsFinished, CommitsOf;
    ReachableInv(w);
    var steps, c :| later == After(w, steps, c);
    AlwaysFinished(w, steps, c, key, ids);
  }
}
