// The pipeline's handlers, step by step against the store. Each leaves the store exactly as the
// transition system prescribes for the answers it was given and the faults it met.
module Handlers {
  import opened Wrappers
  import opened Pipeline
  import opened Plan
  import opened RunInvariant
  import opened Steps
  import opened HandlerSpec
  import opened RunSafety
  import opened RunProgress
  import opened MemoryStore
  import opened Orchestration
  import opened Execution

  // Comment, then close: how refusals and aborts end.
  method Close(x: Execution, s: RunState, post: Site, close: Site) returns (r: Status)
    requires x.Active()
    modifies x`st, x.store`runs
    ensures x.Valid() && x.st == CloseWith(old(x.st), s, x.f, post, close) && r == x.st.status
  {
    hide Ok, Watch, Observe, MayEnter;
    r := Running;
    :- x.PostComment(post);
    r := x.SetRunState(s, close);
  }

  // The catch block that stops a run whose budget is spent.
  method CatchBudget(x: Execution, thrown: Status, post: Site, close: Site) returns (r: Status)
    requires x.Valid() && thrown == x.st.status
    modifies x`st, x.store`runs
    ensures x.Valid() && x.st == OnBudget(old(x.st), x.f, post, close) && r == x.st.status
  {
    if thrown == Threw(Budget) {
      x.Catch();
      r := Close(x, Failed, post, close);
    } else {
      r := thrown;
    }
  }

  // The catch block around the architect.
  method CatchRefusal(x: Execution, thrown: Status, post: Site, close: Site) returns (r: Status)
    requires x.Valid() && thrown == x.st.status
    modifies x`st, x.store`runs
    ensures x.Valid() && x.st == OnRefusal(old(x.st), x.f, post, close) && r == x.st.status
  {
    if thrown == Threw(NoRecipe) || thrown == Threw(Budget) {
      x.Catch();
      r := Close(x, Failed, post, close);
    } else {
      r := thrown;
    }
  }

  // The finally block around an open sandbox.
  method CloseSandbox(x: Execution, pending: Status, at: Site) returns (r: Status)
    requires x.Valid() && pending == x.st.status
    modifies x`st
    ensures x.Valid() && x.st == Closing(old(x.st), x.f, at) && r == x.st.status
  {
    if pending == Threw(Died) || x.f(at).None? { return pending; }
    r := Threw(x.f(at).value);
    x.Escape(r);
  }

  // A retryable error that escapes here strands the run: the fact joins its history.
  method MarkStranded(x: Execution, pending: Status)
    requires x.Valid() && pending == x.st.status
    modifies x`st, x.store`runs
    ensures x.Valid() && x.st == Stranding(old(x.st)) && x.st.status == pending
  {
    if pending == Threw(Other) {
      x.Catch();
      x.Witness(Stranded);
      x.Escape(pending);
    }
  }

  // ---- Acknowledging and specifying ----

  method DoIssueOpened(x: Execution) returns (r: Status)
    requires x.Active() && x.st.enq.None?
    modifies x`st, x.store
    ensures x.Valid() && x.st == HandleIssueOpened(old(x.st), x.f) && r == x.st.status
  {
    if x.store.runs[x.key].state != Received { return Running; }
    :- x.PostComment(At(0));
    :- x.SetRunState(Acknowledged, At(1));
    r := x.AddNextJob(ProduceSpec, "", At(2));
  }

  method ProduceSpecTry(x: Execution, a: Answers) returns (r: Status)
    requires x.Active() && x.st.enq.None?
    modifies x`st, x.store
    ensures x.Valid() && x.st == ProduceSpecBody(old(x.st), a, x.f) && r == x.st.status
  {
    hide Ask, Effect, RecordSpec, Post, Stranding, SetContext, SetState, Enqueue, Put;
    :- x.AskModel(a.intake, At(6));
    :- x.AskModel(a.agent, At(7));
    :- x.Do(SpecCommitted, At(8));
    :- x.AddArtifact(SpecArtifact, At(9));
    r := x.PostComment(At(10));
    MarkStranded(x, r);
    if r.IsFailure() { return r; }
    :- x.SetRunContext(x.store.runs[x.key].ctx.(specData := Some(a.spec)), At(11));
    :- x.SetRunState(Specifying, At(12));
    r := x.AddNextJob(Clarify, "", At(13));
  }

  method DoProduceSpec(x: Execution, a: Answers) returns (r: Status)
    requires x.Active() && x.st.enq.None?
    modifies x`st, x.store
    ensures x.Valid() && x.st == HandleProduceSpec(old(x.st), a, x.f) && r == x.st.status
  {
    hide Call, Tolerate, CloseWith, OnBudget, ProduceSpecBody, SetState, Put;
    if x.store.runs[x.key].hasSpec { return Running; }
    :- x.SetRunState(Specifying, At(0));
    :- x.Await(At(1));
    :- x.Attempt(At(2));
    if !a.supported {
      r := Close(x, Unsupported, At(3), At(4));
    } else {
      :- x.Await(At(5));
      r := ProduceSpecTry(x, a);
      r := CatchBudget(x, r, At(14), At(15));
    }
  }

  // ---- Clarifying ----

  method ClarifyTry(x: Execution, a: Answers) returns (r: Status)
    requires x.Active() && x.st.enq.None?
    modifies x`st, x.store
    ensures x.Valid() && x.st == ClarifyBody(old(x.st), a, x.f) && r == x.st.status
  {
    hide Ask, Post, SetContext, SetState, Enqueue, CloseWith, Put;
    :- x.AskModel(a.agent, At(1));
    if a.questions == 0 {
      :- x.SetRunState(Specified, At(2));
      r := x.AddNextJob(ProducePlan, "", At(3));
    } else if a.questions > CLARIFY_QUESTION_CAP {
      r := Close(x, Failed, At(4), At(5));
    } else {
      :- x.SetRunContext(x.store.runs[x.key].ctx.(questions := a.questions), At(6));
      :- x.PostComment(At(7));
      r := x.SetRunState(AwaitingClarification, At(8));
    }
  }

  method DoClarify(x: Execution, a: Answers) returns (r: Status)
    requires x.Active() && x.st.enq.None?
    modifies x`st, x.store
    ensures x.Valid() && x.st == HandleClarify(old(x.st), a, x.f) && r == x.st.status
  {
    var run := x.store.runs[x.key];
    if run.state != Specifying || !run.hasSpec { return Running; }
    r := x.Attempt(At(0));
    if r.IsFailure() {
      ClarifyStopped(x.st, a, x.f);
      return r;
    }
    hide Tolerate, OnBudget, ClarifyBody, Put;
    r := ClarifyTry(x, a);
    r := CatchBudget(x, r, At(9), At(10));
  }

  lemma ClarifyStopped(st: St, a: Answers, f: Faults)
    requires st.status == Threw(Died)
    ensures OnBudget(ClarifyBody(st, a, f), f, At(9), At(10)) == st
  {
    hide Ask, Post, SetContext, SetState, Enqueue, CloseWith;
  }

  method ResumeClarificationTry(x: Execution, a: Answers) returns (r: Status)
    requires x.Active() && x.st.enq.None?
    modifies x`st, x.store
    ensures x.Valid() && x.st == ResumeClarificationBody(old(x.st), a, x.f) && r == x.st.status
  {
    hide Ask, Effect, RecordSpec, Post, SetContext, SetState, Enqueue, Put;
    :- x.AskModel(a.agent, At(1));
    :- x.Do(SpecCommitted, At(2));
    :- x.AddArtifact(SpecArtifact, At(3));
    :- x.PostComment(At(4));
    :- x.SetRunContext(x.store.runs[x.key].ctx.(specData := Some(a.spec)), At(5));
    :- x.SetRunState(Specified, At(6));
    r := x.AddNextJob(ProducePlan, "", At(7));
  }

  method DoResumeClarification(x: Execution, a: Answers) returns (r: Status)
    requires x.Active() && x.st.enq.None?
    modifies x`st, x.store
    ensures x.Valid() && x.st == HandleResumeClarification(old(x.st), a, x.f) && r == x.st.status
  {
    var run := x.store.runs[x.key];
    if run.state != AwaitingClarification || !run.hasSpec { return Running; }
    r := x.Await(At(0));
    if r.IsFailure() {
      ResumeStopped(x.st, a, x.f);
      return r;
    }
    hide Call, OnBudget, ResumeClarificationBody, Put;
    r := ResumeClarificationTry(x, a);
    r := CatchBudget(x, r, At(8), At(9));
  }

  lemma ResumeStopped(st: St, a: Answers, f: Faults)
    requires st.status.Threw? && !st.status.err.Budget?
    ensures OnBudget(ResumeClarificationBody(st, a, f), f, At(8), At(9)) == st
  {
    hide Ask, Effect, RecordSpec, Post, SetContext, SetState, Enqueue, CloseWith;
  }

  // ---- Planning ----

  method RunArchitectAndCommit(x: Execution, a: Answers) returns (r: Status)
    requires x.Active()
    modifies x`st, x.store`runs
    ensures x.Valid() && x.st == Architect(old(x.st), a, x.f) && r == x.st.status
  {
    hide Call, Ask, Effect, RecordPlan, Put;
    :- x.Await(At(20));
    if a.setup.Some? && !a.recipe {
      x.Escape(Threw(NoRecipe));
      return Threw(NoRecipe);
    }
    :- x.AskModel(a.agent, At(21));
    :- x.Do(PlanCommitted, At(22));
    r := x.AddArtifact(PlanArtifact, At(23));
  }

  method SavePlan(x: Execution, setup: Option<SetupAction>, revisions: nat) returns (r: Status)
    requires x.Active()
    modifies x`st, x.store`runs
    ensures x.Valid() && x.st == RecordPlanContext(old(x.st), setup, revisions, x.f, At(24)) && r == x.st.status
  {
    r := Running;
    :- x.Attempt(At(24));
    var run := WithPlan(x.store.runs[x.key], setup, revisions, x.store.now);
    x.Write(run, x.st.(run := run));
    return Running;
  }

  method PlanTry(x: Execution, revisions: nat, a: Answers) returns (r: Status)
    requires x.Active()
    modifies x`st, x.store`runs
    ensures x.Valid() && x.st == PlanAndPark(old(x.st), revisions, a, x.f) && r == x.st.status
  {
    hide Architect, RecordPlanContext, Post, SetState, Put;
    :- RunArchitectAndCommit(x, a);
    :- SavePlan(x, a.setup, revisions);
    :- x.PostComment(At(25));
    r := x.SetRunState(AwaitingPlanApproval, At(26));
  }

  method DoPlan(x: Execution, revisions: nat, a: Answers, at: Site) returns (r: Status)
    requires x.Active()
    modifies x`st, x.store`runs
    ensures x.Valid() && x.st == StartPlan(old(x.st), revisions, a, x.f, at) && r == x.st.status
  {
    hide SetState, PlanAndPark, OnRefusal, Stranding, Put;
    :- x.SetRunState(Planning, at);
    r := PlanTry(x, revisions, a);
    r := CatchRefusal(x, r, At(27), At(28));
    MarkStranded(x, r);
  }

  method RefuseUnready(x: Execution, spec: Spec) returns (r: Status)
    requires x.Active() && x.st.enq.None?
    modifies x`st, x.store
    ensures x.Valid() && x.st == DorRefusal(old(x.st), spec, x.f) && r == x.st.status
  {
    hide Post, SetContext, SetState, NoteStep, Enqueue, Put;
    r := x.PostComment(At(0));
    if r.IsFailure() {
      RefusalStopped(x.st, spec, x.f);
      return r;
    }
    var ctx := x.store.runs[x.key].ctx;
    if !ctx.dorReclarified && spec.openQuestions > 0 {
      :- x.SetRunContext(ctx.(dorReclarified := true), At(1));
      :- x.SetRunState(Specifying, At(2));
      x.Witness(Reclarified);
      r := x.AddNextJob(Clarify, "", At(3));
    } else {
      r := x.SetRunState(Failed, At(4));
    }
  }

  lemma RefusalStopped(st: St, spec: Spec, f: Faults)
    requires !Live(st)
    ensures Reclarify(st, f) == st && SetState(st, Failed, f, At(4)) == st
  {
    hide Post, SetContext, SetState, NoteStep, Enqueue;
  }

  method DoProducePlan(x: Execution, a: Answers) returns (r: Status)
    requires x.Active() && x.st.enq.None?
    modifies x`st, x.store
    ensures x.Valid() && x.st == HandleProducePlan(old(x.st), a, x.f) && r == x.st.status
  {
    hide DorRefusal, StartPlan, Put;
    var run := x.store.runs[x.key];
    if run.hasPlan || run.state != Specified || run.ctx.specData.None? { return Running; }
    var ready, _ := DefinitionOfReady(run.ctx.specData.value);
    if !ready {
      r := RefuseUnready(x, run.ctx.specData.value);
    } else {
      r := DoPlan(x, run.ctx.revisions, a, At(5));
    }
  }

  method Approve(x: Execution, body: string) returns (r: Status)
    requires x.Active() && x.st.enq.None?
    modifies x`st, x.store
    ensures x.Valid() && x.st == ApprovePlan(old(x.st), body, x.f) && r == x.st.status
  {
    hide NoteStep, Post, SetState, Enqueue, Put;
    x.Witness(Approved(body));
    :- x.PostComment(At(0));
    :- x.SetRunState(Implementing, At(1));
    r := x.AddNextJob(Implement, "", At(2));
  }

  method DoResumePlanDecision(x: Execution, body: string, a: Answers) returns (r: Status)
    requires x.Active() && x.st.enq.None?
    modifies x`st, x.store
    ensures x.Valid() && x.st == HandleResumePlanDecision(old(x.st), body, a, x.f) && r == x.st.status
  {
    hide ApprovePlan, CloseWith, Post, StartPlan, ParsePlanDecision, Put;
    var run := x.store.runs[x.key];
    if run.state != AwaitingPlanApproval { return Running; }
    var decision := ParsePlanDecision(body);
    if decision == PlanDecision.Approve { r := Approve(x, body); return; }
    if decision == Abort { r := Close(x, Aborted, At(3), At(4)); return; }
    if run.ctx.specData.None? { return Running; }
    if run.ctx.revisions >= PLAN_REVISION_CAP {
      r := x.PostComment(At(5));
    } else {
      r := DoPlan(x, run.ctx.revisions + 1, a, At(6));
    }
  }

  // ---- Implementing ----

  // Scaffolds a test setup if the plan gate consented to one and the checkout still lacks it.
  method Bootstrap(x: Execution, a: Answers) returns (r: Status)
    requires x.Active()
    modifies x`st, x.store`runs
    ensures x.Valid() && x.st == BootstrapStep(old(x.st), a, x.f) && r == x.st.status
  {
    hide Call, CloseWith, Effect, Put;
    if x.store.runs[x.key].ctx.bootstrap.None? { return Running; }
    :- x.Await(At(2));
    if !a.setupMissing { return Running; }
    :- x.Await(At(3));
    if !a.setupGreen {
      :- Close(x, Failed, At(4), At(5));
      x.Escape(Returned);
      return Returned;
    }
    :- x.Await(At(6));
    r := x.Do(SetupCommitted, At(7));
  }

  // The tasks of the decomposition, one after the other.
  method AddTasks(x: Execution, n: nat) returns (r: Status)
    requires x.Active()
    modifies x`st, x.store`runs, x.store`nextTaskId
    ensures x.Valid() && x.st == RecordTasks(old(x.st), n, x.f) && r == x.st.status
  {
    hide Ok, Watch, RecordTask, Tolerate, Put;
    var left := n;
    while left > 0
      invariant x.Active()
      invariant RecordTasks(x.st, left, x.f) == RecordTasks(old(x.st), n, x.f)
    {
      r := Running;
      :- x.AddTask(Record(left));
      left := left - 1;
    }
    return Running;
  }

  // Decomposes once; on a restart the tasks already exist.
  method Decompose(x: Execution, a: Answers) returns (r: Status)
    requires x.Active()
    modifies x`st, x.store`runs, x.store`nextTaskId
    ensures x.Valid() && x.st == DecomposeStep(old(x.st), a, x.f) && r == x.st.status
  {
    hide Ok, Watch, Ask, NoteStep, RecordTasks, Put;
    if |x.store.runs[x.key].tasks| > 0 { return Running; }
    r := x.AskModel(a.agent, At(8));
    if r.IsFailure() {
      TasksStopped(x.st, a.taskCount, x.f);
      return r;
    }
    x.Witness(Decomposed(a.taskCount));
    r := AddTasks(x, a.taskCount);
  }

  lemma TasksStopped(st: St, n: nat, f: Faults)
    requires !Live(st)
    ensures RecordTasks(st, n, f) == st
  {
  }

  // A previously stalled task landed: its gate state must not linger.
  method ForgetHelp(x: Execution, taskId: nat, at: Site) returns (r: Status)
    requires x.Active()
    modifies x`st, x.store`runs
    ensures x.Valid() && x.st == ClearHelp(old(x.st), taskId, x.f, at) && r == x.st.status
  {
    var ctx := x.store.runs[x.key].ctx;
    if ctx.implHelp.Some? && ctx.implHelp.value.taskId == taskId {
      r := x.SetRunContext(ctx.(implHelp := None), at);
    } else {
      return Running;
    }
  }

  // Parks at the help gate: where the run stalled, and the rounds it has used.
  method AskForHelp(x: Execution, i: nat) returns (r: Status)
    requires x.Active() && i < |x.st.run.tasks|
    modifies x`st, x.store`runs
    ensures x.Valid() && x.st == ParkStalled(old(x.st), i, x.f) && r == x.st.status
  {
    hide UpdateTask, SetContext, Post, SetState, Put;
    var ctx := x.store.runs[x.key].ctx;
    var rounds := if ctx.implHelp.Some? then ctx.implHelp.value.rounds else 0;
    var help := ImplHelp(x.store.runs[x.key].tasks[i].id, rounds, None);
    :- x.SetTask(i, Escalated, Turn(i, 3));
    :- x.SetRunContext(x.store.runs[x.key].ctx.(implHelp := Some(help)), Turn(i, 4));
    :- x.PostComment(Turn(i, 5));
    :- x.SetRunState(AwaitingImplHelp, Turn(i, 6));
    x.Escape(Returned);
    return Returned;
  }

  // The test-first attempt at one task: the calls it pays for, unless something throws.
  method AttemptTask(x: Execution, reply: TddReply) returns (r: Status)
    requires x.Active()
    modifies x`st, x.store`runs
    ensures x.Valid() && x.st == RunTdd(old(x.st), reply) && r == x.st.status
  {
    hide Spend, Put;
    :- x.SpendOn(reply.costs);
    if reply.fault.Some? {
      x.Escape(Threw(reply.fault.value));
      return Threw(reply.fault.value);
    }
    return Running;
  }

  method CloseTask(x: Execution, i: nat, taskId: nat, at: Site, clear: Site) returns (r: Status)
    requires x.Active() && i < |x.st.run.tasks|
    modifies x`st, x.store`runs
    ensures x.Valid() && r == x.st.status
    ensures x.st == ClearHelp(UpdateTask(old(x.st), i, Done, x.f, at), taskId, x.f, clear)
  {
    hide UpdateTask, ClearHelp, Put;
    :- x.SetTask(i, Done, at);
    r := ForgetHelp(x, taskId, clear);
  }

  method WorkOnTask(x: Execution, i: nat, a: Answers) returns (r: Status)
    requires x.Active() && i < |x.st.run.tasks|
    modifies x`st, x.store`runs
    ensures x.Valid() && x.st == TaskTurn(old(x.st), i, a, x.f) && r == x.st.status
  {
    hide RunTdd, ParkStalled, UpdateTask, ClearHelp, Call, Effect, NoteStep, CloseWith, Put;
    var run := x.store.runs[x.key];
    var taskId := run.tasks[i].id;
    if run.budget - run.spent <= 0 {
      :- Close(x, Failed, Turn(i, 0), Turn(i, 1));
      x.Escape(Returned);
      return Returned;
    }
    r := AttemptTask(x, a.tdd(i));
    if r.IsFailure() {
      TurnStopped(x.st, i, taskId, x.f);
      return r;
    }
    match a.tdd(i).outcome
    case Stalled => r := AskForHelp(x, i);
    case AlreadySatisfied =>
      x.Witness(FoundSatisfied(taskId));
      r := CloseTask(x, i, taskId, Turn(i, 7), Turn(i, 8));
    case Landed =>
      :- x.Await(Turn(i, 9));
      :- x.Do(TaskCommitted(taskId), Turn(i, 10));
      r := CloseTask(x, i, taskId, Turn(i, 11), Turn(i, 12));
  }

  // Every task that is not done yet, in order, until one of them stops the run.
  method WorkOnTasks(x: Execution, a: Answers) returns (r: Status)
    requires x.Active()
    modifies x`st, x.store`runs
    ensures x.Valid() && x.st == TaskLoop(old(x.st), 0, a, x.f) && r == x.st.status
  {
    hide TaskTurn, Put;
    var i := 0;
    while i < |x.store.runs[x.key].tasks|
      invariant x.Active() && i <= |x.st.run.tasks|
      invariant TaskLoop(x.st, i, a, x.f) == TaskLoop(old(x.st), 0, a, x.f)
      decreases |x.st.run.tasks| - i
    {
      if !x.store.runs[x.key].tasks[i].status.Done? {
        TurnKeepsCount(x.st, i, a, x.f);
        :- WorkOnTask(x, i, a);
      }
      i := i + 1;
    }
    return Running;
  }

  method ImplementTry(x: Execution, a: Answers) returns (r: Status)
    requires x.Active() && x.st.enq.None?
    modifies x`st, x.store
    ensures x.Valid() && x.st == ImplementBody(old(x.st), a, x.f) && r == x.st.status
  {
    hide BootstrapStep, DecomposeStep, Call, TaskLoop, HandToReview, Put;
    ghost var st0 := x.st;
    r := Bootstrap(x, a);
    ghost var st7 := x.st;
    if r.IsFailure() {
      LoopStopped(x.st, a, x.f);
      return r;
    }
    BootstrapEnqueuesNothing(st0, a, x.f);
    r := Decompose(x, a);
    if r.IsFailure() {
      LoopStopped(x.st, a, x.f);
      return r;
    }
    DecomposeEnqueuesNothing(st7, a, x.f);
    r := x.Await(At(9));
    if r.IsFailure() {
      LoopStopped(x.st, a, x.f);
      return r;
    }
    TaskLoopEnqueuesNothing(x.st, 0, a, x.f);
    r := WorkOnTasks(x, a);
    if r.IsFailure() {
      HandOverStopped(x.st, x.f);
      return r;
    }
    r := HandOver(x);
  }

  lemma BootstrapEnqueuesNothing(st: St, a: Answers, f: Faults)
    ensures BootstrapStep(st, a, f).enq == st.enq
  {
    hide Call, CloseWith, Effect, ReturnEarly, Note;
  }

  lemma DecomposeEnqueuesNothing(st: St, a: Answers, f: Faults)
    ensures DecomposeStep(st, a, f).enq == st.enq
  {
    hide Ask, RecordTasks;
  }

  lemma TaskTurnEnqueuesNothing(st: St, i: nat, a: Answers, f: Faults)
    requires i < |st.run.tasks|
    ensures TaskTurn(st, i, a, f).enq == st.enq
  {
    ParkEnqueuesNothing(RunTdd(st, a.tdd(i)), i, f);
    hide RunTdd, ParkStalled, UpdateTask, ClearHelp, Call, Effect, CloseWith, ReturnEarly;
  }

  lemma ParkEnqueuesNothing(st: St, i: nat, f: Faults)
    requires i < |st.run.tasks|
    ensures ParkStalled(st, i, f).enq == st.enq
  {
    hide UpdateTask, SetContext, Post, SetState, ReturnEarly;
  }

  lemma {:induction false} TaskLoopEnqueuesNothing(st: St, i: nat, a: Answers, f: Faults)
    requires i <= |st.run.tasks|
    ensures TaskLoop(st, i, a, f).enq == st.enq
    decreases |st.run.tasks| - i
  {
    if i < |st.run.tasks| && Live(st) {
      if st.run.tasks[i].status.Done? {
        TaskLoopEnqueuesNothing(st, i + 1, a, f);
      } else {
        TurnKeepsCount(st, i, a, f);
        TaskTurnEnqueuesNothing(st, i, a, f);
        TaskLoopEnqueuesNothing(TaskTurn(st, i, a, f), i + 1, a, f);
      }
    }
  }

  lemma HandOverStopped(st: St, f: Faults)
    requires !Live(st)
    ensures HandToReview(st, f) == st
  {
    hide Post, SetState, Enqueue;
  }

  lemma LoopStopped(st: St, a: Answers, f: Faults)
    requires !Live(st)
    ensures Call(st, f, At(9)) == st && TaskLoop(st, 0, a, f) == st && HandToReview(st, f) == st
  {
    HandOverStopped(st, f);
  }

  method HandOver(x: Execution) returns (r: Status)
    requires x.Active() && x.st.enq.None?
    modifies x`st, x.store
    ensures x.Valid() && x.st == HandToReview(old(x.st), x.f) && r == x.st.status
  {
    hide Post, SetState, Enqueue, Put;
    :- x.PostComment(At(10));
    :- x.SetRunState(Reviewing, At(11));
    r := x.AddNextJob(Review, "", At(12));
  }

  method DoImplement(x: Execution, a: Answers) returns (r: Status)
    requires x.Active() && x.st.enq.None?
    modifies x`st, x.store
    ensures x.Valid() && x.st == HandleImplement(old(x.st), a, x.f) && r == x.st.status
  {
    hide Call, ImplementBody, OnBudget, Closing, Put;
    var run := x.store.runs[x.key];
    if run.state != Implementing || !run.hasSpec || !run.hasPlan { return Running; }
    :- x.Await(At(0));
    :- x.Await(At(1));
    r := ImplementTry(x, a);
    r := CatchBudget(x, r, At(13), At(14));
    r := CloseSandbox(x, r, At(15));
  }

  // ---- The help gate ----

  method SaveGuidance(x: Execution, help: ImplHelp) returns (r: Status)
    requires x.Active()
    modifies x`st, x.store`runs
    ensures x.Valid() && x.st == AcceptGuidance(old(x.st), help, x.f, At(4)) && r == x.st.status
  {
    r := Running;
    :- x.Attempt(At(4));
    var run := x.store.runs[x.key];
    var guided := Note(run.(ctx := run.ctx.(implHelp := Some(help)), updatedAt := x.store.now), Guided);
    x.Write(guided, x.st.(run := guided));
    return Running;
  }

  method Resume(x: Execution, help: ImplHelp) returns (r: Status)
    requires x.Active() && x.st.enq.None?
    modifies x`st, x.store
    ensures x.Valid() && x.st == Guide(old(x.st), help, x.f) && r == x.st.status
  {
    hide AcceptGuidance, SetState, Enqueue, Post, Put;
    :- SaveGuidance(x, help);
    :- x.SetRunState(Implementing, At(5));
    :- x.AddNextJob(Implement, "", At(6));
    r := x.PostComment(At(7));
  }

  method DoResumeImplementation(x: Execution, body: string) returns (r: Status)
    requires x.Active() && x.st.enq.None?
    modifies x`st, x.store
    ensures x.Valid() && x.st == HandleResumeImplementation(old(x.st), body, x.f) && r == x.st.status
  {
    hide CloseWith, Guide, IsImplAbort, Put;
    var run := x.store.runs[x.key];
    if run.state != AwaitingImplHelp { return Running; }
    if IsImplAbort(body) { r := Close(x, Aborted, At(0), At(1)); return; }
    var help := run.ctx.implHelp.GetOr(ImplHelp(-1, 0, None));
    if help.rounds + 1 > IMPL_HELP_CAP {
      r := Close(x, Failed, At(2), At(3));
    } else {
      r := Resume(x, help.(rounds := help.rounds + 1, guidance := Some(body)));
    }
  }

  // ---- Reviewing and fixing ----

  method ReviewTry(x: Execution, a: Answers) returns (r: Status)
    requires x.Active()
    modifies x`st, x.store`runs
    ensures x.Valid() && x.st == ReviewBody(old(x.st), a, x.f) && r == x.st.status
  {
    hide Call, Ask, Effect, Post, SetState, Put;
    :- x.Await(At(0));
    :- x.AskModel(a.agent, At(1));
    var tasks := x.store.runs[x.key].tasks;
    :- x.Do(PrOpened(|tasks| - DoneCount(tasks), |tasks|), At(2));
    :- x.PostComment(At(3));
    r := x.SetRunState(AwaitingPrReview, At(4));
  }

  method DoReview(x: Execution, a: Answers) returns (r: Status)
    requires x.Active()
    modifies x`st, x.store`runs
    ensures x.Valid() && x.st == HandleReview(old(x.st), a, x.f) && r == x.st.status
  {
    hide ReviewBody, OnBudget, Put;
    var run := x.store.runs[x.key];
    if run.state != Reviewing || !run.hasSpec || !run.hasPlan || run.ctx.specData.None? || !run.ctx.planData {
      return Running;
    }
    r := ReviewTry(x, a);
    r := CatchBudget(x, r, At(5), At(6));
  }

  method LandFix(x: Execution) returns (r: Status)
    requires x.Active()
    modifies x`st, x.store`runs
    ensures x.Valid() && x.st == FixLanded(old(x.st), x.f, At(9), At(10)) && r == x.st.status
  {
    r := Running;
    :- x.Await(At(9));
    var noted := Note(x.store.runs[x.key], FixCommitted);
    x.Write(noted, x.st.(run := noted));
    :- x.Attempt(At(10));
    var counted := CountFixRound(noted, x.store.now);
    x.Write(counted, x.st.(run := counted));
    return Running;
  }

  method FixTry(x: Execution, a: Answers) returns (r: Status)
    requires x.Active()
    modifies x`st, x.store`runs
    ensures x.Valid() && x.st == FixInSandbox(old(x.st), a, x.f) && r == x.st.status
  {
    hide Call, RunTdd, CloseWith, Post, FixLanded, Put;
    :- x.Await(At(4));
    :- AttemptTask(x, a.tdd(0));
    match a.tdd(0).outcome
    case Stalled => r := Close(x, Failed, At(5), At(6));
    case AlreadySatisfied => r := x.PostComment(At(7));
    case Landed =>
      :- x.Await(At(8));
      :- LandFix(x);
      r := x.PostComment(At(11));
  }

  method FixOrEscalate(x: Execution, a: Answers) returns (r: Status)
    requires x.Active()
    modifies x`st, x.store`runs
    ensures x.Valid() && x.st == FixActionable(old(x.st), a, x.f) && r == x.st.status
  {
    hide Call, FixInSandbox, CloseWith, Closing, Put;
    if x.store.runs[x.key].ctx.fixRounds >= FIX_ROUND_CAP {
      r := Close(x, Failed, At(1), At(2));
    } else {
      :- x.Await(At(12));
      :- x.Await(At(13));
      r := FixTry(x, a);
      r := CloseSandbox(x, r, At(14));
    }
  }

  method TriageTry(x: Execution, body: string, a: Answers) returns (r: Status)
    requires x.Active() && x.st.enq.None?
    modifies x`st, x.store
    ensures x.Valid() && x.st == FixBody(old(x.st), body, a, x.f) && r == x.st.status
  {
    hide Ask, Post, SetState, Enqueue, FixActionable, Put;
    r := x.AskModel(a.agent, At(0));
    if r.IsFailure() {
      FixStopped(x.st, a, x.f);
      return r;
    }
    match a.triage
    case Vague => r := x.PostComment(At(1));
    case Rework =>
      :- x.PostComment(At(1));
      :- x.SetRunState(AwaitingPlanApproval, At(2));
      r := x.AddNextJob(ResumePlanDecision, body, At(3));
    case Actionable => r := FixOrEscalate(x, a);
  }

  lemma FixStopped(st: St, a: Answers, f: Faults)
    requires !Live(st)
    ensures FixActionable(st, a, f) == st
  {
    hide CloseWith, Call;
  }

  method DoFix(x: Execution, body: string, a: Answers) returns (r: Status)
    requires x.Active() && x.st.enq.None?
    modifies x`st, x.store
    ensures x.Valid() && x.st == HandleFix(old(x.st), body, a, x.f) && r == x.st.status
  {
    hide FixBody, OnBudget, Put;
    if x.store.runs[x.key].state != AwaitingPrReview { return Running; }
    r := TriageTry(x, body, a);
    r := CatchBudget(x, r, At(15), At(16));
  }

  // ---- Dispatch ----

  // The handler of the job's type runs; an early return is a return.
  method DispatchJob(kind: JobKind, body: string, x: Execution, a: Answers) returns (r: Status)
    requires x.Active() && x.st.enq.None?
    modifies x`st, x.store
    ensures x.Valid() && x.st == Handle(kind, body, old(x.st), a, x.f) && r == x.st.status
  {
    hide HandleIssueOpened, HandleProduceSpec, HandleClarify, HandleResumeClarification, HandleProducePlan;
    hide HandleResumePlanDecision, HandleImplement, HandleResumeImplementation, HandleReview, HandleFix, Put;
    match kind {
      case IssueOpened => r := DoIssueOpened(x);
      case ProduceSpec => r := DoProduceSpec(x, a);
      case Clarify => r := DoClarify(x, a);
      case ResumeClarification => r := DoResumeClarification(x, a);
      case ProducePlan => r := DoProducePlan(x, a);
      case ResumePlanDecision => r := DoResumePlanDecision(x, body, a);
      case Implement => r := DoImplement(x, a);
      case ResumeImplementation => r := DoResumeImplementation(x, body);
      case Review => r := DoReview(x, a);
      case Fix => r := DoFix(x, body, a);
    }
    if r.Returned? {
      x.Catch();
      r := Running;
    }
  }
}
