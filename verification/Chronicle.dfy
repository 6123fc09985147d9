// What a step of the system may add to the history of a run.
module Chronicle {
  import opened Wrappers
  import opened Pipeline
  import opened Plan
  import opened RunInvariant
  import opened Steps
  import opened HandlerSpec
  import opened RunSafety
  import opened RunProgress
  import opened JobQueue
  import opened Orchestration
  import opened WorldSafety
  import opened Locality
  import opened WorldFlow

  // Which of the events that decide something may be among the additions: plans put before the gate, code
  // commits, those of tasks among them, the mark of a run that is lost, and pull requests.
  datatype Scope = Scope(plans: bool, code: bool, tasks: bool, losses: bool, pulls: bool)

  const BARE := Scope(false, false, false, false, false)
  const SPECIFYING := BARE.(losses := true)
  const PUTTING := BARE.(plans := true)
  const PLANNING := PUTTING.(losses := true)
  const CODING := BARE.(code := true, tasks := true)
  const REVIEWING := BARE.(pulls := true)
  const FIXING := BARE.(code := true)

  predicate InScope(e: Event, s: Scope) {
    match e
    case PlanRecorded(_) => s.plans
    case SetupCommitted => s.code
    case FixCommitted => s.code
    case TaskCommitted(_) => s.tasks
    case FoundSatisfied(_) => s.tasks
    case Stranded => s.losses
    case PrOpened(_, _) => s.pulls
    case Approved(_) => false
    case Told(_) => false
    case _ => true
  }

  // The later history adds events in this scope only.
  predicate Adds(before: History, after: History, s: Scope) {
    before == after || (after.Then? && InScope(after.last, s) && Adds(before, after.past, s))
  }

  lemma {:induction false} AddsWider(a: History, b: History, s: Scope, t: Scope)
    requires Adds(a, b, s)
    requires (s.plans ==> t.plans) && (s.code ==> t.code) && (s.tasks ==> t.tasks)
    requires (s.losses ==> t.losses) && (s.pulls ==> t.pulls)
    ensures Adds(a, b, t)
  {
    if a != b { AddsWider(a, b.past, s, t); }
  }

  // ---- The calls ----

  lemma EffectAdds(h: History, st: St, e: Event, f: Faults, at: Site, s: Scope)
    requires Adds(h, st.run.history, s) && InScope(e, s)
    ensures Adds(h, Effect(st, e, f, at).run.history, s)
  {
    hide Effect, Ok, Watch;
  }

  lemma PostAdds(h: History, st: St, f: Faults, at: Site, s: Scope)
    requires Adds(h, st.run.history, s)
    ensures Adds(h, Post(st, f, at).run.history, s)
  {
    hide Ok, Watch, Adds, Effect, InScope;
    assert InScope(Commented, s) by { Spoken(s); }
    EffectAdds(h, st, Commented, f, at, s);
  }

  lemma Spoken(s: Scope)
    ensures InScope(Commented, s) && InScope(Reclarified, s) && InScope(Guided, s)
  {
  }

  lemma NoteAdds(h: History, st: St, e: Event, s: Scope)
    requires Adds(h, st.run.history, s) && InScope(e, s)
    ensures Adds(h, NoteStep(st, e).run.history, s)
  {
    hide NoteStep, Ok, Watch;
  }

  lemma CloseAdds(h: History, st: St, to: RunState, f: Faults, post: Site, close: Site, s: Scope)
    requires Adds(h, st.run.history, s)
    ensures Adds(h, CloseWith(st, to, f, post, close).run.history, s)
  {
    hide Ok, Watch, Adds, Post, SetState, SameMarks, MayEnter;
    PostAdds(h, st, f, post, s);
  }

  lemma BudgetAdds(h: History, st: St, f: Faults, post: Site, close: Site, s: Scope)
    requires Adds(h, st.run.history, s)
    ensures Adds(h, OnBudget(st, f, post, close).run.history, s)
    ensures Adds(h, OnRefusal(st, f, post, close).run.history, s)
  {
    hide Ok, Watch, Adds, CloseWith, Refused, SameMarks;
    CloseAdds(h, st.(status := Running), Failed, f, post, close, s);
  }

  lemma StrandingAdds(h: History, st: St, s: Scope)
    requires Adds(h, st.run.history, s) && s.losses
    ensures Adds(h, Stranding(st).run.history, s)
  {
    hide Ok, Watch, Adds, NoteStep;
    NoteAdds(h, st.(status := Running), Stranded, s);
  }

  // ---- The handlers, one by one ----

  lemma IssueOpenedAdds(st: St, f: Faults)
    ensures Adds(st.run.history, HandleIssueOpened(st, f).run.history, BARE)
  {
    hide Ok, Watch, Post, SetState, Enqueue, MayEnter;
    PostAdds(st.run.history, st, f, At(0), BARE);
  }

  lemma ProduceSpecBodyAdds(h: History, st: St, a: Answers, f: Faults)
    requires Adds(h, st.run.history, SPECIFYING)
    ensures Adds(h, ProduceSpecBody(st, a, f).run.history, SPECIFYING)
  {
    hide Ok, Watch, Adds, Ask, Effect, RecordSpec, Post, Stranding, SetContext, SetState, Enqueue, MayEnter;
    var st7 := Ask(Ask(st, a.intake, f, At(6)), a.agent, f, At(7));
    var st8 := Effect(st7, SpecCommitted, f, At(8));
    EffectAdds(h, st7, SpecCommitted, f, At(8), SPECIFYING);
    var st9 := RecordSpec(st8, f, At(9));
    PostAdds(h, st9, f, At(10), SPECIFYING);
    StrandingAdds(h, Post(st9, f, At(10)), SPECIFYING);
  }

  lemma ProduceSpecAdds(st: St, a: Answers, f: Faults)
    ensures Adds(st.run.history, HandleProduceSpec(st, a, f).run.history, SPECIFYING)
  {
    hide Ok, Watch, SetState, Call, Tolerate, CloseWith, OnBudget, ProduceSpecBody, SameMarks, MayEnter;
    var h := st.run.history;
    var st2 := Tolerate(Call(SetState(st, Specifying, f, At(0)), f, At(1)), f, At(2));
    CloseAdds(h, st2, Unsupported, f, At(3), At(4), SPECIFYING);
    var st5 := Call(st2, f, At(5));
    ProduceSpecBodyAdds(h, st5, a, f);
    BudgetAdds(h, ProduceSpecBody(st5, a, f), f, At(14), At(15), SPECIFYING);
  }

  lemma ClarifyAdds(st: St, a: Answers, f: Faults)
    ensures Adds(st.run.history, HandleClarify(st, a, f).run.history, BARE)
  {
    hide Ok, Watch, Adds, Tolerate, Ask, SetState, Enqueue, CloseWith, SetContext, Post, OnBudget, SameMarks, MayEnter;
    var h := st.run.history;
    Unchanged(h, BARE);
    var st1 := Ask(Tolerate(st, f, At(0)), a.agent, f, At(1));
    CloseAdds(h, st1, Failed, f, At(4), At(5), BARE);
    PostAdds(h, SetContext(st1, st1.run.ctx.(questions := a.questions), f, At(6)), f, At(7), BARE);
    BudgetAdds(h, ClarifyBody(Tolerate(st, f, At(0)), a, f), f, At(9), At(10), BARE);
  }

  lemma Unchanged(h: History, s: Scope)
    ensures Adds(h, h, s)
  {
  }

  lemma ResumeClarificationAdds(st: St, a: Answers, f: Faults)
    ensures Adds(st.run.history, HandleResumeClarification(st, a, f).run.history, BARE)
  {
    hide Ok, Watch, Adds, Call, Ask, Effect, RecordSpec, Post, SetContext, SetState, Enqueue, OnBudget, MayEnter;
    var h := st.run.history;
    Unchanged(h, BARE);
    var st0 := Call(st, f, At(0));
    var st1 := Ask(st0, a.agent, f, At(1));
    EffectAdds(h, st1, SpecCommitted, f, At(2), BARE);
    PostAdds(h, RecordSpec(Effect(st1, SpecCommitted, f, At(2)), f, At(3)), f, At(4), BARE);
    BudgetAdds(h, ResumeClarificationBody(st0, a, f), f, At(8), At(9), BARE);
  }

  lemma ArchitectAdds(h: History, st: St, a: Answers, f: Faults, s: Scope)
    requires Adds(h, st.run.history, s)
    ensures Adds(h, Architect(st, a, f).run.history, s)
  {
    hide Ok, Watch, Adds, Call, Throw, Ask, Effect, RecordPlan;
    var st21 := Ask(Call(st, f, At(20)), a.agent, f, At(21));
    EffectAdds(h, st21, PlanCommitted, f, At(22), s);
  }

  lemma RecordAdds(h: History, st: St, setup: Option<SetupAction>, revisions: nat, f: Faults, at: Site)
    requires Adds(h, st.run.history, PUTTING)
    ensures Adds(h, RecordPlanContext(st, setup, revisions, f, at).run.history, PUTTING)
  {
    hide Ok, Watch, RecordPlanContext;
  }

  lemma PlanAndParkAdds(h: History, st: St, revisions: nat, a: Answers, f: Faults)
    requires Adds(h, st.run.history, PUTTING)
    ensures Adds(h, PlanAndPark(st, revisions, a, f).run.history, PUTTING)
  {
    hide Ok, Watch, Adds, Architect, RecordPlanContext, Post, SetState, MayEnter;
    ArchitectAdds(h, st, a, f, PUTTING);
    RecordAdds(h, Architect(st, a, f), a.setup, revisions, f, At(24));
    PostAdds(h, RecordPlanContext(Architect(st, a, f), a.setup, revisions, f, At(24)), f, At(25), PUTTING);
  }

  lemma StartPlanAdds(st: St, revisions: nat, a: Answers, f: Faults, at: Site)
    ensures Adds(st.run.history, StartPlan(st, revisions, a, f, at).run.history, PLANNING)
  {
    hide Ok, Watch, Adds, SetState, PlanAndPark, OnRefusal, Stranding, MayEnter;
    var h := st.run.history;
    Unchanged(h, PLANNING);
    var st5 := SetState(st, Planning, f, at);
    Unchanged(h, PUTTING);
    PlanAndParkAdds(h, st5, revisions, a, f);
    AddsWider(h, PlanAndPark(st5, revisions, a, f).run.history, PUTTING, PLANNING);
    BudgetAdds(h, PlanAndPark(st5, revisions, a, f), f, At(27), At(28), PLANNING);
    StrandingAdds(h, OnRefusal(PlanAndPark(st5, revisions, a, f), f, At(27), At(28)), PLANNING);
  }

  lemma ProducePlanAdds(st: St, a: Answers, f: Faults)
    ensures Adds(st.run.history, HandleProducePlan(st, a, f).run.history, PLANNING)
  {
    hide Ok, Watch, Adds, Post, SetContext, SetState, NoteStep, Enqueue, StartPlan, MayEnter;
    var h := st.run.history;
    Unchanged(h, PLANNING);
    Spoken(PLANNING);
    StartPlanAdds(st, st.run.ctx.revisions, a, f, At(5));
    PostAdds(h, st, f, At(0), PLANNING);
    var st0 := Post(st, f, At(0));
    var st2 := SetState(SetContext(st0, st0.run.ctx.(dorReclarified := true), f, At(1)), Specifying, f, At(2));
    NoteAdds(h, st2, Reclarified, PLANNING);
  }

  lemma ReviseAdds(st: St, a: Answers, f: Faults)
    ensures Adds(st.run.history, Revise(st, a, f).run.history, PLANNING)
  {
    hide Ok, Watch, Adds, Post, StartPlan;
    Unchanged(st.run.history, PLANNING);
    PostAdds(st.run.history, st, f, At(5), PLANNING);
    StartPlanAdds(st, st.run.ctx.revisions + 1, a, f, At(6));
  }

  // An approval is noted first.
  lemma ApprovePlanAdds(st: St, body: string, f: Faults)
    requires Live(st)
    ensures Adds(Then(st.run.history, Approved(body)), ApprovePlan(st, body, f).run.history, BARE)
  {
    hide Ok, Watch, Adds, NoteStep, Post, SetState, Enqueue, MayEnter;
    var noted := NoteStep(st, Approved(body));
    Unchanged(noted.run.history, BARE);
    PostAdds(noted.run.history, noted, f, At(0), BARE);
  }

  lemma BootstrapAdds(h: History, st: St, a: Answers, f: Faults, s: Scope)
    requires Adds(h, st.run.history, s) && s.code
    ensures Adds(h, BootstrapStep(st, a, f).run.history, s)
  {
    hide Ok, Watch, Adds, Call, ReturnEarly, CloseWith, Effect, SameMarks;
    var st2 := Call(st, f, At(2));
    var st3 := Call(st2, f, At(3));
    CloseAdds(h, st3, Failed, f, At(4), At(5), s);
    EffectAdds(h, Call(st3, f, At(6)), SetupCommitted, f, At(7), s);
  }

  lemma DecomposeAdds(h: History, st: St, a: Answers, f: Faults, s: Scope)
    requires Adds(h, st.run.history, s)
    ensures Adds(h, DecomposeStep(st, a, f).run.history, s)
  {
    hide Ok, Watch, Adds, Ask, NoteStep, RecordTasks;
    var asked := Ask(st, a.agent, f, At(8));
    NoteAdds(h, asked, Decomposed(a.taskCount), s);
  }

  lemma ParkStalledAdds(h: History, st: St, i: nat, f: Faults, s: Scope)
    requires Adds(h, st.run.history, s) && i < |st.run.tasks|
    ensures Adds(h, ParkStalled(st, i, f).run.history, s)
  {
    hide Ok, Watch, Adds, UpdateTask, SetContext, Post, SetState, ReturnEarly, MayEnter, DoneCount;
    var rounds := if st.run.ctx.implHelp.Some? then st.run.ctx.implHelp.value.rounds else 0;
    var help := ImplHelp(st.run.tasks[i].id, rounds, None);
    var st3 := UpdateTask(st, i, Escalated, f, Turn(i, 3));
    var st4 := SetContext(st3, st3.run.ctx.(implHelp := Some(help)), f, Turn(i, 4));
    PostAdds(h, st4, f, Turn(i, 5), s);
  }

  lemma TaskTurnAdds(h: History, st: St, i: nat, a: Answers, f: Faults, s: Scope)
    requires Adds(h, st.run.history, s) && i < |st.run.tasks| && s.tasks
    ensures Adds(h, TaskTurn(st, i, a, f).run.history, s)
  {
    hide Ok, Watch, Adds, RunTdd, ParkStalled, UpdateTask, ClearHelp, Call, Effect, CloseWith, ReturnEarly, DoneCount;
    hide SameMarks;
    var st1 := RunTdd(st, a.tdd(i));
    CloseAdds(h, st, Failed, f, Turn(i, 0), Turn(i, 1), s);
    ParkStalledAdds(h, st1, i, f, s);
    NoteAdds(h, st1, FoundSatisfied(st.run.tasks[i].id), s);
    EffectAdds(h, Call(st1, f, Turn(i, 9)), TaskCommitted(st.run.tasks[i].id), f, Turn(i, 10), s);
  }

  lemma {:induction false} TaskLoopAdds(h: History, st: St, i: nat, a: Answers, f: Faults, s: Scope)
    requires Adds(h, st.run.history, s) && i <= |st.run.tasks| && s.tasks
    ensures Adds(h, TaskLoop(st, i, a, f).run.history, s)
    decreases |st.run.tasks| - i
  {
    hide Adds, TaskTurn, Watch;
    if i < |st.run.tasks| && Live(st) {
      if st.run.tasks[i].status.Done? {
        TaskLoopAdds(h, st, i + 1, a, f, s);
      } else {
        TaskTurnAdds(h, st, i, a, f, s);
        TurnKeepsCount(st, i, a, f);
        TaskLoopAdds(h, TaskTurn(st, i, a, f), i + 1, a, f, s);
      }
    }
  }

  lemma HandToReviewAdds(h: History, st: St, f: Faults, s: Scope)
    requires Adds(h, st.run.history, s)
    ensures Adds(h, HandToReview(st, f).run.history, s)
  {
    hide Ok, Watch, Adds, Post, SetState, Enqueue, MayEnter;
    PostAdds(h, st, f, At(10), s);
  }

  // Some task is still to be done, or the plan is not taken apart yet.
  predicate HasOpenTasks(r: Run) {
    r.tasks == [] || DoneCount(r.tasks) < |r.tasks|
  }

  // A loop over closed tasks does nothing.
  lemma {:induction false} ClosedLoop(st: St, i: nat, a: Answers, f: Faults)
    requires i <= |st.run.tasks| && DoneCount(st.run.tasks) == |st.run.tasks|
    ensures TaskLoop(st, i, a, f) == st
    decreases |st.run.tasks| - i
  {
    hide DoneCount, TaskTurn;
    if i < |st.run.tasks| { ClosedLoop(st, i + 1, a, f); }
  }

  lemma ImplementRestAdds(h: History, st: St, a: Answers, f: Faults, s: Scope)
    requires Adds(h, st.run.history, s) && (s.tasks || !HasOpenTasks(st.run))
    ensures var st8 := if Live(st) then DecomposeStep(st, a, f) else st;
      Adds(h, HandToReview(TaskLoop(Call(st8, f, At(9)), 0, a, f), f).run.history, s)
  {
    hide Ok, Watch, Adds, DecomposeStep, Call, TaskLoop, HandToReview, DoneCount;
    DecomposeAdds(h, st, a, f, s);
    var st8 := if Live(st) then DecomposeStep(st, a, f) else st;
    if !HasOpenTasks(st.run) {
      TakenApart(st, a, f);
      ClosedLoop(Call(st8, f, At(9)), 0, a, f);
    } else {
      TaskLoopAdds(h, Call(st8, f, At(9)), 0, a, f, s);
    }
    HandToReviewAdds(h, TaskLoop(Call(st8, f, At(9)), 0, a, f), f, s);
  }

  lemma TakenApart(st: St, a: Answers, f: Faults)
    requires st.run.tasks != []
    ensures DecomposeStep(st, a, f) == st
  {
  }

  lemma BootstrapKeepsTasks(st: St, a: Answers, f: Faults)
    ensures BootstrapStep(st, a, f).run.tasks == st.run.tasks
  {
    hide Ok, Watch, Call, ReturnEarly, CloseWith, Effect, SameMarks;
  }

  lemma ImplementAdds(st: St, a: Answers, f: Faults)
    ensures Adds(st.run.history, HandleImplement(st, a, f).run.history, BARE.(code := true, tasks := HasOpenTasks(st.run)))
  {
    hide Ok, Watch, Adds, Call, BootstrapStep, DecomposeStep, TaskLoop, HandToReview, OnBudget, Closing, HasOpenTasks;
    var h, s := st.run.history, BARE.(code := true, tasks := HasOpenTasks(st.run));
    Unchanged(h, s);
    var st1 := Call(Call(st, f, At(0)), f, At(1));
    BootstrapAdds(h, st1, a, f, s);
    BootstrapKeepsTasks(st1, a, f);
    SameOpenTasks(st.run, BootstrapStep(st1, a, f).run);
    ImplementRestAdds(h, BootstrapStep(st1, a, f), a, f, s);
    BudgetAdds(h, ImplementBody(st1, a, f), f, At(13), At(14), s);
  }

  lemma SameOpenTasks(r: Run, t: Run)
    requires r.tasks == t.tasks
    ensures HasOpenTasks(r) == HasOpenTasks(t)
  {
  }

  lemma GuidanceAdds(h: History, st: St, help: ImplHelp, f: Faults, at: Site)
    requires Adds(h, st.run.history, BARE)
    ensures Adds(h, AcceptGuidance(st, help, f, at).run.history, BARE)
  {
    hide Ok, Watch, AcceptGuidance;
  }

  lemma ResumeImplementationAdds(st: St, body: string, f: Faults)
    ensures Adds(st.run.history, HandleResumeImplementation(st, body, f).run.history, BARE)
  {
    hide Ok, Watch, Adds, CloseWith, AcceptGuidance, SetState, Enqueue, Post, IsImplAbort, SameMarks, MayEnter;
    var h := st.run.history;
    Unchanged(h, BARE);
    CloseAdds(h, st, Aborted, f, At(0), At(1), BARE);
    CloseAdds(h, st, Failed, f, At(2), At(3), BARE);
    var help := st.run.ctx.implHelp.GetOr(ImplHelp(-1, 0, None));
    var next := help.(rounds := help.rounds + 1, guidance := Some(body));
    GuidanceAdds(h, st, next, f, At(4));
    var st6 := Enqueue(SetState(AcceptGuidance(st, next, f, At(4)), Implementing, f, At(5)), Implement, "", f, At(6));
    PostAdds(h, st6, f, At(7), BARE);
  }

  lemma ReviewAdds(st: St, a: Answers, f: Faults)
    ensures Adds(st.run.history, HandleReview(st, a, f).run.history, REVIEWING)
  {
    hide Ok, Watch, Adds, Call, Ask, Effect, Post, SetState, OnBudget, DoneCount, MayEnter;
    var h := st.run.history;
    Unchanged(h, REVIEWING);
    var st1 := Ask(Call(st, f, At(0)), a.agent, f, At(1));
    var opening := PrOpened(|st1.run.tasks| - DoneCount(st1.run.tasks), |st1.run.tasks|);
    EffectAdds(h, st1, opening, f, At(2), REVIEWING);
    PostAdds(h, Effect(st1, opening, f, At(2)), f, At(3), REVIEWING);
    BudgetAdds(h, ReviewBody(st, a, f), f, At(5), At(6), REVIEWING);
  }

  lemma FixLandedAdds(h: History, st: St, f: Faults, commit: Site, count: Site)
    requires Adds(h, st.run.history, FIXING)
    ensures Adds(h, FixLanded(st, f, commit, count).run.history, FIXING)
  {
    hide Ok, Watch, Call, Tolerate, SameMarks, MayFix;
  }

  lemma FixInSandboxAdds(h: History, st: St, a: Answers, f: Faults)
    requires Adds(h, st.run.history, FIXING)
    ensures Adds(h, FixInSandbox(st, a, f).run.history, FIXING)
  {
    hide Ok, Watch, Adds, Call, RunTdd, CloseWith, Post, FixLanded, SameMarks, MayFix;
    var st1 := RunTdd(Call(st, f, At(4)), a.tdd(0));
    CloseAdds(h, st1, Failed, f, At(5), At(6), FIXING);
    PostAdds(h, st1, f, At(7), FIXING);
    var st8 := Call(st1, f, At(8));
    FixLandedAdds(h, st8, f, At(9), At(10));
    PostAdds(h, FixLanded(st8, f, At(9), At(10)), f, At(11), FIXING);
  }

  lemma FixActionableAdds(h: History, st: St, a: Answers, f: Faults)
    requires Adds(h, st.run.history, FIXING)
    ensures Adds(h, FixActionable(st, a, f).run.history, FIXING)
  {
    hide Ok, Watch, Adds, Call, CloseWith, Closing, FixInSandbox, SameMarks;
    CloseAdds(h, st, Failed, f, At(1), At(2), FIXING);
    FixInSandboxAdds(h, Call(Call(st, f, At(12)), f, At(13)), a, f);
  }

  lemma FixAdds(st: St, body: string, a: Answers, f: Faults)
    ensures Adds(st.run.history, HandleFix(st, body, a, f).run.history, FIXING)
  {
    hide Ok, Watch, Adds, Ask, Post, SetState, Enqueue, FixActionable, OnBudget, MayEnter;
    var h := st.run.history;
    Unchanged(h, FIXING);
    var st0 := Ask(st, a.agent, f, At(0));
    PostAdds(h, st0, f, At(1), FIXING);
    FixActionableAdds(h, st0, a, f);
    BudgetAdds(h, FixBody(st, body, a, f), f, At(15), At(16), FIXING);
  }

  // ---- All handlers ----

  predicate TakesApproval(kind: JobKind, body: string, r: Run) {
    kind.ResumePlanDecision? && r.state.AwaitingPlanApproval? && ParsePlanDecision(body).Approve?
  }

  function ScopeOf(kind: JobKind, r: Run): Scope {
    Scope(kind.ProducePlan? || kind.ResumePlanDecision?, kind.Implement? || kind.Fix?,
          kind.Implement? && HasOpenTasks(r), kind.ProduceSpec? || kind.ProducePlan? || kind.ResumePlanDecision?,
          kind.Review?)
  }

  // What the execution of a job, and what follows in the same step, may add to the history of its run.
  predicate Moves(kind: JobKind, body: string, before: Run, after: Run) {
    if TakesApproval(kind, body, before)
    then Adds(Then(before.history, Approved(body)), after.history, BARE)
    else Adds(before.history, after.history, ScopeOf(kind, before))
  }

  lemma DecisionMoves(st: St, body: string, a: Answers, f: Faults)
    requires Live(st)
    ensures Moves(ResumePlanDecision, body, st.run, HandleResumePlanDecision(st, body, a, f).run)
  {
    hide Ok, Watch, Adds, ApprovePlan, CloseWith, Revise, ParsePlanDecision, HasOpenTasks, SameMarks;
    Unchanged(st.run.history, PLANNING);
    ApprovePlanAdds(st, body, f);
    CloseAdds(st.run.history, st, Aborted, f, At(3), At(4), PLANNING);
    ReviseAdds(st, a, f);
  }

  lemma HandleMoves(kind: JobKind, body: string, st: St, a: Answers, f: Faults)
    requires Live(st)
    ensures Moves(kind, body, st.run, Handle(kind, body, st, a, f).run)
  {
    hide HandleIssueOpened, HandleProduceSpec, HandleClarify, HandleResumeClarification, HandleProducePlan;
    hide HandleResumePlanDecision, HandleImplement, HandleResumeImplementation, HandleReview, HandleFix;
    hide Adds, HasOpenTasks, ParsePlanDecision;
    match kind
    case IssueOpened => IssueOpenedAdds(st, f);
    case ProduceSpec => ProduceSpecAdds(st, a, f);
    case Clarify => ClarifyAdds(st, a, f);
    case ResumeClarification => ResumeClarificationAdds(st, a, f);
    case ProducePlan => ProducePlanAdds(st, a, f);
    case ResumePlanDecision => DecisionMoves(st, body, a, f);
    case Implement => ImplementAdds(st, a, f);
    case ResumeImplementation => ResumeImplementationAdds(st, body, f);
    case Review => ReviewAdds(st, a, f);
    case Fix => FixAdds(st, body, a, f);
  }

  // ---- Steps of the system ----

  lemma DeathAdds(h: History, w: World, key: RunKey, s: Scope)
    requires key in w.runs && Adds(h, w.runs[key].history, s)
    ensures key in Die(w, key).runs && Adds(h, Die(w, key).runs[key].history, s)
    ensures Die(w, key).runs[key].tasks == w.runs[key].tasks
  {
  }

  lemma CloseRunAdds(h: History, w: World, key: RunKey, s: Scope)
    requires key in w.runs && Adds(h, w.runs[key].history, s)
    ensures key in CloseRun(w, key).runs && Adds(h, CloseRun(w, key).runs[key].history, s)
    ensures CloseRun(w, key).runs[key].tasks == w.runs[key].tasks
  {
  }

  lemma SettleAdds(h: History, w: World, id: nat, key: RunKey, status: Status, f: Faults, s: Scope)
    requires id in w.queue.jobs && key in w.runs && Adds(h, w.runs[key].history, s)
    ensures var z := Settle(w, id, key, status, f);
      key in z.runs && Adds(h, z.runs[key].history, s) && z.runs[key].tasks == w.runs[key].tasks
  {
    hide Adds, Die, CloseRun, FailOrRetryJob, MarkJobDone;
    var retried := w.(queue := FailOrRetryJob(w.queue, id, w.now));
    var closed := CloseRun(w, key);
    DeathAdds(h, w, key, s);
    CloseRunAdds(h, w, key, s);
    DeathAdds(h, closed, key, s);
    DeathAdds(h, retried, key, s);
    CloseRunAdds(h, retried, key, s);
  }

  // One execution of a job, settled or cut short.
  lemma DispatchMoves(w: World, id: nat, a: Answers, f: Faults)
    requires WorldInv(w) && id in w.queue.jobs && w.queue.jobs[id].key in w.runs
    ensures var job := w.queue.jobs[id];
      var z := Dispatch(w, id, a, f);
      job.key in z.runs && Moves(job.kind, job.body, w.runs[job.key], z.runs[job.key])
  {
    hide WorldInv, Handle, Settle, Put, Adds, TakesApproval, ScopeOf;
    var job := w.queue.jobs[id];
    var before := w.runs[job.key];
    var st := Handle(job.kind, job.body, Open(w, job.key), a, f);
    var put := Put(w, job.key, st);
    HandleMoves(job.kind, job.body, Open(w, job.key), a, f);
    PutShape(w, id, job.key, st);
    PutKeepsJob(w, job.key, st, id);
    var took := TakesApproval(job.kind, job.body, before);
    SettleAdds(if took then Then(before.history, Approved(job.body)) else before.history,
               put, id, job.key, st.status, f, if took then BARE else ScopeOf(job.kind, before));
  }

  // As `Moves`, but the worker may have died before it began.
  predicate MayMove(kind: JobKind, body: string, before: Run, after: Run) {
    Adds(before.history, after.history, ScopeOf(kind, before)) || Moves(kind, body, before, after)
  }

  lemma ProcessClaimedMoves(w: World, id: nat, job: Job, c: Config, onSubscription: bool, a: Answers, f: Faults)
    requires WorldInv(w) && id in w.queue.jobs && IsLive(w.queue.jobs[id])
    requires job.key == w.queue.jobs[id].key && job.kind == w.queue.jobs[id].kind && job.body == w.queue.jobs[id].body
    requires job.kind.IssueOpened? || job.key in w.runs
    ensures var z := ProcessClaimed(w, id, job, c, onSubscription, a, f);
      && job.key in z.runs
      && (job.key in w.runs ==> MayMove(job.kind, job.body, w.runs[job.key], z.runs[job.key]))
      && (job.key !in w.runs ==> Adds(Start, z.runs[job.key].history, BARE))
  {
    hide WorldInv, Dispatch, Admit, Die, Adds, HasOpenTasks, ParsePlanDecision;
    var dies := f(At(90)) == Some(Died);
    var admitted := Admit(w, job, c, onSubscription, dies);
    AdmitSafe(w, job, c, onSubscription, dies);
    AdmitHasRun(w, job, c, onSubscription, dies);
    AdmitKeepsQueue(w, job, c, onSubscription, dies);
    if job.key in w.runs {
      ExistingAdmitted(w, job, c, onSubscription, dies);
    } else {
      NewIsBlank(w, job, c, onSubscription, dies);
    }
    var run := admitted.runs[job.key];
    Unchanged(run.history, ScopeOf(job.kind, run));
    if dies {
      DeathAdds(run.history, admitted, job.key, ScopeOf(job.kind, run));
    } else {
      DispatchMoves(admitted, id, a, f);
    }
  }

  lemma NewIsBlank(w: World, job: Job, c: Config, onSubscription: bool, dies: bool)
    requires job.kind.IssueOpened? && job.key !in w.runs
    ensures var z := Admit(w, job, c, onSubscription, dies);
      job.key in z.runs && z.runs[job.key].history == Start
  {
  }

  // One step of the worker: the history of the job's run grows by what its handler may add.
  lemma ProcessMoves(w: World, id: nat, c: Config, onSubscription: bool, a: Answers, f: Faults)
    requires WorldInv(w) && id in w.queue.jobs && Claimable(w.queue.jobs[id], w.now)
    ensures var job := w.queue.jobs[id];
      var z := ProcessJob(w, id, c, onSubscription, a, f);
      && (job.key in w.runs ==> job.key in z.runs && MayMove(job.kind, job.body, w.runs[job.key], z.runs[job.key]))
      && (job.key !in w.runs && job.key in z.runs ==> Adds(Start, z.runs[job.key].history, BARE))
  {
    hide WorldInv, ProcessClaimed, JobFits, Die, Adds, Moves;
    var job := w.queue.jobs[id];
    var claimed := w.(queue := ClaimJob(w.queue, id, w.now));
    FitOf(w, id);
    JobHasRun(w, job);
    ClaimSafe(w, id);
    if f(At(89)) == Some(Died) {
      if job.key in w.runs {
        Unchanged(w.runs[job.key].history, ScopeOf(job.kind, w.runs[job.key]));
        DeathAdds(w.runs[job.key].history, claimed, job.key, ScopeOf(job.kind, w.runs[job.key]));
      } else {
        NoRunDies(claimed, job.key);
      }
    } else {
      ProcessClaimedMoves(claimed, id, job, c, onSubscription, a, f);
    }
  }

  lemma NoRunDies(w: World, key: RunKey)
    requires key !in w.runs
    ensures Die(w, key).runs == w.runs
  {
  }

  lemma SweptRunAdds(r: Run, now: int, post: PostOutcome)
    ensures Adds(r.history, SweptRun(r, now, post).history, BARE)
    ensures SweptRun(r, now, post).tasks == r.tasks
  {
  }
}
