// What a handler makes of its answers: how an execution that returns leaves its run, its history and the
// queue, whatever calls it tolerated on the way.
module Outcomes {
  import opened Wrappers
  import opened Pipeline
  import opened Plan
  import opened RunInvariant
  import opened Steps
  import opened HandlerSpec
  import opened RunSafety
  import opened RunProgress

  // The run a handler leaves, but for the time of its last write, and the job it enqueues.
  datatype Result = Result(run: Run, enq: Option<NewJob>)

  predicate Gives(r: St, e: Result) {
    Same(r.run, e.run) && r.enq == e.enq
  }

  // The times of the last writes aside.
  predicate Same(r: Run, t: Run) {
    r == t.(updatedAt := r.updatedAt)
  }

  function After(r: Run, e: Event): Run {
    r.(history := Then(r.history, e))
  }

  // One model call more.
  function Paid(r: Run, cost: nat): Run {
    r.(spent := r.spent + cost, calls := r.calls + [cost])
  }

  // With a comment, in its last state or in this one.
  function ClosedAs(r: Run, s: RunState): Result {
    Result(After(r, Commented).(state := s), None)
  }

  function Idle(r: Run): Result {
    Result(r, None)
  }

  // ---- Specifying ----

  function Acknowledgement(r: Run): Result {
    if !r.state.Received? then Idle(r)
    else Result(After(r, Commented).(state := Acknowledged), Some(NewJob(ProduceSpec, "")))
  }

  // The first spec is committed, recorded, told and kept as the agent drafted it.
  function Specification(r: Run, a: Answers): Result {
    if r.hasSpec then Idle(r)
    else if !a.supported then ClosedAs(r, Unsupported)
    else if Exhausted(r) then ClosedAs(r, Failed)
    else if Exhausted(Paid(r, a.intake.cost)) then ClosedAs(Paid(r, a.intake.cost), Failed)
    else
      var paid := Paid(Paid(r, a.intake.cost), a.agent.cost);
      var told := After(After(paid, SpecCommitted), Commented);
      var ctx := r.ctx.(specData := Some(a.spec));
      Result(told.(state := Specifying, hasSpec := true, ctx := ctx), Some(NewJob(Clarify, "")))
  }

  function Clarification(r: Run, a: Answers): Result {
    if !Acts(Clarify, r) then Idle(r)
    else if Exhausted(r) then ClosedAs(r, Failed)
    else
      var paid := Paid(r, a.agent.cost);
      if a.questions == 0 then Result(paid.(state := Specified), Some(NewJob(ProducePlan, "")))
      else if a.questions > 4 then ClosedAs(paid, Failed)
      else Result(After(paid, Commented).(state := AwaitingClarification, ctx := r.ctx.(questions := a.questions)), None)
  }

  // The spec re-emitted from the answers replaces the old one.
  function AnsweredClarification(r: Run, a: Answers): Result {
    if !Acts(ResumeClarification, r) then Idle(r)
    else if Exhausted(r) then ClosedAs(r, Failed)
    else
      var told := After(After(Paid(r, a.agent.cost), SpecCommitted), Commented);
      Result(told.(state := Specified, ctx := r.ctx.(specData := Some(a.spec))), Some(NewJob(ProducePlan, "")))
  }

  // ---- Planning ----

  // The plan is committed, recorded with the set-up it announces, told, and waits at the gate.
  function Planned(r: Run, revisions: nat, a: Answers): Result {
    if (a.setup.Some? && !a.recipe) || Exhausted(r) then ClosedAs(r, Failed)
    else
      var ctx := r.ctx.(planData := true, bootstrap := a.setup, revisions := revisions);
      var told := After(After(After(Paid(r, a.agent.cost), PlanCommitted), PlanRecorded(a.setup.Some?)), Commented);
      Result(told.(state := AwaitingPlanApproval, hasPlan := true, ctx := ctx), None)
  }

  // A spec that is not ready goes back to clarification once, if it is open questions that remain.
  function FirstPlan(r: Run, a: Answers): Result {
    if !Acts(ProducePlan, r) then Idle(r)
    else
      var spec := r.ctx.specData.value;
      if IsReady(spec) then Planned(r, r.ctx.revisions, a)
      else if !r.ctx.dorReclarified && spec.openQuestions > 0 then
        Result(After(After(r, Commented), Reclarified).(state := Specifying, ctx := r.ctx.(dorReclarified := true)),
               Some(NewJob(Clarify, "")))
      else ClosedAs(r, Failed)
  }

  function Decision(r: Run, body: string, a: Answers): Result {
    if !Acts(ResumePlanDecision, r) then Idle(r)
    else if Commands(body, "approve") then
      Result(After(After(r, Approved(body)), Commented).(state := Implementing), Some(NewJob(Implement, "")))
    else if Commands(body, "abort") then ClosedAs(r, Aborted)
    else if r.ctx.specData.None? then Idle(r)
    else if r.ctx.revisions >= PLAN_REVISION_CAP then ClosedAs(r, r.state)
    else Planned(r, r.ctx.revisions + 1, a)
  }

  // ---- Help and review ----

  function Guidance(r: Run, body: string): Result {
    if !Acts(ResumeImplementation, r) then Idle(r)
    else if IsImplAbort(body) then ClosedAs(r, Aborted)
    else
      var help := r.ctx.implHelp.GetOr(ImplHelp(-1, 0, None));
      if help.rounds >= IMPL_HELP_CAP then ClosedAs(r, Failed)
      else
        var next := ImplHelp(help.taskId, help.rounds + 1, Some(body));
        var told := After(After(r, Guided), Commented);
        Result(told.(state := Implementing, ctx := r.ctx.(implHelp := Some(next))), Some(NewJob(Implement, "")))
  }

  function Reviewed(r: Run, a: Answers): Result {
    if !Acts(Review, r) then Idle(r)
    else if Exhausted(r) then ClosedAs(r, Failed)
    else
      var open := |r.tasks| - DoneCount(r.tasks);
      ClosedAs(After(Paid(r, a.agent.cost), PrOpened(open, |r.tasks|)), AwaitingPrReview)
  }

  // The calls of one attempt, paid for until the budget is used up.
  function Spent(r: Run, costs: seq<nat>): Run
    decreases |costs|
  {
    if costs == [] || Exhausted(r) then r else Spent(Paid(r, costs[0]), costs[1..])
  }

  // Before each of the calls some of the budget is left.
  predicate CanSpend(r: Run, costs: seq<nat>) {
    forall k | 0 <= k < |costs| :: r.spent + Sum(costs[..k]) < r.budget
  }

  function Fixed(r: Run, body: string, a: Answers): Result {
    if !Acts(Fix, r) then Idle(r)
    else if Exhausted(r) then ClosedAs(r, Failed)
    else
      var paid := Paid(r, a.agent.cost);
      match a.triage
      case Vague => Idle(After(paid, Commented))
      case Rework =>
        Result(After(paid, Commented).(state := AwaitingPlanApproval), Some(NewJob(ResumePlanDecision, body)))
      case Actionable =>
        if r.ctx.fixRounds >= FIX_ROUND_CAP then ClosedAs(paid, Failed) else Attempted(paid, a.tdd(0))
  }

  function Attempted(r: Run, t: TddReply): Result {
    var spent := Spent(r, t.costs);
    if !CanSpend(r, t.costs) || t.outcome.Stalled? then ClosedAs(spent, Failed)
    else if t.outcome.AlreadySatisfied? then Idle(After(spent, Commented))
    else
      var fixed := After(After(spent, FixCommitted), Commented);
      Idle(fixed.(ctx := r.ctx.(fixRounds := r.ctx.fixRounds + 1)))
  }

  // ---- Implementing ----

  // How far the task loop came; `over` if the run left it for a gate or was closed.
  datatype Progress = Progress(run: Run, over: bool)

  // The task is closed, and help that was asked for it is over.
  function Closed(r: Run, i: nat): Run
    requires i < |r.tasks|
  {
    var mine := r.ctx.implHelp.Some? && r.ctx.implHelp.value.taskId == r.tasks[i].id;
    r.(tasks := WithStatus(r.tasks, i, Done), ctx := if mine then r.ctx.(implHelp := None) else r.ctx)
  }

  // The task is given up, and the run asks for help with it.
  function Parked(r: Run, i: nat): Run
    requires i < |r.tasks|
  {
    var rounds := if r.ctx.implHelp.Some? then r.ctx.implHelp.value.rounds else 0;
    var ctx := r.ctx.(implHelp := Some(ImplHelp(r.tasks[i].id, rounds, None)));
    After(r, Commented).(state := AwaitingImplHelp, ctx := ctx, tasks := WithStatus(r.tasks, i, Escalated))
  }

  function Turned(r: Run, i: nat, t: TddReply): (p: Progress)
    requires i < |r.tasks|
    ensures |p.run.tasks| == |r.tasks|
  {
    var spent := Spent(r, t.costs);
    assert spent.tasks == r.tasks by { SpentIsMoney(r, t.costs); }
    if Exhausted(r) || !CanSpend(r, t.costs) then Progress(ClosedAs(spent, Failed).run, true)
    else
      match t.outcome
      case Stalled => Progress(Parked(spent, i), true)
      case AlreadySatisfied => Progress(Closed(After(spent, FoundSatisfied(r.tasks[i].id)), i), false)
      case Landed => Progress(Closed(After(spent, TaskCommitted(r.tasks[i].id)), i), false)
  }

  // One attempt at each task that is not done, until one parks or closes the run.
  function WorkedOff(r: Run, i: nat, a: Answers): Progress
    requires i <= |r.tasks|
    decreases |r.tasks| - i
  {
    if i == |r.tasks| then Progress(r, false)
    else if r.tasks[i].status.Done? then WorkedOff(r, i + 1, a)
    else
      var p := Turned(r, i, a.tdd(i));
      if p.over then p else WorkedOff(p.run, i + 1, a)
  }

  // The tasks of a plan just taken apart.
  function NewTasks(first: nat, n: nat): seq<Task> {
    seq(n, i requires 0 <= i => Task(first + i, Pending))
  }

  function Implementation(r: Run, first: nat, a: Answers): Result {
    if !Acts(Implement, r) then Idle(r)
    else if r.ctx.bootstrap.Some? && a.setupMissing then
      if a.setupGreen then Coding(After(r, SetupCommitted), first, a) else ClosedAs(r, Failed)
    else Coding(r, first, a)
  }

  function Coding(r: Run, first: nat, a: Answers): Result {
    if r.tasks != [] then Coded(WorkedOff(r, 0, a))
    else if Exhausted(r) then ClosedAs(r, Failed)
    else
      var taken := After(Paid(r, a.agent.cost), Decomposed(a.taskCount));
      Coded(WorkedOff(taken.(tasks := NewTasks(first, a.taskCount)), 0, a))
  }

  function Coded(p: Progress): Result {
    if p.over then Idle(p.run) else Result(After(p.run, Commented).(state := Reviewing), Some(NewJob(Review, "")))
  }

  lemma {:induction false} SpentIsMoney(r: Run, costs: seq<nat>)
    ensures Spent(r, costs) == r.(spent := Spent(r, costs).spent, calls := Spent(r, costs).calls)
    decreases |costs|
  {
    if costs != [] && !Exhausted(r) { SpentIsMoney(Paid(r, costs[0]), costs[1..]); }
  }

  // ---- What the executions return ----

  lemma CloseLeaves(st: St, s: RunState, f: Faults, post: Site, close: Site)
    requires Live(CloseWith(st, s, f, post, close))
    ensures var r := CloseWith(st, s, f, post, close);
      Live(st) && r.run == ClosedAs(st.run, s).run.(updatedAt := r.run.updatedAt) && r.enq == st.enq
  {
    hide Ok, Watch, Post, SetState, MayEnter, SameMarks;
  }

  lemma BudgetLeaves(st: St, f: Faults, post: Site, close: Site)
    requires Live(OnBudget(st, f, post, close)) && st.status == Threw(Budget)
    ensures var r := OnBudget(st, f, post, close);
      r.run == ClosedAs(st.run, Failed).run.(updatedAt := r.run.updatedAt) && r.enq == st.enq
  {
    hide CloseWith, OnRefusal;
    CloseLeaves(st.(status := Running), Failed, f, post, close);
  }

  lemma RefusalLeaves(st: St, f: Faults, post: Site, close: Site)
    requires Live(OnRefusal(st, f, post, close)) && st.status in {Threw(Budget), Threw(NoRecipe)}
    ensures var r := OnRefusal(st, f, post, close);
      r.run == ClosedAs(st.run, Failed).run.(updatedAt := r.run.updatedAt) && r.enq == st.enq
  {
    hide CloseWith, OnBudget;
    CloseLeaves(st.(status := Running), Failed, f, post, close);
  }

  // A spent budget was thrown: once the handler has caught it, the execution leaves what it should.
  predicate Refusable(r: St, e: Result) {
    r.status == Threw(Budget) ==> r.enq.None? && e.enq.None? && Same(ClosedAs(r.run, Failed).run, e.run)
  }

  // A model call is refused, or throws, or is answered; and an answer is paid for before it is parsed.
  lemma AskLeaves(st: St, reply: AgentReply, f: Faults, at: Site)
    requires Live(st)
    ensures var r := Ask(st, reply, f, at);
      var answered := !Exhausted(st.run) && f(at).None?;
      && r == st.(run := r.run, status := r.status)
      && (if answered then Same(r.run, Paid(st.run, reply.cost)) else r.run == st.run)
      && (r.status == Threw(Budget) <==> Exhausted(st.run))
      && (Live(r) <==> answered && !reply.malformed)
      && (answered && reply.malformed ==> r.status == Threw(Other))
      && (!Exhausted(st.run) && f(at).Some? ==> r.status == Threw(f(at).value))
  {
    hide Ok, Watch;
  }

  lemma AcknowledgementReturns(st: St, f: Faults)
    requires Live(st) && st.enq.None? && Live(HandleIssueOpened(st, f))
    ensures Gives(HandleIssueOpened(st, f), Acknowledgement(st.run))
  {
    hide Ok, Watch, Post, SetState, Enqueue, MayEnter;
  }

  // The two model calls with which specifying begins.
  lemma DraftLeaves(st: St, a: Answers, f: Faults)
    requires Live(st)
    ensures var r := Ask(Ask(st, a.intake, f, At(6)), a.agent, f, At(7));
      var asked := if Exhausted(st.run) then st.run else Paid(st.run, a.intake.cost);
      && r.enq == st.enq
      && (r.status == Threw(Budget) ==> Exhausted(asked) && Same(r.run, asked))
      && (Live(r) ==> !Exhausted(st.run) && !Exhausted(asked) && Same(r.run, Paid(asked, a.agent.cost)))
  {
    hide Ok, Watch, Ask;
    var st6 := Ask(st, a.intake, f, At(6));
    AskLeaves(st, a.intake, f, At(6));
    if Live(st6) { AskLeaves(st6, a.agent, f, At(7)); }
  }

  // The spec is committed, recorded, told and kept.
  lemma SpecBodyLeaves(st: St, a: Answers, f: Faults)
    requires Live(st) && st.enq.None? && st.run.state.Specifying?
    ensures var r := ProduceSpecBody(st, a, f);
      var asked := if Exhausted(st.run) then st.run else Paid(st.run, a.intake.cost);
      && (r.status == Threw(Budget) ==> Exhausted(asked) && r.enq.None? && Same(r.run, asked))
      && (Live(r) ==> !Exhausted(st.run) && !Exhausted(asked)
                      && Gives(r, Specification(st.run.(hasSpec := false), a.(supported := true))))
  {
    hide Ok, Watch, Ask, Effect, RecordSpec, Post, Stranding, SetContext, SetState, Enqueue, MayEnter, SameDeaths, SamePlan;
    DraftLeaves(st, a, f);
  }

  lemma SpecificationReturns(st: St, a: Answers, f: Faults)
    requires Live(st) && st.enq.None? && Live(HandleProduceSpec(st, a, f))
    ensures Gives(HandleProduceSpec(st, a, f), Specification(st.run, a))
  {
    hide Ok, Watch, SetState, Call, Tolerate, CloseWith, OnBudget, ProduceSpecBody, SameMarks, MayEnter;
    if !st.run.hasSpec {
      var st2 := Tolerate(Call(SetState(st, Specifying, f, At(0)), f, At(1)), f, At(2));
      if !a.supported {
        CloseLeaves(st2, Unsupported, f, At(3), At(4));
      } else {
        var st5 := Call(st2, f, At(5));
        SpecBodyLeaves(st5, a, f);
        var body := ProduceSpecBody(st5, a, f);
        if body.status == Threw(Budget) { BudgetLeaves(body, f, At(14), At(15)); }
      }
    }
  }

  lemma ClarifyBodyLeaves(st: St, a: Answers, f: Faults)
    requires Live(st) && st.enq.None? && Acts(Clarify, st.run)
    ensures var r := ClarifyBody(st, a, f);
      && (r.status == Threw(Budget) ==> Exhausted(st.run) && r.run == st.run && r.enq.None?)
      && (Live(r) ==> !Exhausted(st.run) && Gives(r, Clarification(st.run, a)))
  {
    hide Ok, Watch, Ask, Post, SetContext, SetState, Enqueue, CloseWith, MayEnter, SameMarks;
    AskLeaves(st, a.agent, f, At(1));
    var asked := Ask(st, a.agent, f, At(1));
    if Live(CloseWith(asked, Failed, f, At(4), At(5))) { CloseLeaves(asked, Failed, f, At(4), At(5)); }
  }

  lemma ClarificationReturns(st: St, a: Answers, f: Faults)
    requires Live(st) && st.enq.None? && Live(HandleClarify(st, a, f))
    ensures Gives(HandleClarify(st, a, f), Clarification(st.run, a))
  {
    hide Ok, Watch, Tolerate, ClarifyBody, OnBudget;
    if Acts(Clarify, st.run) {
      var st0 := Tolerate(st, f, At(0));
      if !Live(st0) { BodyStopped(st0, a, f); }
      ClarifyBodyLeaves(st0, a, f);
      var body := ClarifyBody(st0, a, f);
      if body.status == Threw(Budget) { BudgetLeaves(body, f, At(9), At(10)); }
    }
  }

  lemma BodyStopped(st: St, a: Answers, f: Faults)
    requires !Live(st)
    ensures ClarifyBody(st, a, f) == st && ResumeClarificationBody(st, a, f) == st && ReviewBody(st, a, f) == st
  {
    hide Ok, Watch, Ask, Call, Effect, RecordSpec, Post, SetContext, SetState, Enqueue, CloseWith, MayEnter, SameMarks;
    hide DoneCount;
  }

  lemma AnsweredBodyLeaves(st: St, a: Answers, f: Faults)
    requires Live(st) && st.enq.None? && Acts(ResumeClarification, st.run)
    ensures var r := ResumeClarificationBody(st, a, f);
      && (r.status == Threw(Budget) ==> Exhausted(st.run) && r.run == st.run && r.enq.None?)
      && (Live(r) ==> !Exhausted(st.run) && Gives(r, AnsweredClarification(st.run, a)))
  {
    hide Ok, Watch, Ask, Effect, RecordSpec, Post, SetContext, SetState, Enqueue, MayEnter;
    AskLeaves(st, a.agent, f, At(1));
  }

  lemma AnsweredReturns(st: St, a: Answers, f: Faults)
    requires Live(st) && st.enq.None? && Live(HandleResumeClarification(st, a, f))
    ensures Gives(HandleResumeClarification(st, a, f), AnsweredClarification(st.run, a))
  {
    hide Ok, Watch, Call, ResumeClarificationBody, OnBudget;
    if Acts(ResumeClarification, st.run) {
      var st0 := Call(st, f, At(0));
      if !Live(st0) { BodyStopped(st0, a, f); }
      AnsweredBodyLeaves(st0, a, f);
      var body := ResumeClarificationBody(st0, a, f);
      if body.status == Threw(Budget) { BudgetLeaves(body, f, At(8), At(9)); }
    }
  }

  lemma ArchitectLeaves(st: St, a: Answers, f: Faults)
    requires Live(st)
    ensures var r := Architect(st, a, f);
      var refused := (a.setup.Some? && !a.recipe) || Exhausted(st.run);
      && (r.status in {Threw(Budget), Threw(NoRecipe)} ==> refused && r.run == st.run && r.enq == st.enq)
      && (Live(r) ==> !refused && r.enq == st.enq)
      && (Live(r) ==> Same(r.run, After(Paid(st.run, a.agent.cost), PlanCommitted).(hasPlan := true)))
  {
    hide Ok, Watch, Call, Throw, Ask, Effect, RecordPlan;
    var called := Call(st, f, At(20));
    if Live(called) { AskLeaves(called, a.agent, f, At(21)); }
  }

  lemma ParkLeaves(st: St, revisions: nat, setup: Option<SetupAction>, f: Faults)
    requires ParkAtPlanGate(st, revisions, setup, f).status in {Running, Threw(Budget), Threw(NoRecipe)}
    ensures var r := ParkAtPlanGate(st, revisions, setup, f);
      if !Live(r) then r == st
      else
        var told := After(After(st.run, PlanRecorded(setup.Some?)), Commented);
        var ctx := st.run.ctx.(planData := true, bootstrap := setup, revisions := revisions);
        && Live(st) && r.enq == st.enq
        && r.run == told.(state := AwaitingPlanApproval, ctx := ctx, updatedAt := r.run.updatedAt)
  {
    hide Ok, Watch, RecordPlanContext, Post, SetState, MayEnter;
  }

  // A plan that is put before the gate, or refused.
  lemma StartPlanLeaves(st: St, revisions: nat, a: Answers, f: Faults, at: Site)
    requires Live(st) && st.enq.None? && Live(StartPlan(st, revisions, a, f, at))
    ensures Gives(StartPlan(st, revisions, a, f, at), Planned(st.run, revisions, a))
  {
    hide Ok, Watch, SetState, Architect, ParkAtPlanGate, OnRefusal, Stranding, MayEnter, SamePlan, SameDeaths;
    var st5 := SetState(st, Planning, f, at);
    var drafted := Architect(st5, a, f);
    ArchitectLeaves(st5, a, f);
    var parked := ParkAtPlanGate(drafted, revisions, a.setup, f);
    if Live(parked) || parked.status in {Threw(Budget), Threw(NoRecipe)} {
      ParkLeaves(drafted, revisions, a.setup, f);
    }
    if parked.status in {Threw(Budget), Threw(NoRecipe)} { RefusalLeaves(parked, f, At(27), At(28)); }
  }

  lemma DorRefusalLeaves(st: St, spec: Spec, f: Faults)
    requires Live(st) && st.enq.None? && Live(DorRefusal(st, spec, f))
    requires Acts(ProducePlan, st.run) && st.run.ctx.specData == Some(spec) && !IsReady(spec)
    ensures forall a :: Gives(DorRefusal(st, spec, f), FirstPlan(st.run, a))
  {
    hide Ok, Watch, Post, SetContext, SetState, NoteStep, Enqueue, MayEnter, Planned;
  }

  lemma FirstPlanReturns(st: St, a: Answers, f: Faults)
    requires Live(st) && st.enq.None? && Live(HandleProducePlan(st, a, f))
    ensures Gives(HandleProducePlan(st, a, f), FirstPlan(st.run, a))
  {
    hide Ok, Watch, StartPlan, DorRefusal, Planned;
    if Acts(ProducePlan, st.run) {
      var spec := st.run.ctx.specData.value;
      if IsReady(spec) {
        StartPlanLeaves(st, st.run.ctx.revisions, a, f, At(5));
      } else {
        DorRefusalLeaves(st, spec, f);
      }
    }
  }

  lemma ApprovalLeaves(st: St, body: string, f: Faults)
    requires Live(st) && st.enq.None? && Live(ApprovePlan(st, body, f))
    ensures Gives(ApprovePlan(st, body, f),
                  Result(After(After(st.run, Approved(body)), Commented).(state := Implementing), Some(NewJob(Implement, ""))))
  {
    hide Ok, Watch, NoteStep, Post, SetState, Enqueue, MayEnter;
  }

  lemma DecisionReturns(st: St, body: string, a: Answers, f: Faults)
    requires Live(st) && st.enq.None? && Live(HandleResumePlanDecision(st, body, a, f))
    ensures Gives(HandleResumePlanDecision(st, body, a, f), Decision(st.run, body, a))
  {
    hide Ok, Watch, ApprovePlan, CloseWith, StartPlan, Post, Planned, ParsePlanDecision, Commands;
    if Acts(ResumePlanDecision, st.run) {
      DecisionIff(body);
      match ParsePlanDecision(body)
      case Approve => ApprovalLeaves(st, body, f);
      case Abort => CloseLeaves(st, Aborted, f, At(3), At(4));
      case Changes =>
        if st.run.ctx.specData.Some? && st.run.ctx.revisions < PLAN_REVISION_CAP {
          StartPlanLeaves(st, st.run.ctx.revisions + 1, a, f, At(6));
        }
    }
  }

  lemma GuidanceReturns(st: St, body: string, f: Faults)
    requires Live(st) && st.enq.None? && Live(HandleResumeImplementation(st, body, f))
    ensures Gives(HandleResumeImplementation(st, body, f), Guidance(st.run, body))
  {
    hide Ok, Watch, CloseWith, AcceptGuidance, SetState, Enqueue, Post, MayEnter, IsImplAbort, HelpIsCurrent;
    if Acts(ResumeImplementation, st.run) {
      var help := st.run.ctx.implHelp.GetOr(ImplHelp(-1, 0, None));
      if IsImplAbort(body) {
        CloseLeaves(st, Aborted, f, At(0), At(1));
      } else if help.rounds >= IMPL_HELP_CAP {
        CloseLeaves(st, Failed, f, At(2), At(3));
      }
    }
  }

  lemma ReviewBodyLeaves(st: St, a: Answers, f: Faults)
    requires Live(st) && st.enq.None? && Acts(Review, st.run)
    ensures var r := ReviewBody(st, a, f);
      && (r.status == Threw(Budget) ==> Exhausted(st.run) && r.run == st.run && r.enq.None?)
      && (Live(r) ==> !Exhausted(st.run) && Gives(r, Reviewed(st.run, a)))
  {
    hide Ok, Watch, Call, Ask, Effect, Post, SetState, MayEnter, DoneCount;
    var called := Call(st, f, At(0));
    if Live(called) { AskLeaves(called, a.agent, f, At(1)); }
  }

  lemma ReviewReturns(st: St, a: Answers, f: Faults)
    requires Live(st) && st.enq.None? && Live(HandleReview(st, a, f))
    ensures Gives(HandleReview(st, a, f), Reviewed(st.run, a))
  {
    hide Ok, Watch, ReviewBody, OnBudget, DoneCount;
    if Acts(Review, st.run) {
      ReviewBodyLeaves(st, a, f);
      var body := ReviewBody(st, a, f);
      if body.status == Threw(Budget) { BudgetLeaves(body, f, At(5), At(6)); }
    }
  }

  // ---- Attempts ----

  lemma {:induction false} SumHead(costs: seq<nat>, k: nat)
    requires 0 < k <= |costs|
    ensures Sum(costs[..k]) == costs[0] + Sum(costs[1..][..k - 1])
  {
    assert costs[..k][..k - 1] == costs[..k - 1];
    if k > 1 {
      SumHead(costs, k - 1);
      assert costs[1..][..k - 1][..k - 2] == costs[1..][..k - 2];
    }
  }

  lemma CanSpendRest(r: Run, costs: seq<nat>)
    requires costs != []
    ensures CanSpend(r, costs) <==> !Exhausted(r) && CanSpend(Paid(r, costs[0]), costs[1..])
  {
    forall k | 0 <= k < |costs| - 1 ensures Sum(costs[..k + 1]) == costs[0] + Sum(costs[1..][..k]) {
      SumHead(costs, k + 1);
    }
    assert costs[..0] == [];
    if !Exhausted(r) && CanSpend(Paid(r, costs[0]), costs[1..]) {
      forall k | 0 <= k < |costs| ensures r.spent + Sum(costs[..k]) < r.budget {
        if k > 0 { assert Sum(costs[..k - 1 + 1]) == costs[0] + Sum(costs[1..][..k - 1]); }
      }
    }
  }

  // `base` is the run, but for the time of its last write.
  lemma {:induction false} SpendLeaves(st: St, base: Run, costs: seq<nat>)
    requires Live(st) && Same(st.run, base)
    ensures var r := Spend(st, costs);
      && r == st.(run := r.run, status := if CanSpend(base, costs) then Running else Threw(Budget))
      && Same(r.run, Spent(base, costs))
    decreases |costs|
  {
    hide Ok;
    if costs != [] {
      CanSpendRest(base, costs);
      if !Exhausted(base) { SpendLeaves(Pay(st, costs[0]), Paid(base, costs[0]), costs[1..]); }
    }
  }

  lemma AttemptLeaves(st: St, base: Run, t: TddReply)
    requires Live(st) && Same(st.run, base)
    ensures var r := RunTdd(st, t);
      && r == st.(run := r.run, status := r.status) && Same(r.run, Spent(base, t.costs))
      && (Live(r) <==> CanSpend(base, t.costs) && t.fault.None?)
      && (r.status == Threw(Budget) <==> !CanSpend(base, t.costs))
  {
    hide Ok, Spend, CanSpend, Spent;
    SpendLeaves(st, base, t.costs);
  }

  // ---- The fix ----

  lemma FixLandedLeaves(st: St, f: Faults, commit: Site, count: Site)
    requires Live(FixLanded(st, f, commit, count))
    ensures var r := FixLanded(st, f, commit, count);
      && Live(st) && r.enq == st.enq
      && Same(r.run, After(st.run, FixCommitted).(ctx := st.run.ctx.(fixRounds := st.run.ctx.fixRounds + 1)))
  {
    hide Ok, Watch, Call, Tolerate, SameMarks, MayFix;
  }

  lemma SandboxLeaves(st: St, base: Run, a: Answers, f: Faults)
    requires Live(st) && st.enq.None? && Same(st.run, base)
    ensures var r := FixInSandbox(st, a, f);
      && (r.status == Threw(Budget) ==>
            !CanSpend(base, a.tdd(0).costs) && r.enq.None? && Same(r.run, Spent(base, a.tdd(0).costs)))
      && (Live(r) ==> CanSpend(base, a.tdd(0).costs) && Gives(r, Attempted(base, a.tdd(0))))
  {
    hide Ok, Watch, Call, RunTdd, CloseWith, Post, FixLanded, CanSpend, Spent, SameMarks, MayFix;
    var begun := Call(st, f, At(4));
    if Live(begun) {
      var tried := RunTdd(begun, a.tdd(0));
      AttemptLeaves(begun, base, a.tdd(0));
      SpentIsMoney(base, a.tdd(0).costs);
      if Live(CloseWith(tried, Failed, f, At(5), At(6))) { CloseLeaves(tried, Failed, f, At(5), At(6)); }
      var counted := FixLanded(Call(tried, f, At(8)), f, At(9), At(10));
      if Live(counted) { FixLandedLeaves(Call(tried, f, At(8)), f, At(9), At(10)); }
    }
  }

  lemma FixBodyLeaves(st: St, body: string, a: Answers, f: Faults)
    requires Live(st) && st.enq.None? && Acts(Fix, st.run)
    ensures var r := FixBody(st, body, a, f);
      var e := Fixed(st.run, body, a);
      && (Live(r) ==> !Exhausted(st.run) && Gives(r, e))
      && Refusable(r, e)
  {
    hide Ok, Watch, Ask, Post, SetState, Enqueue, FixActionable, MayEnter, Attempted;
    AskLeaves(st, a.agent, f, At(0));
    var asked := Ask(st, a.agent, f, At(0));
    if Live(asked) { ActionableLeaves(asked, Paid(st.run, a.agent.cost), a, f); } else { FixActionableStopped(asked, a, f); }
  }

  lemma ActionableLeaves(st: St, base: Run, a: Answers, f: Faults)
    requires Live(st) && st.enq.None? && Same(st.run, base)
    ensures var r := FixActionable(st, a, f);
      var e := if base.ctx.fixRounds >= FIX_ROUND_CAP then ClosedAs(base, Failed) else Attempted(base, a.tdd(0));
      && (Live(r) ==> Gives(r, e))
      && Refusable(r, e)
  {
    hide Ok, Watch, Call, CloseWith, Closing, FixInSandbox, CanSpend, Spent, SameMarks;
    if base.ctx.fixRounds >= FIX_ROUND_CAP {
      if Live(CloseWith(st, Failed, f, At(1), At(2))) { CloseLeaves(st, Failed, f, At(1), At(2)); }
    } else {
      var begun := Call(Call(st, f, At(12)), f, At(13));
      if Live(begun) { SandboxLeaves(begun, base, a, f); }
    }
  }

  lemma FixReturns(st: St, body: string, a: Answers, f: Faults)
    requires Live(st) && st.enq.None? && Live(HandleFix(st, body, a, f))
    ensures Gives(HandleFix(st, body, a, f), Fixed(st.run, body, a))
  {
    hide Ok, Watch, FixBody, OnBudget, Attempted;
    if Acts(Fix, st.run) {
      FixBodyLeaves(st, body, a, f);
      var tried := FixBody(st, body, a, f);
      if tried.status == Threw(Budget) { BudgetLeaves(tried, f, At(15), At(16)); }
    }
  }

  // ---- Implementing: one task, the loop, the whole ----

  // It goes on, or it returned early.
  predicate Came(st: St) {
    st.status in {Running, Returned}
  }

  // The loop is where the reference says, or was stopped by something the worker sees.
  predicate Keeps(st: St, r: St, p: Progress) {
    && (r.status == Threw(Budget) ==> r.enq == st.enq && p.over && Same(ClosedAs(r.run, Failed).run, p.run))
    && (Came(r) ==> Same(r.run, p.run) && r.enq == st.enq && p.over == r.status.Returned?)
  }

  lemma ParkLeavesRun(st: St, base: Run, i: nat, f: Faults)
    requires Live(st) && i < |st.run.tasks| && Same(st.run, base)
    ensures var r := ParkStalled(st, i, f);
      && r.status != Threw(Budget) && !Live(r)
      && (r.status.Returned? ==> r.enq == st.enq && Same(r.run, Parked(base, i)))
  {
    hide Ok, Watch, UpdateTask, SetContext, Post, SetState, ReturnEarly, MayEnter, DoneCount;
  }

  lemma CloseTaskLeaves(st: St, base: Run, i: nat, f: Faults, at: Site, clear: Site)
    requires !st.status.Returned? && st.status != Threw(Budget)
    requires i < |st.run.tasks| && (Live(st) ==> Same(st.run, base))
    ensures var r := ClearHelp(UpdateTask(st, i, Done, f, at), st.run.tasks[i].id, f, clear);
      && r.status != Threw(Budget) && !r.status.Returned?
      && (Live(r) ==> Live(st) && r.enq == st.enq && Same(r.run, Closed(base, i)))
  {
    hide Ok, Watch, UpdateTask, SetContext, DoneCount;
  }

  // A closed task leaves its account first.
  lemma AttemptedTurn(st: St, base: Run, i: nat, a: Answers, f: Faults)
    requires Live(st) && i < |st.run.tasks| && Same(st.run, base) && !Exhausted(base)
    requires Live(RunTdd(st, a.tdd(i)))
    ensures Keeps(st, TaskTurn(st, i, a, f), Turned(base, i, a.tdd(i)))
  {
    hide Ok, Watch, Call, RunTdd, Effect, NoteStep, ParkStalled, UpdateTask, ClearHelp, DoneCount;
    hide CanSpend, Spent, Parked, Closed;
    AttemptLeaves(st, base, a.tdd(i));
    SpentIsMoney(base, a.tdd(i).costs);
    var tried := RunTdd(st, a.tdd(i));
    var spent := Spent(base, a.tdd(i).costs);
    var id := base.tasks[i].id;
    match a.tdd(i).outcome
    case Stalled => ParkLeavesRun(tried, spent, i, f);
    case AlreadySatisfied =>
      CloseTaskLeaves(NoteStep(tried, FoundSatisfied(id)), After(spent, FoundSatisfied(id)), i, f, Turn(i, 7), Turn(i, 8));
    case Landed =>
      var committed := Effect(Call(tried, f, Turn(i, 9)), TaskCommitted(id), f, Turn(i, 10));
      CloseTaskLeaves(committed, After(spent, TaskCommitted(id)), i, f, Turn(i, 11), Turn(i, 12));
  }

  lemma TurnLeaves(st: St, base: Run, i: nat, a: Answers, f: Faults)
    requires Live(st) && i < |st.run.tasks| && Same(st.run, base)
    ensures Keeps(st, TaskTurn(st, i, a, f), Turned(base, i, a.tdd(i)))
  {
    hide Ok, Watch, Call, RunTdd, Effect, NoteStep, ParkStalled, UpdateTask, ClearHelp, DoneCount, CanSpend, Parked, Closed;
    hide CloseWith, SameMarks;
    AttemptLeaves(st, base, a.tdd(i));
    if Exhausted(base) {
      if Live(CloseWith(st, Failed, f, Turn(i, 0), Turn(i, 1))) { CloseLeaves(st, Failed, f, Turn(i, 0), Turn(i, 1)); }
    } else if Live(RunTdd(st, a.tdd(i))) {
      AttemptedTurn(st, base, i, a, f);
    } else {
      TurnStopped(RunTdd(st, a.tdd(i)), i, st.run.tasks[i].id, f);
    }
  }

  lemma {:induction false} LoopLeaves(st: St, base: Run, i: nat, a: Answers, f: Faults)
    requires Live(st) && i <= |st.run.tasks| && Same(st.run, base)
    ensures Keeps(st, TaskLoop(st, i, a, f), WorkedOff(base, i, a))
    decreases |st.run.tasks| - i
  {
    hide Watch, TaskTurn, Turned;
    if i < |st.run.tasks| {
      if st.run.tasks[i].status.Done? {
        LoopLeaves(st, base, i + 1, a, f);
      } else {
        TurnLeaves(st, base, i, a, f);
        TurnKeepsCount(st, i, a, f);
        var next := TaskTurn(st, i, a, f);
        var p := Turned(base, i, a.tdd(i));
        if Live(next) { LoopLeaves(next, p.run, i + 1, a, f); }
      }
    }
  }

  lemma SetupLeaves(st: St, a: Answers, f: Faults)
    requires Live(st)
    ensures var r := BootstrapStep(st, a, f);
      var due := st.run.ctx.bootstrap.Some? && a.setupMissing;
      && r.status != Threw(Budget) && r.enq == st.enq && r.nextTask == st.nextTask
      && (Live(r) ==> Same(r.run, if due then After(st.run, SetupCommitted) else st.run) && (due ==> a.setupGreen))
      && (r.status.Returned? ==> due && !a.setupGreen && Same(r.run, ClosedAs(st.run, Failed).run))
  {
    hide Ok, Watch, Call, CloseWith, ReturnEarly, Effect, SameMarks;
    var tried := Call(Call(st, f, At(2)), f, At(3));
    if Live(CloseWith(tried, Failed, f, At(4), At(5))) { CloseLeaves(tried, Failed, f, At(4), At(5)); }
  }

  lemma {:induction false} RecordsAll(st: St, n: nat, f: Faults)
    requires Live(st)
    ensures var r := RecordTasks(st, n, f);
      && r.status in {Running, Threw(Died)}
      && (Live(r) ==> r == st.(run := st.run.(tasks := st.run.tasks + NewTasks(st.nextTask, n)), nextTask := r.nextTask))
    decreases n
  {
    hide Ok, Watch;
    if n > 0 {
      var tried := Tolerate(st, f, Record(n));
      if Live(tried) {
        RecordsAll(RecordTask(tried), n - 1, f);
        assert NewTasks(st.nextTask, n) == [Task(st.nextTask, Pending)] + NewTasks(st.nextTask + 1, n - 1);
      }
    }
  }

  // The plan is taken apart, unless it is already.
  lemma DecomposeLeaves(st: St, base: Run, a: Answers, f: Faults)
    requires Live(st) && Same(st.run, base)
    ensures var r := DecomposeStep(st, a, f);
      var taken := After(Paid(base, a.agent.cost), Decomposed(a.taskCount));
      && r.enq == st.enq && !r.status.Returned?
      && (r.status == Threw(Budget) ==> base.tasks == [] && Exhausted(base) && Same(r.run, base))
      && (Live(r) && base.tasks != [] ==> r == st)
      && (Live(r) && base.tasks == [] ==> !Exhausted(base) && Same(r.run, taken.(tasks := NewTasks(st.nextTask, a.taskCount))))
  {
    hide Ok, Watch, Ask, NoteStep, RecordTasks, NewTasks;
    var asked := Ask(st, a.agent, f, At(8));
    AskLeaves(st, a.agent, f, At(8));
    var noted := NoteStep(asked, Decomposed(a.taskCount));
    if Live(noted) {
      RecordsAll(noted, a.taskCount, f);
      var tasks := NewTasks(st.nextTask, a.taskCount);
      assert noted.run.tasks == [] ==> noted.run.tasks + tasks == tasks;
    }
  }

  // The loop and what follows it.
  lemma LoopAndHandOn(st: St, base: Run, a: Answers, f: Faults)
    requires Same(st.run, base) && Live(st) && st.enq.None?
    ensures var r := HandToReview(TaskLoop(Call(st, f, At(9)), 0, a, f), f);
      var e := Coded(WorkedOff(base, 0, a));
      && (Came(r) ==> Gives(r, e))
      && Refusable(r, e)
  {
    hide Ok, Watch, Call, TaskLoop, WorkedOff, HandToReview;
    var st9 := Call(st, f, At(9));
    if Live(st9) {
      LoopLeaves(st9, base, 0, a, f);
      HandOnLeaves(TaskLoop(st9, 0, a, f), f);
    } else {
      TaskLoopStopped(st9, a, f);
      HandOnLeaves(st9, f);
    }
  }

  lemma HandOnLeaves(st: St, f: Faults)
    ensures var r := HandToReview(st, f);
      && (!Live(st) ==> r == st)
      && (Live(st) ==> !r.status.Returned? && r.status != Threw(Budget))
      && (Live(r) ==> Live(st) && Same(r.run, After(st.run, Commented).(state := Reviewing)) && r.enq == Some(NewJob(Review, "")))
  {
    hide Ok, Watch, Post, SetState, Enqueue, MayEnter;
  }

  // What follows the set-up.
  lemma CodingLeaves(st: St, base: Run, a: Answers, f: Faults)
    requires Live(st) && Same(st.run, base) && st.enq.None?
    ensures var r := HandToReview(TaskLoop(Call(DecomposeStep(st, a, f), f, At(9)), 0, a, f), f);
      var e := Coding(base, st.nextTask, a);
      && (Came(r) ==> Gives(r, e))
      && Refusable(r, e)
  {
    hide Ok, Watch, Call, DecomposeStep, TaskLoop, WorkedOff, HandToReview, NewTasks, Coded;
    DecomposeLeaves(st, base, a, f);
    var st8 := DecomposeStep(st, a, f);
    if Live(st8) {
      var taken := After(Paid(base, a.agent.cost), Decomposed(a.taskCount));
      LoopAndHandOn(st8, if base.tasks == [] then taken.(tasks := NewTasks(st.nextTask, a.taskCount)) else base, a, f);
    } else {
      StoppedStages(st8, a, f);
      HandOnLeaves(st8, f);
    }
  }

  lemma ImplementBodyLeaves(st: St, a: Answers, f: Faults)
    requires Live(st) && st.enq.None? && Acts(Implement, st.run)
    ensures var r := ImplementBody(st, a, f);
      var e := Implementation(st.run, st.nextTask, a);
      && (Came(r) ==> Gives(r, e))
      && Refusable(r, e)
  {
    hide Ok, Watch, Call, BootstrapStep, DecomposeStep, TaskLoop, HandToReview, Coding;
    SetupLeaves(st, a, f);
    var st7 := BootstrapStep(st, a, f);
    if Live(st7) {
      var due := st.run.ctx.bootstrap.Some? && a.setupMissing;
      CodingLeaves(st7, if due then After(st.run, SetupCommitted) else st.run, a, f);
    } else {
      StoppedStages(st7, a, f);
      HandOnLeaves(st7, f);
    }
  }

  lemma ImplementationReturns(st: St, a: Answers, f: Faults)
    requires Live(st) && st.enq.None? && Came(HandleImplement(st, a, f))
    ensures Gives(HandleImplement(st, a, f), Implementation(st.run, st.nextTask, a))
  {
    hide Ok, Watch, Call, ImplementBody, OnBudget, Closing, Coding;
    if Acts(Implement, st.run) {
      var begun := Call(Call(st, f, At(0)), f, At(1));
      ImplementBodyLeaves(begun, a, f);
      var worked := ImplementBody(begun, a, f);
      if worked.status == Threw(Budget) && Live(OnBudget(worked, f, At(13), At(14))) {
        BudgetLeaves(worked, f, At(13), At(14));
      }
    }
  }

  // ---- All handlers ----

  function Reference(kind: JobKind, body: string, r: Run, first: nat, a: Answers): Result {
    match kind
    case IssueOpened => Acknowledgement(r)
    case ProduceSpec => Specification(r, a)
    case Clarify => Clarification(r, a)
    case ResumeClarification => AnsweredClarification(r, a)
    case ProducePlan => FirstPlan(r, a)
    case ResumePlanDecision => Decision(r, body, a)
    case Implement => Implementation(r, first, a)
    case ResumeImplementation => Guidance(r, body)
    case Review => Reviewed(r, a)
    case Fix => Fixed(r, body, a)
  }

  // Only the implement handler returns early.
  lemma EarlyReturns(st: St, body: string, a: Answers, f: Faults)
    requires Live(st)
    ensures !HandleIssueOpened(st, f).status.Returned? && !HandleClarify(st, a, f).status.Returned?
    ensures !HandleResumeClarification(st, a, f).status.Returned? && !HandleReview(st, a, f).status.Returned?
    ensures !HandleResumeImplementation(st, body, f).status.Returned?
  {
    hide Ok, Watch, Ask, Call, Tolerate, Effect, Post, SetState, SetContext, Enqueue, RecordSpec, OnBudget, CloseWith;
    hide AcceptGuidance, SameMarks, MayEnter, DoneCount, IsImplAbort, NoDeath;
  }

  lemma EarlySpec(st: St, a: Answers, f: Faults)
    requires Live(st)
    ensures !HandleProduceSpec(st, a, f).status.Returned?
  {
    hide Ok, Watch, Ask, Call, Tolerate, Effect, Post, SetState, SetContext, Enqueue, RecordSpec, OnBudget, CloseWith;
    hide Stranding, SameMarks, MayEnter, NoDeath;
  }

  lemma EarlyPlan(st: St, body: string, a: Answers, f: Faults)
    requires Live(st)
    ensures !HandleProducePlan(st, a, f).status.Returned? && !HandleResumePlanDecision(st, body, a, f).status.Returned?
  {
    hide Ok, Watch, Ask, Call, Throw, Effect, Post, SetState, SetContext, Enqueue, NoteStep, RecordPlan, RecordPlanContext;
    hide OnRefusal, CloseWith, Stranding, SameMarks, MayEnter, NoDeath, ParsePlanDecision;
  }

  lemma EarlyFix(st: St, body: string, a: Answers, f: Faults)
    requires Live(st)
    ensures !HandleFix(st, body, a, f).status.Returned?
  {
    hide Ok, Watch, Ask, Call, RunTdd, FixLanded, Post, SetState, Enqueue, OnBudget, CloseWith, Closing;
    hide SameMarks, MayEnter, NoDeath;
  }

  // Whatever it tolerated, an execution that returns leaves what its answers call for.
  lemma HandleReturns(kind: JobKind, body: string, st: St, a: Answers, f: Faults)
    requires Live(st) && st.enq.None? && Live(Handle(kind, body, st, a, f))
    ensures Gives(Handle(kind, body, st, a, f), Reference(kind, body, st.run, st.nextTask, a))
  {
    hide HandleIssueOpened, HandleProduceSpec, HandleClarify, HandleResumeClarification, HandleProducePlan;
    hide HandleResumePlanDecision, HandleImplement, HandleResumeImplementation, HandleReview, HandleFix;
    hide Acknowledgement, Specification, Clarification, AnsweredClarification, FirstPlan, Decision, Implementation;
    hide Guidance, Reviewed, Fixed;
    EarlyReturns(st, body, a, f);
    EarlySpec(st, a, f);
    EarlyPlan(st, body, a, f);
    EarlyFix(st, body, a, f);
    match kind
    case IssueOpened => AcknowledgementReturns(st, f);
    case ProduceSpec => SpecificationReturns(st, a, f);
    case Clarify => ClarificationReturns(st, a, f);
    case ResumeClarification => AnsweredReturns(st, a, f);
    case ProducePlan => FirstPlanReturns(st, a, f);
    case ResumePlanDecision => DecisionReturns(st, body, a, f);
    case Implement => ImplementationReturns(st, a, f);
    case ResumeImplementation => GuidanceReturns(st, body, f);
    case Review => ReviewReturns(st, a, f);
    case Fix => FixReturns(st, body, a, f);
  }
}
