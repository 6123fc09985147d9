// Every pipeline handler as a function from the run it finds, the answers its collaborators give and
// the faults they raise, to the run it leaves.
module HandlerSpec {
  import opened Wrappers
  import opened Pipeline
  import opened Plan
  import opened RunInvariant
  import opened Steps

  datatype TaskOutcome = Landed | AlreadySatisfied | Stalled

  // One whole TDD attempt at a task, seen from the pipeline: the calls it paid for, then its outcome,
  // unless something threw.
  datatype TddReply = TddReply(costs: seq<nat>, fault: Option<Fault>, outcome: TaskOutcome)

  datatype Triage = Vague | Rework | Actionable

  // Everything the collaborators say during one handler execution, any value of which is allowed.
  datatype Answers = Answers(
    supported: bool,
    intake: AgentReply,
    agent: AgentReply,
    spec: Spec,
    questions: nat,
    setup: Option<SetupAction>,
    recipe: bool,
    setupMissing: bool,
    setupGreen: bool,
    taskCount: nat,
    tdd: nat -> TddReply,
    triage: Triage)

  // Nothing in these answers is the death of the worker.
  ghost predicate Breathing(a: Answers) {
    forall i :: a.tdd(i).fault != Some(Died)
  }

  // Post a comment, then leave the run in state `s`: how most refusals and aborts end.
  function CloseWith(st: St, s: RunState, f: Faults, post: Site, close: Site): (r: St)
    ensures Faulted(st, r, f)
    ensures !Live(st) ==> r == st
    ensures Live(r) ==> Live(st)
    ensures r == st.(run := r.run, status := r.status)
    ensures r.run == st.run.(state := r.run.state, updatedAt := r.run.updatedAt, history := r.run.history)
    ensures SameMarks(st.run, r.run)
    ensures r.run.state == if Live(r) then s else st.run.state
    ensures Ok(st) && (s.Failed? || s.Aborted? || (s.Unsupported? && st.run.state.Specifying?)) ==> Ok(r)
  {
    SetState(Post(st, f, post), s, f, close)
  }

  // The run was closed as failed, or a fault stopped even that and left it in the state it had.
  ghost predicate Refused(st: St, r: St, f: Faults) {
    && r == st.(run := r.run, status := r.status)
    && r.run == st.run.(state := r.run.state, updatedAt := r.run.updatedAt, history := r.run.history)
    && SameMarks(st.run, r.run)
    && Faulted(st.(status := Running), r, f)
    && r.run.state == if Live(r) then Failed else st.run.state
  }

  // The catch block of most handlers: a spent budget closes the run with a comment.
  function OnBudget(st: St, f: Faults, post: Site, close: Site): (r: St)
    ensures st.status != Threw(Budget) ==> r == st
    ensures st.status == Threw(Budget) ==> Refused(st, r, f)
    ensures Ok(st) ==> Ok(r)
  {
    if st.status == Threw(Budget) then CloseWith(st.(status := Running), Failed, f, post, close) else st
  }

  // The catch block around the architect: no scaffolding recipe closes the run like a spent budget.
  function OnRefusal(st: St, f: Faults, post: Site, close: Site): (r: St)
    ensures st.status !in {Threw(Budget), Threw(NoRecipe)} ==> r == st
    ensures st.status in {Threw(Budget), Threw(NoRecipe)} ==> Refused(st, r, f)
    ensures Ok(st) ==> Ok(r)
  {
    if st.status in {Threw(Budget), Threw(NoRecipe)}
    then CloseWith(st.(status := Running), Failed, f, post, close)
    else st
  }

  // The finally block around an open sandbox: closing it may throw, and then that is what escapes.
  function Closing(st: St, f: Faults, at: Site): (r: St)
    ensures Faulted(st, r, f) && (st.status == Threw(Died) ==> r == st)
    ensures r == st.(status := r.status)
    ensures Live(r) ==> Live(st)
    ensures Ok(st) ==> Ok(r)
  {
    if st.status == Threw(Died) || f(at).None? then st else st.(status := Threw(f(at).value))
  }

  // Marks in the history that a retryable error escaped at a place no retry comes back from.
  function Stranding(st: St): (r: St)
    ensures Live(r) <==> Live(st)
    ensures Live(st) ==> r == st
    ensures r == st.(run := st.run.(history := r.run.history))
    ensures SameDeaths(st.run, r.run) && SamePlan(st.run, r.run)
    ensures Watch(r.run.history).stranded == (Watch(st.run.history).stranded || st.status == Threw(Other))
    ensures st.status != Threw(Other) ==> r == st
    ensures Ok(st) ==> Ok(r)
  {
    if st.status == Threw(Other) then NoteStep(st.(status := Running), Stranded).(status := st.status) else st
  }

  function HandleIssueOpened(st: St, f: Faults): St {
    if !st.run.state.Received? then st else
    var st := Post(st, f, At(0));
    var st := SetState(st, Acknowledged, f, At(1));
    Enqueue(st, ProduceSpec, "", f, At(2))
  }

  function ProduceSpecBody(st: St, a: Answers, f: Faults): St {
    var st := Ask(st, a.intake, f, At(6));
    var st := Ask(st, a.agent, f, At(7));
    var st := Effect(st, SpecCommitted, f, At(8));
    var st := RecordSpec(st, f, At(9));
    if !Live(st) then st else AnnounceSpec(st, a, f)
  }

  // The spec is recorded, but the run does not wait for its clarification yet.
  function AnnounceSpec(st: St, a: Answers, f: Faults): St {
    var st := Stranding(Post(st, f, At(10)));
    var st := SetContext(st, st.run.ctx.(specData := Some(a.spec)), f, At(11));
    var st := SetState(st, Specifying, f, At(12));
    Enqueue(st, Clarify, "", f, At(13))
  }

  function HandleProduceSpec(st: St, a: Answers, f: Faults): St {
    if st.run.hasSpec then st else
    var st := SetState(st, Specifying, f, At(0));
    var st := Call(st, f, At(1));
    var st := Tolerate(st, f, At(2));
    if !a.supported then CloseWith(st, Unsupported, f, At(3), At(4))
    else
      var st := Call(st, f, At(5));
      if !Live(st) then st else OnBudget(ProduceSpecBody(st, a, f), f, At(14), At(15))
  }

  function ClarifyBody(st: St, a: Answers, f: Faults): St {
    var st := Ask(st, a.agent, f, At(1));
    if a.questions == 0 then
      var st := SetState(st, Specified, f, At(2));
      Enqueue(st, ProducePlan, "", f, At(3))
    else if a.questions > CLARIFY_QUESTION_CAP then
      CloseWith(st, Failed, f, At(4), At(5))
    else
      var st := SetContext(st, st.run.ctx.(questions := a.questions), f, At(6));
      var st := Post(st, f, At(7));
      SetState(st, AwaitingClarification, f, At(8))
  }

  function HandleClarify(st: St, a: Answers, f: Faults): St {
    if !st.run.state.Specifying? || !st.run.hasSpec then st else
    var st := Tolerate(st, f, At(0));
    OnBudget(ClarifyBody(st, a, f), f, At(9), At(10))
  }

  function ResumeClarificationBody(st: St, a: Answers, f: Faults): St {
    var st := Ask(st, a.agent, f, At(1));
    var st := Effect(st, SpecCommitted, f, At(2));
    var st := RecordSpec(st, f, At(3));
    var st := Post(st, f, At(4));
    var st := SetContext(st, st.run.ctx.(specData := Some(a.spec)), f, At(5));
    var st := SetState(st, Specified, f, At(6));
    Enqueue(st, ProducePlan, "", f, At(7))
  }

  function HandleResumeClarification(st: St, a: Answers, f: Faults): St {
    if !st.run.state.AwaitingClarification? || !st.run.hasSpec then st else
    var st := Call(st, f, At(0));
    OnBudget(ResumeClarificationBody(st, a, f), f, At(8), At(9))
  }

  // runArchitectAndCommit: refuses before the model call when a setup is needed and no recipe exists.
  function Architect(st: St, a: Answers, f: Faults): St {
    var st := Call(st, f, At(20));
    if a.setup.Some? && !a.recipe then Throw(st, NoRecipe) else
    var st := Ask(st, a.agent, f, At(21));
    var st := Effect(st, PlanCommitted, f, At(22));
    RecordPlan(st, f, At(23))
  }

  function WithPlan(r: Run, setup: Option<SetupAction>, revisions: nat, now: int): Run {
    var ctx := r.ctx.(planData := true, bootstrap := setup, revisions := revisions);
    Note(r.(ctx := ctx, updatedAt := now), PlanRecorded(setup.Some?))
  }

  // The plan, its revision count and the setup it announced enter the context in one write.
  function RecordPlanContext(st: St, setup: Option<SetupAction>, revisions: nat, f: Faults, at: Site): (r: St)
    ensures Live(r) ==> Live(st) && r == st.(run := WithPlan(st.run, setup, revisions, st.now))
    ensures !Live(r) ==> Stopped(st, r)
    ensures !Live(st) ==> r == st
    ensures Survived(st, r, f)
    ensures Ok(st) && (Live(r) ==> MayRecordPlan(st.run, revisions)) ==> Ok(r)
  {
    assert HelpIsCurrent(WithPlan(st.run, setup, revisions, st.now)) == HelpIsCurrent(st.run);
    var st1 := Tolerate(st, f, at);
    if Live(st1) then st1.(run := WithPlan(st.run, setup, revisions, st.now)) else st1
  }

  predicate MayRecordPlan(r: Run, revisions: nat) {
    && r.state.Planning? && r.hasPlan
    && Watch(r.history).planCommits <= revisions + 1 && revisions <= PLAN_REVISION_CAP
  }

  function ParkAtPlanGate(st: St, revisions: nat, setup: Option<SetupAction>, f: Faults): St {
    var st := RecordPlanContext(st, setup, revisions, f, At(24));
    var st := Post(st, f, At(25));
    SetState(st, AwaitingPlanApproval, f, At(26))
  }

  // The try block shared by the first plan and by every revision.
  function PlanAndPark(st: St, revisions: nat, a: Answers, f: Faults): St {
    ParkAtPlanGate(Architect(st, a, f), revisions, a.setup, f)
  }

  // The run enters planning, and from there either parks at the plan gate or is refused.
  function StartPlan(st: St, revisions: nat, a: Answers, f: Faults, at: Site): St {
    var st := SetState(st, Planning, f, at);
    if !Live(st) then st else Stranding(OnRefusal(PlanAndPark(st, revisions, a, f), f, At(27), At(28)))
  }

  function DorRefusal(st: St, spec: Spec, f: Faults): St {
    var st := Post(st, f, At(0));
    if !st.run.ctx.dorReclarified && spec.openQuestions > 0 then Reclarify(st, f)
    else SetState(st, Failed, f, At(4))
  }

  function Reclarify(st: St, f: Faults): St {
    var st := SetContext(st, st.run.ctx.(dorReclarified := true), f, At(1));
    var st := SetState(st, Specifying, f, At(2));
    Enqueue(NoteStep(st, Reclarified), Clarify, "", f, At(3))
  }

  function HandleProducePlan(st: St, a: Answers, f: Faults): St {
    if st.run.hasPlan || !st.run.state.Specified? || st.run.ctx.specData.None? then st
    else if !IsReady(st.run.ctx.specData.value) then DorRefusal(st, st.run.ctx.specData.value, f)
    else StartPlan(st, st.run.ctx.revisions, a, f, At(5))
  }

  function Revise(st: St, a: Answers, f: Faults): St {
    if st.run.ctx.specData.None? then st
    else if st.run.ctx.revisions >= PLAN_REVISION_CAP then Post(st, f, At(5))
    else StartPlan(st, st.run.ctx.revisions + 1, a, f, At(6))
  }

  function ApprovePlan(st: St, body: string, f: Faults): St {
    var st := NoteStep(st, Approved(body));
    var st := Post(st, f, At(0));
    var st := SetState(st, Implementing, f, At(1));
    Enqueue(st, Implement, "", f, At(2))
  }

  function HandleResumePlanDecision(st: St, body: string, a: Answers, f: Faults): St {
    if !st.run.state.AwaitingPlanApproval? then st else
    match ParsePlanDecision(body)
    case Approve => ApprovePlan(st, body, f)
    case Abort => CloseWith(st, Aborted, f, At(3), At(4))
    case Changes => Revise(st, a, f)
  }

  function ReturnEarly(st: St): (r: St)
    ensures Paused(st, r) && !Live(r)
    ensures r.status == if Live(st) then Returned else st.status
    ensures Ok(st) ==> Ok(r)
  {
    if Live(st) then st.(status := Returned) else st
  }

  // Scaffold a test setup, if the plan gate consented to one and the checkout still lacks it.
  function BootstrapStep(st: St, a: Answers, f: Faults): St {
    if st.run.ctx.bootstrap.None? then st else
    var st := Call(st, f, At(2));
    if !a.setupMissing then st else
    var st := Call(st, f, At(3));
    if !a.setupGreen then ReturnEarly(CloseWith(st, Failed, f, At(4), At(5)))
    else
      var st := Call(st, f, At(6));
      Effect(st, SetupCommitted, f, At(7))
  }

  function RecordTask(st: St): (r: St)
    ensures r == st.(run := st.run.(tasks := r.run.tasks), nextTask := st.nextTask + 1)
    ensures st.run.tasks <= r.run.tasks
  {
    st.(run := st.run.(tasks := st.run.tasks + [Task(st.nextTask, Pending)]), nextTask := st.nextTask + 1)
  }

  lemma RecordTaskKeeps(st: St)
    requires Ok(st) && st.run.state.Implementing? && st.run.hasSpec
    ensures Ok(RecordTask(st))
  {
    DoneCountIs(RecordTask(st).run.tasks, DoneCount(st.run.tasks));
    hide Watch, DoneCount, Sum;
  }

  function RecordTasks(st: St, n: nat, f: Faults): (r: St)
    ensures Live(r) ==> Live(st)
    ensures r == st.(run := r.run, nextTask := r.nextTask, status := r.status)
    ensures r.run == st.run.(tasks := r.run.tasks)
    ensures r.nextTask >= st.nextTask
    ensures st.run.tasks <= r.run.tasks && (!Live(st) ==> r == st)
    ensures Survived(st, r, f)
    ensures Ok(st) && st.run.state.Implementing? && st.run.hasSpec ==> Ok(r)
    decreases n
  {
    if n == 0 then st else
    var st := Tolerate(st, f, Record(n));
    if !Live(st) then st else
    assert Ok(st) && st.run.state.Implementing? && st.run.hasSpec ==> Ok(RecordTask(st)) by {
      if Ok(st) && st.run.state.Implementing? && st.run.hasSpec { RecordTaskKeeps(st); }
    }
    RecordTasks(RecordTask(st), n - 1, f)
  }

  function DecomposeStep(st: St, a: Answers, f: Faults): St {
    if |st.run.tasks| > 0 then st
    else RecordTasks(NoteStep(Ask(st, a.agent, f, At(8)), Decomposed(a.taskCount)), a.taskCount, f)
  }

  // runTaskTdd as the pipeline sees it.
  function RunTdd(st: St, reply: TddReply): (r: St)
    ensures r.status == st.status || r.status == Threw(Budget)
         || (reply.fault.Some? && r.status == Threw(reply.fault.value))
    ensures r == st.(run := r.run, status := r.status) && OnlyMoney(st.run, r.run)
    ensures Live(r) ==> Live(st)
    ensures !Live(st) ==> r == st
    ensures Ok(st) ==> Ok(r)
  {
    var st := Spend(st, reply.costs);
    if reply.fault.Some? then Throw(st, reply.fault.value) else st
  }

  // A previously stalled task landed: its gate state must not linger.
  function ClearHelp(st: St, taskId: nat, f: Faults, at: Site): (r: St)
    ensures Survived(st, r, f)
    ensures Live(r) ==> Live(st)
    ensures !Live(st) ==> r == st
    ensures r == st.(run := r.run, status := r.status)
    ensures r.run == st.run.(ctx := r.run.ctx, updatedAt := r.run.updatedAt)
    ensures Ok(st) && st.run.state.Implementing? && !HelpIsCurrent(st.run) ==> Ok(r)
  {
    if st.run.ctx.implHelp.Some? && st.run.ctx.implHelp.value.taskId == taskId
    then SetContext(st, st.run.ctx.(implHelp := None), f, at)
    else st
  }

  function ParkStalled(st: St, i: nat, f: Faults): St
    requires i < |st.run.tasks|
  {
    var rounds := if st.run.ctx.implHelp.Some? then st.run.ctx.implHelp.value.rounds else 0;
    var help := ImplHelp(st.run.tasks[i].id, rounds, None);
    var st := UpdateTask(st, i, Escalated, f, Turn(i, 3));
    var st := SetContext(st, st.run.ctx.(implHelp := Some(help)), f, Turn(i, 4));
    var st := Post(st, f, Turn(i, 5));
    ReturnEarly(SetState(st, AwaitingImplHelp, f, Turn(i, 6)))
  }

  // One turn of the task loop over a task that is not done.
  function TaskTurn(st: St, i: nat, a: Answers, f: Faults): St
    requires i < |st.run.tasks|
  {
    var taskId := st.run.tasks[i].id;
    if Exhausted(st.run) then ReturnEarly(CloseWith(st, Failed, f, Turn(i, 0), Turn(i, 1)))
    else
      var st := RunTdd(st, a.tdd(i));
      match a.tdd(i).outcome
      case Stalled => ParkStalled(st, i, f)
      case AlreadySatisfied =>
        var st := NoteStep(st, FoundSatisfied(taskId));
        var st := UpdateTask(st, i, Done, f, Turn(i, 7));
        ClearHelp(st, taskId, f, Turn(i, 8))
      case Landed =>
        var st := Call(st, f, Turn(i, 9));
        var st := Effect(st, TaskCommitted(taskId), f, Turn(i, 10));
        var st := UpdateTask(st, i, Done, f, Turn(i, 11));
        ClearHelp(st, taskId, f, Turn(i, 12))
  }

  // The task loop from task `i` on.
  function TaskLoop(st: St, i: nat, a: Answers, f: Faults): St
    requires i <= |st.run.tasks|
    decreases |st.run.tasks| - i
  {
    if i == |st.run.tasks| || !Live(st) then st
    else if st.run.tasks[i].status.Done? then TaskLoop(st, i + 1, a, f)
    else TaskLoop(TaskTurn(st, i, a, f), i + 1, a, f)
  }

  function ImplementBody(st: St, a: Answers, f: Faults): St {
    var st := BootstrapStep(st, a, f);
    var st := if Live(st) then DecomposeStep(st, a, f) else st;
    var st := Call(st, f, At(9));
    HandToReview(TaskLoop(st, 0, a, f), f)
  }

  function HandToReview(st: St, f: Faults): St {
    var st := Post(st, f, At(10));
    var st := SetState(st, Reviewing, f, At(11));
    Enqueue(st, Review, "", f, At(12))
  }

  function HandleImplement(st: St, a: Answers, f: Faults): St {
    if !st.run.state.Implementing? || !st.run.hasSpec || !st.run.hasPlan then st else
    var st := Call(Call(st, f, At(0)), f, At(1));
    if !Live(st) then st else
    Closing(OnBudget(ImplementBody(st, a, f), f, At(13), At(14)), f, At(15))
  }

  // The guidance and the round it uses up enter the context in one write.
  function AcceptGuidance(st: St, help: ImplHelp, f: Faults, at: Site): (r: St)
    ensures Live(r) ==> Live(st) && r == st.(run :=
      Note(st.run.(ctx := st.run.ctx.(implHelp := Some(help)), updatedAt := st.now), Guided))
    ensures !Live(r) ==> Stopped(st, r)
    ensures !Live(st) ==> r == st
    ensures Survived(st, r, f)
    ensures Ok(st) && (Live(r) ==> MayGuide(st.run, help)) ==> Ok(r)
  {
    var st1 := Tolerate(st, f, at);
    if Live(st1) then
      var run := st1.run.(ctx := st1.run.ctx.(implHelp := Some(help)), updatedAt := st1.now);
      assert HelpIsCurrent(Note(run, Guided)) == HelpIsCurrent(run);
      st1.(run := Note(run, Guided))
    else st1
  }

  predicate MayGuide(r: Run, help: ImplHelp) {
    && r.state.AwaitingImplHelp? && HelpIsCurrent(r)
    && help.taskId == r.ctx.implHelp.value.taskId
    && help.rounds == r.ctx.implHelp.value.rounds + 1 <= IMPL_HELP_CAP
  }

  function HandleResumeImplementation(st: St, body: string, f: Faults): St {
    if !st.run.state.AwaitingImplHelp? then st
    else if IsImplAbort(body) then CloseWith(st, Aborted, f, At(0), At(1))
    else
      var help := st.run.ctx.implHelp.GetOr(ImplHelp(-1, 0, None));
      if help.rounds + 1 > IMPL_HELP_CAP then CloseWith(st, Failed, f, At(2), At(3))
      else
        Guide(st, help.(rounds := help.rounds + 1, guidance := Some(body)), f)
  }

  function Guide(st: St, help: ImplHelp, f: Faults): St {
    var st := AcceptGuidance(st, help, f, At(4));
    var st := SetState(st, Implementing, f, At(5));
    var st := Enqueue(st, Implement, "", f, At(6));
    Post(st, f, At(7))
  }

  function ReviewBody(st: St, a: Answers, f: Faults): St {
    var st := Call(st, f, At(0));
    var st := Ask(st, a.agent, f, At(1));
    var st := Effect(st, PrOpened(|st.run.tasks| - DoneCount(st.run.tasks), |st.run.tasks|), f, At(2));
    var st := Post(st, f, At(3));
    SetState(st, AwaitingPrReview, f, At(4))
  }

  function HandleReview(st: St, a: Answers, f: Faults): St {
    if !st.run.state.Reviewing? || !st.run.hasSpec || !st.run.hasPlan
       || st.run.ctx.specData.None? || !st.run.ctx.planData
    then st
    else OnBudget(ReviewBody(st, a, f), f, At(5), At(6))
  }

  function CountFixRound(r: Run, now: int): Run {
    r.(ctx := r.ctx.(fixRounds := r.ctx.fixRounds + 1), updatedAt := now)
  }

  predicate FixRoundKept(r: Run, next: nat, now: int) {
    RunInv(Note(r, FixCommitted), next, 1) && RunInv(CountFixRound(Note(r, FixCommitted), now), next, 0)
  }

  predicate MayFix(r: Run) {
    r.state.AwaitingPrReview? && r.ctx.fixRounds < FIX_ROUND_CAP
  }

  lemma FixRoundKeeps(r: Run, next: nat, now: int)
    requires RunInv(r, next, 0) && MayFix(r)
    ensures FixRoundKept(r, next, now)
  {
    hide Watch, DoneCount, Sum;
    var n := Note(r, FixCommitted);
    var c := CountFixRound(n, now);
    assert HelpIsCurrent(n) == HelpIsCurrent(r);
    assert HelpIsCurrent(c) == HelpIsCurrent(r);
  }

  // The fix is committed, then its round is counted: the worker may die in between.
  function FixLanded(st: St, f: Faults, commit: Site, count: Site): (r: St)
    ensures Faulted(st, r, f)
    ensures Live(r) ==> Live(st) && r.run.ctx == st.run.ctx.(fixRounds := st.run.ctx.fixRounds + 1)
    ensures !Live(st) ==> r == st
    ensures r == st.(run := r.run, status := r.status)
    ensures r.run == st.run.(ctx := r.run.ctx, history := r.run.history, updatedAt := r.run.updatedAt)
    ensures SameMarks(st.run, r.run)
    ensures r.run.ctx == st.run.ctx.(fixRounds := r.run.ctx.fixRounds) && r.run.ctx.fixRounds >= st.run.ctx.fixRounds
    ensures Ok(st) && (Live(st) ==> MayFix(st.run)) ==> Ok(r)
  {
    assert Ok(st) && Live(st) && MayFix(st.run) ==> FixRoundKept(st.run, st.nextTask, st.now) by {
      if Ok(st) && Live(st) && MayFix(st.run) { FixRoundKeeps(st.run, st.nextTask, st.now); }
    }
    var st1 := Call(st, f, commit);
    if !Live(st1) then st1 else
    var noted := Note(st1.run, FixCommitted);
    var counted := Tolerate(st1.(run := noted), f, count);
    if Live(counted) then counted.(run := CountFixRound(noted, st1.now)) else counted
  }

  // The test-first fix of one actionable review comment, inside an open sandbox.
  function FixInSandbox(st: St, a: Answers, f: Faults): St {
    var st := Call(st, f, At(4));
    var st := RunTdd(st, a.tdd(0));
    match a.tdd(0).outcome
    case Stalled => CloseWith(st, Failed, f, At(5), At(6))
    case AlreadySatisfied => Post(st, f, At(7))
    case Landed =>
      var st := Call(st, f, At(8));
      var st := FixLanded(st, f, At(9), At(10));
      Post(st, f, At(11))
  }

  function FixBody(st: St, body: string, a: Answers, f: Faults): St {
    var st := Ask(st, a.agent, f, At(0));
    match a.triage
    case Vague => Post(st, f, At(1))
    case Rework =>
      var st := Post(st, f, At(1));
      var st := SetState(st, AwaitingPlanApproval, f, At(2));
      Enqueue(st, ResumePlanDecision, body, f, At(3))
    case Actionable => FixActionable(st, a, f)
  }

  function FixActionable(st: St, a: Answers, f: Faults): St {
    if st.run.ctx.fixRounds >= FIX_ROUND_CAP then CloseWith(st, Failed, f, At(1), At(2))
    else
      var st := Call(Call(st, f, At(12)), f, At(13));
      if !Live(st) then st else Closing(FixInSandbox(st, a, f), f, At(14))
  }

  function HandleFix(st: St, body: string, a: Answers, f: Faults): St {
    if !st.run.state.AwaitingPrReview? then st
    else OnBudget(FixBody(st, body, a, f), f, At(15), At(16))
  }

  // The worker's dispatch on the job type. An early return is a return.
  function Handle(kind: JobKind, body: string, st: St, a: Answers, f: Faults): St {
    var st :=
      match kind
      case IssueOpened => HandleIssueOpened(st, f)
      case ProduceSpec => HandleProduceSpec(st, a, f)
      case Clarify => HandleClarify(st, a, f)
      case ResumeClarification => HandleResumeClarification(st, a, f)
      case ProducePlan => HandleProducePlan(st, a, f)
      case ResumePlanDecision => HandleResumePlanDecision(st, body, a, f)
      case Implement => HandleImplement(st, a, f)
      case ResumeImplementation => HandleResumeImplementation(st, body, f)
      case Review => HandleReview(st, a, f)
      case Fix => HandleFix(st, body, a, f);
    if st.status.Returned? then st.(status := Running) else st
  }
}
