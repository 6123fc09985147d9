// How an execution ends, read off the run it finds, its answers and its faults: which calls it makes, in which
// order, and whose failure it swallows.
module Endings {
  import opened Wrappers
  import opened Pipeline
  import opened Plan
  import opened RunInvariant
  import opened Steps
  import opened HandlerSpec
  import opened RunSafety
  import opened RunProgress
  import opened Outcomes

  // A call whose failure escapes.
  function Fails(f: Faults, at: Site): Status {
    if f(at).Some? then Threw(f(at).value) else Running
  }

  // A store call, or one whose failure is swallowed: only death ends the execution there.
  function Survives(f: Faults, at: Site): Status {
    if f(at) == Some(Died) then Threw(Died) else Running
  }

  // A model call.
  function Asks(r: Run, reply: AgentReply, f: Faults, at: Site): Status {
    if Exhausted(r) then Threw(Budget)
    else if f(at).Some? then Threw(f(at).value)
    else if reply.malformed then Threw(Other)
    else Running
  }

  // A comment, and the write of the state.
  function Closes(f: Faults, post: Site, close: Site): Status {
    if f(post).Some? then Threw(f(post).value) else Survives(f, close)
  }

  // A spent budget closes the run, and everything else is as it was.
  function Caught(s: Status, f: Faults, post: Site, close: Site): Status {
    if s == Threw(Budget) then Closes(f, post, close) else s
  }

  // ---- Specifying and clarifying ----

  function AcknowledgementEnd(r: Run, f: Faults): Status {
    if !Acts(IssueOpened, r) then Running else
    :- Fails(f, At(0));
    :- Survives(f, At(1));
    Survives(f, At(2))
  }

  // The repository is looked at and indexed, then the spec is drafted.
  function SpecificationEnd(r: Run, a: Answers, f: Faults): Status {
    if !Acts(ProduceSpec, r) then Running else
    :- Survives(f, At(0));
    :- Fails(f, At(1));
    :- Survives(f, At(2));
    if !a.supported then Closes(f, At(3), At(4)) else
    :- Fails(f, At(5));
    Caught(DraftEnd(r, a, f), f, At(14), At(15))
  }

  function DraftEnd(r: Run, a: Answers, f: Faults): Status {
    var taken := Asks(r, a.intake, f, At(6));
    :- taken;
    :- Asks(Paid(r, a.intake.cost), a.agent, f, At(7));
    :- Fails(f, At(8));
    :- Survives(f, At(9));
    AnnouncementEnd(f)
  }

  function AnnouncementEnd(f: Faults): Status {
    var told := Fails(f, At(10));
    :- told;
    :- Survives(f, At(11));
    :- Survives(f, At(12));
    Survives(f, At(13))
  }

  function ClarificationEnd(r: Run, a: Answers, f: Faults): Status {
    if !Acts(Clarify, r) then Running else
    :- Survives(f, At(0));
    Caught(QuestionsEnd(r, a, f), f, At(9), At(10))
  }

  function QuestionsEnd(r: Run, a: Answers, f: Faults): Status {
    var asked := Asks(r, a.agent, f, At(1));
    :- asked;
    if a.questions == 0 then
      :- Survives(f, At(2));
      Survives(f, At(3))
    else if a.questions > 4 then Closes(f, At(4), At(5))
    else
      :- Survives(f, At(6));
      :- Fails(f, At(7));
      Survives(f, At(8))
  }

  function AnsweredClarificationEnd(r: Run, a: Answers, f: Faults): Status {
    if !Acts(ResumeClarification, r) then Running else
    :- Fails(f, At(0));
    Caught(RedraftEnd(r, a, f), f, At(8), At(9))
  }

  function RedraftEnd(r: Run, a: Answers, f: Faults): Status {
    var asked := Asks(r, a.agent, f, At(1));
    :- asked;
    :- Fails(f, At(2));
    :- Survives(f, At(3));
    :- Fails(f, At(4));
    :- Survives(f, At(5));
    :- Survives(f, At(6));
    Survives(f, At(7))
  }

  // ---- Planning ----

  // Once planning has begun: a missing recipe is refused like a spent budget.
  function PlanningEnd(r: Run, a: Answers, f: Faults): Status {
    if f(At(20)).Some? then Threw(f(At(20)).value)
    else if a.setup.Some? && !a.recipe then Closes(f, At(27), At(28))
    else Caught(DesignEnd(r, a, f), f, At(27), At(28))
  }

  function DesignEnd(r: Run, a: Answers, f: Faults): Status {
    var asked := Asks(r, a.agent, f, At(21));
    :- asked;
    :- Fails(f, At(22));
    :- Survives(f, At(23));
    :- Survives(f, At(24));
    :- Fails(f, At(25));
    Survives(f, At(26))
  }

  function FirstPlanEnd(r: Run, a: Answers, f: Faults): Status {
    if !Acts(ProducePlan, r) then Running
    else if IsReady(r.ctx.specData.value) then
      :- Survives(f, At(5));
      PlanningEnd(r, a, f)
    else
      :- Fails(f, At(0));
      if !r.ctx.dorReclarified && r.ctx.specData.value.openQuestions > 0 then
        :- Survives(f, At(1));
        :- Survives(f, At(2));
        Survives(f, At(3))
      else Survives(f, At(4))
  }

  function DecisionEnd(r: Run, body: string, a: Answers, f: Faults): Status {
    if !Acts(ResumePlanDecision, r) then Running
    else if Commands(body, "approve") then
      :- Fails(f, At(0));
      :- Survives(f, At(1));
      Survives(f, At(2))
    else if Commands(body, "abort") then Closes(f, At(3), At(4))
    else if r.ctx.specData.None? then Running
    else if r.ctx.revisions >= PLAN_REVISION_CAP then Fails(f, At(5))
    else
      :- Survives(f, At(6));
      PlanningEnd(r, a, f)
  }

  function GuidanceEnd(r: Run, body: string, f: Faults): Status {
    if !Acts(ResumeImplementation, r) then Running
    else if IsImplAbort(body) then Closes(f, At(0), At(1))
    else if r.ctx.implHelp.GetOr(ImplHelp(-1, 0, None)).rounds >= IMPL_HELP_CAP then Closes(f, At(2), At(3))
    else
      :- Survives(f, At(4));
      :- Survives(f, At(5));
      :- Survives(f, At(6));
      Fails(f, At(7))
  }

  function ReviewEnd(r: Run, a: Answers, f: Faults): Status {
    if !Acts(Review, r) then Running else
    :- Fails(f, At(0));
    Caught(PullRequestEnd(r, a, f), f, At(5), At(6))
  }

  function PullRequestEnd(r: Run, a: Answers, f: Faults): Status {
    var asked := Asks(r, a.agent, f, At(1));
    :- asked;
    :- Fails(f, At(2));
    :- Fails(f, At(3));
    Survives(f, At(4))
  }

  // ---- Fixing ----

  // Whatever happens in the sandbox, it is closed, unless the worker is dead.
  function Shut(s: Status, f: Faults, at: Site): Status {
    if s == Threw(Died) || f(at).None? then s else Threw(f(at).value)
  }

  // One attempt: its calls, and what it throws.
  function Attempts(r: Run, t: TddReply): Status {
    if !CanSpend(r, t.costs) then Threw(Budget)
    else if t.fault.Some? then Threw(t.fault.value)
    else Running
  }

  function FixEnd(r: Run, a: Answers, f: Faults): Status {
    if !Acts(Fix, r) then Running else Caught(TriageEnd(r, a, f), f, At(15), At(16))
  }

  function TriageEnd(r: Run, a: Answers, f: Faults): Status {
    var asked := Asks(r, a.agent, f, At(0));
    :- asked;
    match a.triage
    case Vague => Fails(f, At(1))
    case Rework =>
      :- Fails(f, At(1));
      :- Survives(f, At(2));
      Survives(f, At(3))
    case Actionable =>
      if r.ctx.fixRounds >= FIX_ROUND_CAP then Closes(f, At(1), At(2)) else
      :- Fails(f, At(12));
      :- Fails(f, At(13));
      Shut(FixInSandboxEnd(Paid(r, a.agent.cost), a.tdd(0), f), f, At(14))
  }

  function FixInSandboxEnd(r: Run, t: TddReply, f: Faults): Status {
    var cloned := Fails(f, At(4));
    :- cloned;
    :- Attempts(r, t);
    match t.outcome
    case Stalled => Closes(f, At(5), At(6))
    case AlreadySatisfied => Fails(f, At(7))
    case Landed =>
      :- Fails(f, At(8));
      :- Fails(f, At(9));
      :- Survives(f, At(10));
      Fails(f, At(11))
  }

  // ---- Implementing ----

  function ImplementationEnd(r: Run, first: nat, a: Answers, f: Faults): Status {
    if !Acts(Implement, r) then Running else
    :- Fails(f, At(0));
    :- Fails(f, At(1));
    Shut(Caught(BuildEnd(r, first, a, f), f, At(13), At(14)), f, At(15))
  }

  // The set-up comes first, if the plan announced one and it is still missing.
  function BuildEnd(r: Run, first: nat, a: Answers, f: Faults): Status {
    if r.ctx.bootstrap.None? then CodingEnd(r, first, a, f) else
    :- Fails(f, At(2));
    if !a.setupMissing then CodingEnd(r, first, a, f) else
    :- Fails(f, At(3));
    if !a.setupGreen then Closes(f, At(4), At(5)) else
    :- Fails(f, At(6));
    :- Fails(f, At(7));
    CodingEnd(After(r, SetupCommitted), first, a, f)
  }

  predicate Records(f: Faults, n: nat) {
    forall j: nat | 1 <= j <= n :: f(Record(j)) != Some(Died)
  }

  function CodingEnd(r: Run, first: nat, a: Answers, f: Faults): Status {
    if r.tasks != [] then
      :- Fails(f, At(9));
      TasksEnd(r, 0, a, f)
    else
      :- Asks(r, a.agent, f, At(8));
      if !Records(f, a.taskCount) then Threw(Died) else
      :- Fails(f, At(9));
      var taken := After(Paid(r, a.agent.cost), Decomposed(a.taskCount));
      TasksEnd(taken.(tasks := NewTasks(first, a.taskCount)), 0, a, f)
  }

  predicate AsksHelpFor(r: Run, i: nat)
    requires i < |r.tasks|
  {
    r.ctx.implHelp.Some? && r.ctx.implHelp.value.taskId == r.tasks[i].id
  }

  function TurnEnd(r: Run, i: nat, t: TddReply, f: Faults): Status
    requires i < |r.tasks|
  {
    if Exhausted(r) then Closes(f, Turn(i, 0), Turn(i, 1)) else
    :- Attempts(r, t);
    match t.outcome
    case Stalled =>
      :- Survives(f, Turn(i, 3));
      :- Survives(f, Turn(i, 4));
      :- Fails(f, Turn(i, 5));
      Survives(f, Turn(i, 6))
    case AlreadySatisfied =>
      :- Survives(f, Turn(i, 7));
      if AsksHelpFor(r, i) then Survives(f, Turn(i, 8)) else Running
    case Landed =>
      :- Fails(f, Turn(i, 9));
      :- Fails(f, Turn(i, 10));
      :- Survives(f, Turn(i, 11));
      if AsksHelpFor(r, i) then Survives(f, Turn(i, 12)) else Running
  }

  // The loop over the tasks, and what follows it unless one of them parks or closes the run.
  function TasksEnd(r: Run, i: nat, a: Answers, f: Faults): Status
    requires i <= |r.tasks|
    decreases |r.tasks| - i
  {
    if i == |r.tasks| then
      :- Fails(f, At(10));
      :- Survives(f, At(11));
      Survives(f, At(12))
    else if r.tasks[i].status.Done? then TasksEnd(r, i + 1, a, f)
    else
      :- TurnEnd(r, i, a.tdd(i), f);
      var p := Turned(r, i, a.tdd(i));
      if p.over then Running else TasksEnd(p.run, i + 1, a, f)
  }

  // ---- All handlers ----

  function End(kind: JobKind, body: string, r: Run, first: nat, a: Answers, f: Faults): Status {
    match kind
    case IssueOpened => AcknowledgementEnd(r, f)
    case ProduceSpec => SpecificationEnd(r, a, f)
    case Clarify => ClarificationEnd(r, a, f)
    case ResumeClarification => AnsweredClarificationEnd(r, a, f)
    case ProducePlan => FirstPlanEnd(r, a, f)
    case ResumePlanDecision => DecisionEnd(r, body, a, f)
    case Implement => ImplementationEnd(r, first, a, f)
    case ResumeImplementation => GuidanceEnd(r, body, f)
    case Review => ReviewEnd(r, a, f)
    case Fix => FixEnd(r, a, f)
  }

  // ---- Refusals ----

  lemma CloseEnds(st: St, s: RunState, f: Faults, post: Site, close: Site)
    requires Live(st)
    ensures CloseWith(st, s, f, post, close).status == Closes(f, post, close)
  {
    hide Ok, Watch, Note, MayEnter, SameMarks;
  }

  lemma BudgetEnds(st: St, f: Faults, post: Site, close: Site)
    ensures OnBudget(st, f, post, close).status == Caught(st.status, f, post, close)
    ensures st.status in {Threw(Budget), Threw(NoRecipe)} ==> OnRefusal(st, f, post, close).status == Closes(f, post, close)
  {
    hide CloseWith, Refused, Closes;
    CloseEnds(st.(status := Running), Failed, f, post, close);
  }

  lemma AskEnds(st: St, reply: AgentReply, f: Faults, at: Site)
    requires Live(st)
    ensures Ask(st, reply, f, at).status == Asks(st.run, reply, f, at)
  {
    hide Ok, Watch, Pay;
  }

  // ---- Specifying and clarifying ----

  lemma AcknowledgementEnds(st: St, f: Faults)
    requires Live(st)
    ensures HandleIssueOpened(st, f).status == AcknowledgementEnd(st.run, f)
  {
    hide Ok, Watch, Note, MayEnter;
  }

  lemma AnnouncementEnds(st: St, a: Answers, f: Faults)
    requires Live(st)
    ensures AnnounceSpec(st, a, f).status == AnnouncementEnd(f)
  {
    hide Ok, Watch, Note, MayEnter, SameDeaths, SamePlan;
  }

  lemma DraftEnds(st: St, a: Answers, f: Faults)
    requires Live(st)
    ensures ProduceSpecBody(st, a, f).status == DraftEnd(st.run, a, f)
  {
    hide Ok, Watch, Note, Ask, AnnounceSpec, AnnouncementEnd, Asks, MayEnter;
    AskEnds(st, a.intake, f, At(6));
    AskLeaves(st, a.intake, f, At(6));
    var st6 := Ask(st, a.intake, f, At(6));
    if Live(st6) {
      AskEnds(st6, a.agent, f, At(7));
      SameAsks(st6.run, Paid(st.run, a.intake.cost), a.agent, f, At(7));
      var st9 := RecordSpec(Effect(Ask(st6, a.agent, f, At(7)), SpecCommitted, f, At(8)), f, At(9));
      if Live(st9) { AnnouncementEnds(st9, a, f); }
    }
  }

  lemma SameAsks(r: Run, t: Run, reply: AgentReply, f: Faults, at: Site)
    requires Same(r, t)
    ensures Asks(r, reply, f, at) == Asks(t, reply, f, at)
  {
  }

  lemma SpecificationEnds(st: St, a: Answers, f: Faults)
    requires Live(st)
    ensures HandleProduceSpec(st, a, f).status == SpecificationEnd(st.run, a, f)
  {
    hide Ok, Watch, Note, ProduceSpecBody, DraftEnd, CloseWith, OnBudget, Caught, Closes, MayEnter, SameMarks;
    var st2 := Tolerate(Call(SetState(st, Specifying, f, At(0)), f, At(1)), f, At(2));
    var st5 := Call(st2, f, At(5));
    if Live(st2) { CloseEnds(st2, Unsupported, f, At(3), At(4)); }
    if Live(st5) {
      DraftEnds(st5, a, f);
      SameDraft(st5.run, st.run, a, f);
      BudgetEnds(ProduceSpecBody(st5, a, f), f, At(14), At(15));
    }
  }

  lemma SameDraft(r: Run, t: Run, a: Answers, f: Faults)
    requires r.budget == t.budget && r.spent == t.spent
    ensures DraftEnd(r, a, f) == DraftEnd(t, a, f)
  {
  }

  lemma QuestionsEnds(st: St, a: Answers, f: Faults)
    requires Live(st)
    ensures ClarifyBody(st, a, f).status == QuestionsEnd(st.run, a, f)
  {
    hide Ok, Watch, Note, Ask, CloseWith, Closes, Asks, MayEnter, SameMarks;
    AskEnds(st, a.agent, f, At(1));
    var asked := Ask(st, a.agent, f, At(1));
    if Live(asked) { CloseEnds(asked, Failed, f, At(4), At(5)); }
  }

  lemma ClarificationEnds(st: St, a: Answers, f: Faults)
    requires Live(st)
    ensures HandleClarify(st, a, f).status == ClarificationEnd(st.run, a, f)
  {
    hide Ok, Watch, ClarifyBody, QuestionsEnd, OnBudget, Caught;
    var st0 := Tolerate(st, f, At(0));
    if Live(st0) { QuestionsEnds(st0, a, f); } else { BodyStopped(st0, a, f); }
    BudgetEnds(ClarifyBody(st0, a, f), f, At(9), At(10));
    DeathStays(f, At(9), At(10));
  }

  lemma DeathStays(f: Faults, post: Site, close: Site)
    ensures forall s | s != Threw(Budget) :: Caught(s, f, post, close) == s
  {
  }

  lemma RedraftEnds(st: St, a: Answers, f: Faults)
    requires Live(st)
    ensures ResumeClarificationBody(st, a, f).status == RedraftEnd(st.run, a, f)
  {
    hide Ok, Watch, Note, Ask, Asks, MayEnter;
    AskEnds(st, a.agent, f, At(1));
  }

  lemma AnsweredEnds(st: St, a: Answers, f: Faults)
    requires Live(st)
    ensures HandleResumeClarification(st, a, f).status == AnsweredClarificationEnd(st.run, a, f)
  {
    hide Ok, Watch, ResumeClarificationBody, RedraftEnd, OnBudget, Caught;
    var st0 := Call(st, f, At(0));
    if Live(st0) { RedraftEnds(st0, a, f); } else { BodyStopped(st0, a, f); }
    BudgetEnds(ResumeClarificationBody(st0, a, f), f, At(8), At(9));
    DeathStays(f, At(8), At(9));
  }

  // ---- Planning ----

  lemma ArchitectEndsAs(st: St, a: Answers, f: Faults)
    requires Live(st)
    ensures Architect(st, a, f).status ==
      if f(At(20)).Some? then Threw(f(At(20)).value)
      else if a.setup.Some? && !a.recipe then Threw(NoRecipe)
      else
        :- Asks(st.run, a.agent, f, At(21));
        :- Fails(f, At(22));
        Survives(f, At(23))
  {
    hide Ok, Watch, Note, Ask, Asks, MayEnter;
    var called := Call(st, f, At(20));
    if Live(called) { AskEnds(called, a.agent, f, At(21)); }
  }

  lemma ParkEndsAs(st: St, revisions: nat, setup: Option<SetupAction>, f: Faults)
    requires Live(st)
    ensures ParkAtPlanGate(st, revisions, setup, f).status ==
      :- Survives(f, At(24));
      :- Fails(f, At(25));
      Survives(f, At(26))
  {
    hide Ok, Watch, Note, MayEnter, WithPlan;
  }

  lemma PlanningEnds(st: St, revisions: nat, a: Answers, f: Faults)
    requires Live(st)
    ensures OnRefusal(PlanAndPark(st, revisions, a, f), f, At(27), At(28)).status == PlanningEnd(st.run, a, f)
  {
    hide Ok, Watch, Note, Architect, ParkAtPlanGate, OnRefusal, Closes;
    var made := Architect(st, a, f);
    ArchitectEndsAs(st, a, f);
    if Live(made) { ParkEndsAs(made, revisions, a.setup, f); } else { ParkStopped(made, revisions, a.setup, f); }
    BudgetEnds(PlanAndPark(st, revisions, a, f), f, At(27), At(28));
  }

  lemma StartPlanEndsAs(st: St, revisions: nat, a: Answers, f: Faults, at: Site)
    requires Live(st)
    ensures StartPlan(st, revisions, a, f, at).status ==
      :- Survives(f, at);
      PlanningEnd(st.run, a, f)
  {
    hide Ok, Watch, Note, PlanAndPark, OnRefusal, PlanningEnd, MayEnter, SamePlan, SameDeaths;
    var st5 := SetState(st, Planning, f, at);
    if Live(st5) {
      PlanningEnds(st5, revisions, a, f);
      SamePlanning(st5.run, st.run, a, f);
    }
  }

  lemma SamePlanning(r: Run, t: Run, a: Answers, f: Faults)
    requires r.budget == t.budget && r.spent == t.spent
    ensures PlanningEnd(r, a, f) == PlanningEnd(t, a, f)
  {
  }

  lemma ReadinessEnds(st: St, spec: Spec, f: Faults)
    requires Live(st)
    ensures DorRefusal(st, spec, f).status ==
      :- Fails(f, At(0));
      if !st.run.ctx.dorReclarified && spec.openQuestions > 0 then
        :- Survives(f, At(1));
        :- Survives(f, At(2));
        Survives(f, At(3))
      else Survives(f, At(4))
  {
    hide Ok, Watch, Note, MayEnter;
  }

  lemma FirstPlanEnds(st: St, a: Answers, f: Faults)
    requires Live(st)
    ensures HandleProducePlan(st, a, f).status == FirstPlanEnd(st.run, a, f)
  {
    hide Ok, Watch, StartPlan, DorRefusal, PlanningEnd, IsReady;
    StartPlanEndsAs(st, st.run.ctx.revisions, a, f, At(5));
    if st.run.ctx.specData.Some? { ReadinessEnds(st, st.run.ctx.specData.value, f); }
  }

  lemma ApprovalEnds(st: St, body: string, f: Faults)
    requires Live(st)
    ensures ApprovePlan(st, body, f).status ==
      :- Fails(f, At(0));
      :- Survives(f, At(1));
      Survives(f, At(2))
  {
    hide Ok, Watch, Note, MayEnter;
  }

  lemma DecisionEnds(st: St, body: string, a: Answers, f: Faults)
    requires Live(st)
    ensures HandleResumePlanDecision(st, body, a, f).status == DecisionEnd(st.run, body, a, f)
  {
    hide Ok, Watch, Note, StartPlan, ApprovePlan, CloseWith, Closes, PlanningEnd, ParsePlanDecision, Commands;
    DecisionIff(body);
    ApprovalEnds(st, body, f);
    CloseEnds(st, Aborted, f, At(3), At(4));
    StartPlanEndsAs(st, st.run.ctx.revisions + 1, a, f, At(6));
  }

  // ---- Help, review and fixes ----

  lemma GuidanceEnds(st: St, body: string, f: Faults)
    requires Live(st)
    ensures HandleResumeImplementation(st, body, f).status == GuidanceEnd(st.run, body, f)
  {
    hide Ok, Watch, CloseWith, Closes, IsImplAbort, HelpIsCurrent, MayEnter, SameMarks, Note;
    CloseEnds(st, Aborted, f, At(0), At(1));
    CloseEnds(st, Failed, f, At(2), At(3));
  }

  lemma PullRequestEnds(st: St, a: Answers, f: Faults)
    requires Live(st)
    ensures ReviewBody(st, a, f).status == :- Fails(f, At(0)); PullRequestEnd(st.run, a, f)
  {
    hide Ok, Watch, Note, Ask, Asks, DoneCount, MayEnter;
    var called := Call(st, f, At(0));
    if Live(called) { AskEnds(called, a.agent, f, At(1)); }
  }

  lemma ReviewEnds(st: St, a: Answers, f: Faults)
    requires Live(st)
    ensures HandleReview(st, a, f).status == ReviewEnd(st.run, a, f)
  {
    hide Ok, Watch, ReviewBody, PullRequestEnd, OnBudget, Caught;
    PullRequestEnds(st, a, f);
    BudgetEnds(ReviewBody(st, a, f), f, At(5), At(6));
    DeathStays(f, At(5), At(6));
  }

  // `base` is the run, but for the time of its last write.
  lemma AttemptEnds(st: St, base: Run, t: TddReply)
    requires Live(st) && Same(st.run, base)
    ensures RunTdd(st, t).status == Attempts(base, t)
  {
    hide Ok, Watch, Spend, CanSpend, Spent;
    SpendLeaves(st, base, t.costs);
  }

  lemma CountEnds(st: St, f: Faults, commit: Site, count: Site)
    requires Live(st)
    ensures FixLanded(st, f, commit, count).status == :- Fails(f, commit); Survives(f, count)
  {
    hide Ok, Watch, Note, SameMarks, MayFix;
  }

  lemma SandboxFixEnds(st: St, base: Run, a: Answers, f: Faults)
    requires Live(st) && Same(st.run, base)
    ensures FixInSandbox(st, a, f).status == FixInSandboxEnd(base, a.tdd(0), f)
  {
    hide Ok, Watch, Note, RunTdd, FixLanded, CloseWith, Closes, Attempts, MayEnter, SameMarks;
    var begun := Call(st, f, At(4));
    if Live(begun) {
      AttemptEnds(begun, base, a.tdd(0));
      var tried := RunTdd(begun, a.tdd(0));
      if Live(tried) {
        CloseEnds(tried, Failed, f, At(5), At(6));
        var read := Call(tried, f, At(8));
        if Live(read) { CountEnds(read, f, At(9), At(10)); }
      }
    }
  }

  lemma TriageEnds(st: St, body: string, a: Answers, f: Faults)
    requires Live(st)
    ensures FixBody(st, body, a, f).status == TriageEnd(st.run, a, f)
  {
    hide Ok, Watch, Note, Ask, Asks, FixInSandbox, FixInSandboxEnd, CloseWith, Closes, MayEnter, SameMarks;
    AskEnds(st, a.agent, f, At(0));
    AskLeaves(st, a.agent, f, At(0));
    var asked := Ask(st, a.agent, f, At(0));
    if Live(asked) {
      CloseEnds(asked, Failed, f, At(1), At(2));
      var begun := Call(Call(asked, f, At(12)), f, At(13));
      if Live(begun) { SandboxFixEnds(begun, Paid(st.run, a.agent.cost), a, f); }
    } else {
      FixActionableStopped(asked, a, f);
    }
  }

  lemma FixEnds(st: St, body: string, a: Answers, f: Faults)
    requires Live(st)
    ensures HandleFix(st, body, a, f).status == FixEnd(st.run, a, f)
  {
    hide Ok, Watch, FixBody, TriageEnd, OnBudget, Caught;
    if Acts(Fix, st.run) {
      TriageEnds(st, body, a, f);
      BudgetEnds(FixBody(st, body, a, f), f, At(15), At(16));
    }
  }

  // ---- Implementing ----

  lemma {:induction false} RecordingEnds(st: St, n: nat, f: Faults)
    requires Live(st)
    ensures RecordTasks(st, n, f).status == if Records(f, n) then Running else Threw(Died)
    decreases n
  {
    hide Ok, Watch;
    if n > 0 {
      var tried := Tolerate(st, f, Record(n));
      if Live(tried) { RecordingEnds(RecordTask(tried), n - 1, f); }
    }
  }

  // The set-up, up to what may follow it.
  lemma SetupEnds(st: St, a: Answers, f: Faults)
    requires Live(st)
    ensures BootstrapStep(st, a, f).status ==
      if st.run.ctx.bootstrap.None? then Running else
      :- Fails(f, At(2));
      if !a.setupMissing then Running else
      :- Fails(f, At(3));
      if !a.setupGreen then
        :- Closes(f, At(4), At(5));
        Returned
      else
        :- Fails(f, At(6));
        Fails(f, At(7))
  {
    hide Ok, Watch, Note, CloseWith, Closes, SameMarks;
    var tried := Call(Call(st, f, At(2)), f, At(3));
    if Live(tried) { CloseEnds(tried, Failed, f, At(4), At(5)); }
  }

  lemma DecompositionEnds(st: St, a: Answers, f: Faults)
    requires Live(st)
    ensures DecomposeStep(st, a, f).status ==
      if st.run.tasks != [] then Running else
      :- Asks(st.run, a.agent, f, At(8));
      if Records(f, a.taskCount) then Running else Threw(Died)
  {
    hide Ok, Watch, Note, Ask, Asks, RecordTasks, Records;
    AskEnds(st, a.agent, f, At(8));
    var asked := Ask(st, a.agent, f, At(8));
    if Live(asked) { RecordingEnds(NoteStep(asked, Decomposed(a.taskCount)), a.taskCount, f); }
  }

  lemma ParkingEnds(st: St, i: nat, f: Faults)
    requires Live(st) && i < |st.run.tasks|
    ensures ParkStalled(st, i, f).status ==
      :- Survives(f, Turn(i, 3));
      :- Survives(f, Turn(i, 4));
      :- Fails(f, Turn(i, 5));
      :- Survives(f, Turn(i, 6));
      Returned
  {
    hide Ok, Watch, Note, DoneCount, MayEnter;
  }

  lemma ClosingEnds(st: St, i: nat, f: Faults, at: Site, clear: Site)
    requires Live(st) && i < |st.run.tasks|
    ensures ClearHelp(UpdateTask(st, i, Done, f, at), st.run.tasks[i].id, f, clear).status ==
      :- Survives(f, at);
      if AsksHelpFor(st.run, i) then Survives(f, clear) else Running
  {
    hide Ok, Watch, DoneCount;
  }

  lemma AttemptsOrThrows(r: Run, t: TddReply)
    ensures Attempts(r, t).Running? || Attempts(r, t).Threw?
  {
  }

  // How one turn ends: as the reference says, or, where that goes on to nothing, by returning early.
  lemma TurnEnds(st: St, base: Run, i: nat, a: Answers, f: Faults)
    requires Live(st) && i < |st.run.tasks| && Same(st.run, base)
    ensures TaskTurn(st, i, a, f).status ==
      :- TurnEnd(base, i, a.tdd(i), f);
      if Exhausted(base) || a.tdd(i).outcome.Stalled? then Returned else Running
    ensures !TurnEnd(base, i, a.tdd(i), f).Returned?
  {
    hide Ok, Watch, Note, RunTdd, ParkStalled, UpdateTask, ClearHelp, CloseWith, Attempts, DoneCount, SameMarks, MayEnter;
    AttemptsOrThrows(base, a.tdd(i));
    if Exhausted(base) {
      CloseEnds(st, Failed, f, Turn(i, 0), Turn(i, 1));
    } else {
      AttemptEnds(st, base, a.tdd(i));
      var tried := RunTdd(st, a.tdd(i));
      if Live(tried) {
        var id := st.run.tasks[i].id;
        assert tried.run.tasks == st.run.tasks && tried.run.ctx == st.run.ctx;
        match a.tdd(i).outcome
        case Stalled => ParkingEnds(tried, i, f);
        case AlreadySatisfied => ClosingEnds(NoteStep(tried, FoundSatisfied(id)), i, f, Turn(i, 7), Turn(i, 8));
        case Landed =>
          var committed := Effect(Call(tried, f, Turn(i, 9)), TaskCommitted(id), f, Turn(i, 10));
          if Live(committed) {
            ClosingEnds(committed, i, f, Turn(i, 11), Turn(i, 12));
          } else {
            StoppedClosing(committed, i, id, f);
          }
      } else {
        TurnStopped(tried, i, st.run.tasks[i].id, f);
      }
    }
  }

  lemma StoppedClosing(st: St, i: nat, id: nat, f: Faults)
    requires !Live(st) && i < |st.run.tasks|
    ensures ClearHelp(UpdateTask(st, i, Done, f, Turn(i, 11)), id, f, Turn(i, 12)) == st
  {
    hide Ok, Watch, DoneCount;
  }

  lemma HandOnEnds(st: St, f: Faults)
    ensures HandToReview(st, f).status ==
      if !Live(st) then st.status else
      :- Fails(f, At(10));
      :- Survives(f, At(11));
      Survives(f, At(12))
  {
    hide Ok, Watch, Note, MayEnter;
  }

  // An early return counts as a return.
  function Plainly(s: Status): Status {
    if s.Returned? then Running else s
  }

  lemma {:induction false} TasksEnds(st: St, base: Run, i: nat, a: Answers, f: Faults)
    requires Live(st) && i <= |st.run.tasks| && Same(st.run, base)
    ensures Plainly(HandToReview(TaskLoop(st, i, a, f), f).status) == TasksEnd(base, i, a, f)
    decreases |st.run.tasks| - i
  {
    hide Ok, Watch, TaskTurn, Turned, TurnEnd, HandToReview;
    if i == |st.run.tasks| {
      HandOnEnds(st, f);
    } else if st.run.tasks[i].status.Done? {
      TasksEnds(st, base, i + 1, a, f);
    } else {
      var next, p := TaskTurn(st, i, a, f), Turned(base, i, a.tdd(i));
      TurnEnds(st, base, i, a, f);
      TurnLeaves(st, base, i, a, f);
      TurnKeepsCount(st, i, a, f);
      if Live(next) {
        TasksEnds(next, p.run, i + 1, a, f);
      } else {
        LoopStops(next, i, a, f);
        HandOnEnds(next, f);
      }
    }
  }

  lemma LoopStops(st: St, i: nat, a: Answers, f: Faults)
    requires !Live(st) && i < |st.run.tasks|
    ensures TaskLoop(st, i + 1, a, f) == st
  {
  }

  lemma CodingEnds(st: St, base: Run, a: Answers, f: Faults)
    requires Live(st) && Same(st.run, base)
    ensures Plainly(HandToReview(TaskLoop(Call(DecomposeStep(st, a, f), f, At(9)), 0, a, f), f).status)
         == CodingEnd(base, st.nextTask, a, f)
  {
    hide Ok, Watch, DecomposeStep, TaskLoop, HandToReview, TasksEnd, Asks, NewTasks, Records;
    DecompositionEnds(st, a, f);
    SameAsks(st.run, base, a.agent, f, At(8));
    DecomposeLeaves(st, base, a, f);
    var st8 := DecomposeStep(st, a, f);
    var st9 := Call(st8, f, At(9));
    if Live(st9) {
      var taken := After(Paid(base, a.agent.cost), Decomposed(a.taskCount)).(tasks := NewTasks(st.nextTask, a.taskCount));
      TasksEnds(st9, if base.tasks == [] then taken else base, 0, a, f);
    } else {
      TaskLoopStopped(st9, a, f);
      HandOnEnds(st9, f);
    }
  }

  lemma BuildEnds(st: St, a: Answers, f: Faults)
    requires Live(st)
    ensures Plainly(ImplementBody(st, a, f).status) == BuildEnd(st.run, st.nextTask, a, f)
  {
    hide Ok, Watch, BootstrapStep, DecomposeStep, TaskLoop, HandToReview, CodingEnd;
    SetupEnds(st, a, f);
    SetupLeaves(st, a, f);
    var st7 := BootstrapStep(st, a, f);
    if Live(st7) {
      var due := st.run.ctx.bootstrap.Some? && a.setupMissing;
      CodingEnds(st7, if due then After(st.run, SetupCommitted) else st.run, a, f);
    } else {
      StoppedStages(st7, a, f);
      HandOnEnds(st7, f);
    }
  }

  lemma ImplementationEnds(st: St, a: Answers, f: Faults)
    requires Live(st)
    ensures Plainly(HandleImplement(st, a, f).status) == ImplementationEnd(st.run, st.nextTask, a, f)
  {
    hide Ok, Watch, ImplementBody, BuildEnd, OnBudget;
    var begun := Call(Call(st, f, At(0)), f, At(1));
    if Live(begun) {
      BuildEnds(begun, a, f);
      BudgetEnds(ImplementBody(begun, a, f), f, At(13), At(14));
    }
  }

  // ---- All handlers ----

  // Every execution ends as its run, its answers and its faults say.
  lemma HandleEnds(kind: JobKind, body: string, st: St, a: Answers, f: Faults)
    requires Live(st)
    ensures Handle(kind, body, st, a, f).status == End(kind, body, st.run, st.nextTask, a, f)
  {
    hide HandleIssueOpened, HandleProduceSpec, HandleClarify, HandleResumeClarification, HandleProducePlan;
    hide HandleResumePlanDecision, HandleImplement, HandleResumeImplementation, HandleReview, HandleFix;
    hide AcknowledgementEnd, SpecificationEnd, ClarificationEnd, AnsweredClarificationEnd, FirstPlanEnd, DecisionEnd;
    hide ImplementationEnd, GuidanceEnd, ReviewEnd, FixEnd;
    EarlyReturns(st, body, a, f);
    EarlySpec(st, a, f);
    EarlyPlan(st, body, a, f);
    EarlyFix(st, body, a, f);
    match kind
    case IssueOpened => AcknowledgementEnds(st, f);
    case ProduceSpec => SpecificationEnds(st, a, f);
    case Clarify => ClarificationEnds(st, a, f);
    case ResumeClarification => AnsweredEnds(st, a, f);
    case ProducePlan => FirstPlanEnds(st, a, f);
    case ResumePlanDecision => DecisionEnds(st, body, a, f);
    case Implement => ImplementationEnds(st, a, f);
    case ResumeImplementation => GuidanceEnds(st, body, f);
    case Review => ReviewEnds(st, a, f);
    case Fix => FixEnds(st, body, a, f);
  }
}
