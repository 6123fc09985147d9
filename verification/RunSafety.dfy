// Every execution of every handler keeps its run's invariant, wherever it is cut short: by a throw of
// a foreign call, or by the death of the worker at any await.
module RunSafety {
  import opened Wrappers
  import opened Pipeline
  import opened Plan
  import opened RunInvariant
  import opened Steps
  import opened HandlerSpec

  lemma StateFacts(st: St)
    requires Ok(st)
    ensures MayEnter(st.run.state, st.run)
  {
  }

  // ---- Context writes ----

  lemma SpecDataKeeps(st: St, spec: Spec)
    requires Ok(st) && st.run.hasSpec
    ensures Ok(st.(run := st.run.(ctx := st.run.ctx.(specData := Some(spec)))))
  {
    hide Watch, DoneCount, Sum;
    assert HelpIsCurrent(st.run.(ctx := st.run.ctx.(specData := Some(spec)))) == HelpIsCurrent(st.run);
  }

  lemma QuestionsKeep(st: St, questions: nat)
    requires Ok(st) && st.run.hasSpec
    ensures Ok(st.(run := st.run.(ctx := st.run.ctx.(questions := questions))))
  {
    hide Watch, DoneCount, Sum;
    assert HelpIsCurrent(st.run.(ctx := st.run.ctx.(questions := questions))) == HelpIsCurrent(st.run);
  }

  lemma ReclarifiedKeeps(st: St)
    requires Ok(st) && st.run.hasSpec
    ensures Ok(st.(run := st.run.(ctx := st.run.ctx.(dorReclarified := true))))
  {
    hide Watch, DoneCount, Sum;
    assert HelpIsCurrent(st.run.(ctx := st.run.ctx.(dorReclarified := true))) == HelpIsCurrent(st.run);
  }

  lemma HelpKeeps(st: St, help: ImplHelp)
    requires Ok(st) && st.run.hasSpec && !st.run.state.AwaitingImplHelp?
    requires DoneCount(st.run.tasks) < |st.run.tasks|
    requires help.taskId == st.run.tasks[DoneCount(st.run.tasks)].id
    requires help.rounds == if st.run.ctx.implHelp.Some? then st.run.ctx.implHelp.value.rounds else 0
    ensures Ok(st.(run := st.run.(ctx := st.run.ctx.(implHelp := Some(help)))))
  {
    hide Watch, DoneCount, Sum;
    assert HelpIsCurrent(st.run.(ctx := st.run.ctx.(implHelp := Some(help))));
  }

  // ---- The handlers, one by one ----

  lemma IssueOpenedSafe(st: St, f: Faults)
    requires Ok(st)
    ensures Ok(HandleIssueOpened(st, f))
  {
    StateFacts(st);
    hide Ok, Note, Post, SetState, Enqueue, Watch;
  }

  lemma ProduceSpecSafe(st: St, a: Answers, f: Faults)
    requires Ok(st) && Live(st)
    ensures Ok(HandleProduceSpec(st, a, f))
  {
    hide Ok, MayEnter, Note, SetState, Call, Tolerate, CloseWith, OnBudget, ProduceSpecBody, Watch, SameMarks;
    if !st.run.hasSpec {
      MayStartSpec(st);
      var st2 := Tolerate(Call(SetState(st, Specifying, f, At(0)), f, At(1)), f, At(2));
      assert Ok(st2) && (Live(st2) ==> st2.run.state.Specifying?);
      if a.supported {
        var st5 := Call(st2, f, At(5));
        if Live(st5) { ProduceSpecBodySafe(st5, a, f); }
      } else {
        UnsupportedSafe(st2, f);
      }
    }
  }

  lemma MayStartSpec(st: St)
    requires Ok(st) && !st.run.hasSpec
    ensures MayEnter(Specifying, st.run)
  {
    hide Watch, DoneCount;
  }

  lemma UnsupportedSafe(st: St, f: Faults)
    requires Ok(st) && (Live(st) ==> st.run.state.Specifying?)
    ensures Ok(CloseWith(st, Unsupported, f, At(3), At(4)))
  {
    hide Ok, CloseWith, SameMarks;
  }

  lemma ProduceSpecBodySafe(st: St, a: Answers, f: Faults)
    requires Ok(st) && Live(st) && st.run.state.Specifying?
    ensures Ok(ProduceSpecBody(st, a, f))
  {
    StateFacts(st);
    hide Ok, Note, Ask, Effect, RecordSpec, Stranding, Post, SetContext, SetState, Enqueue, Watch;
    var st7 := Ask(Ask(st, a.intake, f, At(6)), a.agent, f, At(7));
    var st9 := RecordSpec(Effect(st7, SpecCommitted, f, At(8)), f, At(9));
    var st10 := Stranding(Post(st9, f, At(10)));
    if Live(st10) { SpecDataKeeps(st10, a.spec); }
  }

  lemma ClarifySafe(st: St, a: Answers, f: Faults)
    requires Ok(st) && Live(st) && st.run.ctx.specData.Some?
    ensures Ok(HandleClarify(st, a, f))
  {
    StateFacts(st);
    hide Ok, Note, Tolerate, Ask, SetState, Enqueue, CloseWith, SetContext, Post, OnBudget, Watch;
    var st1 := Ask(Tolerate(st, f, At(0)), a.agent, f, At(1));
    if Live(st1) && st.run.hasSpec && st.run.state.Specifying? {
      QuestionsKeep(st1, a.questions);
      assert MayEnter(Specified, st1.run) && MayEnter(AwaitingClarification, st1.run);
    }
  }

  lemma AnsweredFacts(st: St)
    requires Ok(st) && st.run.state.AwaitingClarification?
    ensures MayEnter(Specified, st.run)
  {
    hide Watch, DoneCount, Gated, WithinCaps, TasksInOrder, MoneyAdds;
  }

  lemma ResumeClarificationBodySafe(st: St, a: Answers, f: Faults)
    requires Ok(st) && Live(st) && st.run.state.AwaitingClarification? && st.run.hasSpec
    ensures Ok(ResumeClarificationBody(st, a, f))
  {
    hide Ok, Note, Ask, Effect, RecordSpec, Post, SetContext, SetState, Enqueue, Watch, MayEnter;
    var st1 := Ask(st, a.agent, f, At(1));
    var st3 := RecordSpec(Effect(st1, SpecCommitted, f, At(2)), f, At(3));
    var st4 := Post(st3, f, At(4));
    if Live(st4) { SpecDataKeeps(st4, a.spec); }
    AnsweredFacts(SetContext(st4, st4.run.ctx.(specData := Some(a.spec)), f, At(5)));
  }

  lemma ResumeClarificationSafe(st: St, a: Answers, f: Faults)
    requires Ok(st) && Live(st)
    ensures Ok(HandleResumeClarification(st, a, f))
  {
    hide Ok, Call, ResumeClarificationBody, OnBudget;
    var st0 := Call(st, f, At(0));
    if st.run.state.AwaitingClarification? && st.run.hasSpec {
      if Live(st0) { ResumeClarificationBodySafe(st0, a, f); } else { AnswerStopped(st0, a, f); }
    }
  }

  lemma AnswerStopped(st: St, a: Answers, f: Faults)
    requires !Live(st)
    ensures ResumeClarificationBody(st, a, f) == st
  {
    hide Ask, Effect, RecordSpec, Post, SetContext, SetState, Enqueue;
  }

  predicate PlanLanded(st: St, r: St) {
    && Live(st) && r.run.hasPlan && r.run.ctx == st.run.ctx && r.run.state.Planning?
    && Watch(r.run.history).planCommits == Watch(st.run.history).planCommits + 1
  }

  lemma ArchitectSafe(st: St, a: Answers, f: Faults)
    requires Ok(st) && st.run.hasSpec && st.run.state.Planning?
    requires MayNote(PlanCommitted, st.run)
    ensures Ok(Architect(st, a, f))
    ensures var r := Architect(st, a, f);
      Live(r) ==> PlanLanded(st, r)
  {
    hide Ok, Note, Call, Throw, Ask, Effect, RecordPlan, Watch;
  }

  lemma ParkSafe(st: St, revisions: nat, setup: Option<SetupAction>, f: Faults)
    requires Ok(st) && st.run.hasSpec && st.run.ctx.specData.Some?
    requires Live(st) ==> MayRecordPlan(st.run, revisions)
    ensures Ok(ParkAtPlanGate(st, revisions, setup, f))
  {
    hide Ok, Note, RecordPlanContext, Post, SetState, Watch, DoneCount;
    var st24 := RecordPlanContext(st, setup, revisions, f, At(24));
    assert Live(st24) ==> st24.run == WithPlan(st.run, setup, revisions, st.now);
    assert Live(Post(st24, f, At(25))) ==> MayEnter(AwaitingPlanApproval, Post(st24, f, At(25)).run);
  }

  lemma PlanAndParkSafe(st: St, revisions: nat, a: Answers, f: Faults)
    requires Ok(st) && st.run.hasSpec && st.run.ctx.specData.Some? && st.run.state.Planning?
    requires revisions <= PLAN_REVISION_CAP && MayNote(PlanCommitted, st.run)
    requires Watch(st.run.history).planCommits <= revisions
    ensures Ok(PlanAndPark(st, revisions, a, f))
  {
    hide Ok, Architect, ParkAtPlanGate, Watch, MayNote;
    ArchitectSafe(st, a, f);
    ArchitectKeeps(st, a, f);
    ParkSafe(Architect(st, a, f), revisions, a.setup, f);
  }

  lemma ArchitectKeeps(st: St, a: Answers, f: Faults)
    ensures var r := Architect(st, a, f);
      r.run.ctx == st.run.ctx && (st.run.hasSpec ==> r.run.hasSpec)
  {
    hide Ok, Note, Call, Throw, Ask, Effect, RecordPlan;
  }

  lemma StartPlanSafe(st: St, revisions: nat, a: Answers, f: Faults, at: Site)
    requires Ok(st) && Live(st) && MayEnter(Planning, st.run)
    requires revisions <= PLAN_REVISION_CAP && Watch(st.run.history).planCommits <= revisions
    requires Watch(st.run.history).planCommits == 0 || st.run.ctx.revisions < PLAN_REVISION_CAP
    requires revisions <= st.run.ctx.revisions + 1
    ensures Ok(StartPlan(st, revisions, a, f, at))
  {
    hide Ok, Note, SetState, Stranding, OnRefusal, PlanAndPark, Watch;
    var st5 := SetState(st, Planning, f, at);
    if Live(st5) { PlanAndParkSafe(st5, revisions, a, f); }
  }

  lemma ReclarifySafe(st: St, f: Faults)
    requires Ok(st) && (Live(st) ==> st.run.state.Specified? && !st.run.ctx.dorReclarified)
    ensures Ok(Reclarify(st, f))
  {
    if Live(st) {
      StateFacts(st);
      ReclarifiedKeeps(st);
      assert Watch(st.run.history).reclarified == 0;
    }
    hide Ok, Note, SetContext, SetState, NoteStep, Enqueue, Watch, DoneCount;
    var st1 := SetContext(st, st.run.ctx.(dorReclarified := true), f, At(1));
    var st2 := SetState(st1, Specifying, f, At(2));
    assert Live(st2) ==> MayEnter(Specifying, st1.run) && MayNote(Reclarified, st2.run);
  }

  lemma DorRefusalSafe(st: St, spec: Spec, f: Faults)
    requires Ok(st) && Live(st) && st.run.state.Specified?
    ensures Ok(DorRefusal(st, spec, f))
  {
    hide Ok, Note, Post, SetState, Reclarify, Watch;
    var st0 := Post(st, f, At(0));
    if !st0.run.ctx.dorReclarified { ReclarifySafe(st0, f); }
  }

  lemma ProducePlanSafe(st: St, a: Answers, f: Faults)
    requires Ok(st) && Live(st)
    ensures Ok(HandleProducePlan(st, a, f))
  {
    if st.run.state.Specified? && st.run.ctx.specData.Some? {
      FirstPlanSafe(st, a, f);
      DorRefusalSafe(st, st.run.ctx.specData.value, f);
    }
    hide Ok, StartPlan, DorRefusal;
  }

  lemma FirstPlanSafe(st: St, a: Answers, f: Faults)
    requires Ok(st) && Live(st) && st.run.state.Specified?
    ensures Ok(StartPlan(st, st.run.ctx.revisions, a, f, At(5)))
  {
    assert MayEnter(Planning, st.run) && Watch(st.run.history).planCommits == 0 && st.run.ctx.revisions == 0 by {
      hide Watch, DoneCount;
    }
    hide Ok, MayEnter, StartPlan, Watch;
    StartPlanSafe(st, st.run.ctx.revisions, a, f, At(5));
  }

  lemma PlanGateFacts(st: St)
    requires Ok(st) && st.run.state.AwaitingPlanApproval?
    ensures st.run.ctx.revisions < PLAN_REVISION_CAP ==> MayEnter(Planning, st.run)
    ensures Watch(st.run.history).planCommits <= st.run.ctx.revisions + 1
  {
    hide Watch, DoneCount;
  }

  lemma RevisionSafe(st: St, a: Answers, f: Faults)
    requires Ok(st) && Live(st) && st.run.state.AwaitingPlanApproval? && st.run.ctx.revisions < PLAN_REVISION_CAP
    ensures Ok(StartPlan(st, st.run.ctx.revisions + 1, a, f, At(6)))
  {
    PlanGateFacts(st);
    hide Ok, MayEnter, StartPlan, Watch;
    StartPlanSafe(st, st.run.ctx.revisions + 1, a, f, At(6));
  }

  lemma ReviseSafe(st: St, a: Answers, f: Faults)
    requires Ok(st) && Live(st) && st.run.state.AwaitingPlanApproval?
    ensures Ok(Revise(st, a, f))
  {
    hide Ok, Note, StartPlan, Post;
    if st.run.ctx.revisions < PLAN_REVISION_CAP { RevisionSafe(st, a, f); }
  }

  lemma ApprovePlanSafe(st: St, body: string, f: Faults)
    requires Ok(st) && Live(st) && st.run.state.AwaitingPlanApproval?
    requires body in st.run.heard && ParsePlanDecision(body).Approve?
    ensures Ok(ApprovePlan(st, body, f))
  {
    StateFacts(st);
    hide Ok, Note, NoteStep, Post, SetState, Enqueue, Watch, ParsePlanDecision;
    var noted := NoteStep(st, Approved(body));
    var st0 := Post(noted, f, At(0));
    assert Live(st0) ==> MayEnter(Implementing, st0.run);
  }

  lemma ResumePlanDecisionSafe(st: St, body: string, a: Answers, f: Faults)
    requires Ok(st) && Live(st) && body in st.run.heard
    ensures Ok(HandleResumePlanDecision(st, body, a, f))
  {
    if st.run.state.AwaitingPlanApproval? {
      ReviseSafe(st, a, f);
      if ParsePlanDecision(body).Approve? { ApprovePlanSafe(st, body, f); }
    }
    hide Ok, CloseWith, ApprovePlan, Revise, ParsePlanDecision;
  }

  // What the task loop needs of the run between two turns.
  predicate InLoop(st: St) {
    Ok(st) && (Live(st) ==> st.run.state.Implementing? && st.run.hasSpec)
  }

  lemma BootstrapStepSafe(st: St, a: Answers, f: Faults)
    requires InLoop(st) && Live(st)
    ensures InLoop(BootstrapStep(st, a, f))
    ensures Live(BootstrapStep(st, a, f)) ==> BootstrapStep(st, a, f).run.ctx == st.run.ctx
  {
    StateFacts(st);
    assert Watch(st.run.history).consent == st.run.ctx.bootstrap.Some?;
    hide Ok, Note, Call, ReturnEarly, CloseWith, Effect, Watch;
  }

  lemma DecomposeStepSafe(st: St, a: Answers, f: Faults)
    requires InLoop(st)
    ensures InLoop(DecomposeStep(st, a, f))
  {
    hide Ok, Note, Ask, RecordTasks, Watch;
  }

  lemma EscalatedCount(st: St, i: nat)
    requires Ok(st) && i < |st.run.tasks| && i == DoneCount(st.run.tasks)
    ensures DoneCount(WithStatus(st.run.tasks, i, Escalated)) == i
    ensures st.run.tasks[i].id == WithStatus(st.run.tasks, i, Escalated)[i].id
  {
    DoneCountIs(WithStatus(st.run.tasks, i, Escalated), i);
  }

  // Parking needs what the Implementing state gives, and the help just recorded.
  lemma MayPark(r: Run, help: ImplHelp)
    requires MayEnter(Implementing, r) && r.ctx.implHelp == Some(help)
    requires DoneCount(r.tasks) < |r.tasks| && help.taskId == r.tasks[DoneCount(r.tasks)].id
    ensures MayEnter(AwaitingImplHelp, r)
  {
    hide Watch, DoneCount;
  }

  lemma ParkStalledSafe(st: St, i: nat, f: Faults)
    requires InLoop(st) && Live(st) && i < |st.run.tasks| && i == DoneCount(st.run.tasks)
    ensures InLoop(ParkStalled(st, i, f)) && !Live(ParkStalled(st, i, f))
  {
    hide Ok, Note, UpdateTask, SetContext, Post, SetState, ReturnEarly, Watch, DoneCount, MayEnter;
    var st3 := UpdateTask(st, i, Escalated, f, Turn(i, 3));
    var rounds := if st.run.ctx.implHelp.Some? then st.run.ctx.implHelp.value.rounds else 0;
    var help := ImplHelp(st.run.tasks[i].id, rounds, None);
    EscalatedCount(st, i);
    if Live(st3) {
      HelpKeeps(st3, help);
      var st4 := SetContext(st3, st3.run.ctx.(implHelp := Some(help)), f, Turn(i, 4));
      var st5 := Post(st4, f, Turn(i, 5));
      if Live(st5) {
        StateFacts(st5);
        MayPark(st5.run, help);
      }
    }
  }

  // Closing task `i` moves the first undone task past it.
  lemma CloseTaskSafe(st: St, i: nat, f: Faults, at: Site, clear: Site)
    requires InLoop(st) && i < |st.run.tasks| && (Live(st) ==> i == DoneCount(st.run.tasks))
    ensures var r := ClearHelp(UpdateTask(st, i, Done, f, at), st.run.tasks[i].id, f, clear);
      InLoop(r) && |r.run.tasks| == |st.run.tasks| && (Live(r) ==> DoneCount(r.run.tasks) == i + 1)
  {
    var st1 := UpdateTask(st, i, Done, f, at);
    if Live(st1) {
      assert DonePrefix(st.run.tasks);
      DoneCountIs(st1.run.tasks, i + 1);
      if HelpIsCurrent(st1.run) {
        ClearedOnlyIfDone(st1, i, f, clear);
      }
    }
    hide Ok, Note, UpdateTask, ClearHelp, DoneCount, Watch;
  }

  // Help for a later task survives: ids differ, so nothing is cleared.
  lemma ClearedOnlyIfDone(st: St, i: nat, f: Faults, at: Site)
    requires Ok(st) && i < |st.run.tasks| && i < DoneCount(st.run.tasks) && HelpIsCurrent(st.run)
    ensures ClearHelp(st, st.run.tasks[i].id, f, at) == st
  {
    assert GrowingIds(st.run.tasks, st.nextTask);
    assert st.run.tasks[i].id < st.run.tasks[DoneCount(st.run.tasks)].id;
  }

  lemma ParkStalledStopped(st: St, i: nat, f: Faults)
    requires i < |st.run.tasks|
    ensures |ParkStalled(st, i, f).run.tasks| == |st.run.tasks|
    ensures !Live(st) ==> ParkStalled(st, i, f) == st
  {
    hide Note, UpdateTask, SetContext, Post, SetState, ReturnEarly;
  }

  lemma LandedSafe(st: St, i: nat, f: Faults)
    requires InLoop(st) && i < |st.run.tasks| && (Live(st) ==> i == DoneCount(st.run.tasks))
    ensures var st10 := Effect(Call(st, f, Turn(i, 9)), TaskCommitted(st.run.tasks[i].id), f, Turn(i, 10));
      InLoop(st10) && st10.run.tasks == st.run.tasks && (Live(st10) ==> i == DoneCount(st10.run.tasks))
  {
    StateFacts(st);
    hide Ok, Note, Call, Effect, Watch, DoneCount;
  }

  lemma TurnKeepsCount(st: St, i: nat, a: Answers, f: Faults)
    requires i < |st.run.tasks|
    ensures |TaskTurn(st, i, a, f).run.tasks| == |st.run.tasks|
  {
    hide Ok, Watch, RunTdd, ParkStalled, UpdateTask, ClearHelp, Call, Effect, NoteStep, CloseWith, ReturnEarly;
    hide SameMarks, DoneCount;
    ParkStalledStopped(RunTdd(st, a.tdd(i)), i, f);
  }

  lemma SatisfiedSafe(st: St, i: nat)
    requires InLoop(st) && i < |st.run.tasks| && (Live(st) ==> i == DoneCount(st.run.tasks))
    ensures var r := NoteStep(st, FoundSatisfied(st.run.tasks[i].id));
      InLoop(r) && r.run.tasks == st.run.tasks && (Live(r) ==> i == DoneCount(r.run.tasks))
  {
    hide Ok, Note, Watch, DoneCount;
  }

  lemma TaskTurnSafe(st: St, i: nat, a: Answers, f: Faults)
    requires InLoop(st) && Live(st) && i < |st.run.tasks| && i == DoneCount(st.run.tasks)
    ensures var r := TaskTurn(st, i, a, f);
      InLoop(r) && |r.run.tasks| == |st.run.tasks| && (Live(r) ==> DoneCount(r.run.tasks) == i + 1)
  {
    hide Ok, Note, RunTdd, ParkStalled, UpdateTask, ClearHelp, Call, Effect, CloseWith, ReturnEarly, Watch, DoneCount;
    hide MayEnter, NoteStep;
    var st1 := RunTdd(st, a.tdd(i));
    match a.tdd(i).outcome
    case Stalled =>
      ParkStalledStopped(st1, i, f);
      if Live(st1) { ParkStalledSafe(st1, i, f); }
    case AlreadySatisfied =>
      SatisfiedSafe(st1, i);
      CloseTaskSafe(NoteStep(st1, FoundSatisfied(st.run.tasks[i].id)), i, f, Turn(i, 7), Turn(i, 8));
    case Landed =>
      LandedSafe(st1, i, f);
      var taskId := st.run.tasks[i].id;
      var st10 := Effect(Call(st1, f, Turn(i, 9)), TaskCommitted(taskId), f, Turn(i, 10));
      CloseTaskSafe(st10, i, f, Turn(i, 11), Turn(i, 12));
  }

  lemma {:induction false} TaskLoopSafe(st: St, i: nat, a: Answers, f: Faults)
    requires InLoop(st) && i <= |st.run.tasks| && (Live(st) ==> i <= DoneCount(st.run.tasks))
    ensures var r := TaskLoop(st, i, a, f);
      InLoop(r) && (Live(r) ==> DoneCount(r.run.tasks) == |r.run.tasks|)
    decreases |st.run.tasks| - i
  {
    if i < |st.run.tasks| && Live(st) {
      if st.run.tasks[i].status.Done? {
        assert DonePrefix(st.run.tasks);
        TaskLoopSafe(st, i + 1, a, f);
      } else {
        TaskTurnSafe(st, i, a, f);
        hide Ok, Note, TaskTurn, Watch;
        TaskLoopSafe(TaskTurn(st, i, a, f), i + 1, a, f);
      }
    }
  }

  lemma ImplementSafe(st: St, a: Answers, f: Faults)
    requires Ok(st) && Live(st)
    ensures Ok(HandleImplement(st, a, f))
  {
    hide Ok, Note, Call, Closing, OnBudget, ImplementBody, Watch;
    var st1 := Call(Call(st, f, At(0)), f, At(1));
    if Live(st1) && st.run.state.Implementing? && st.run.hasSpec { ImplementBodySafe(st1, a, f); }
  }

  lemma ImplementBodySafe(st: St, a: Answers, f: Faults)
    requires InLoop(st) && Live(st)
    ensures Ok(ImplementBody(st, a, f))
  {
    BootstrapStepSafe(st, a, f);
    var st7 := BootstrapStep(st, a, f);
    DecomposeStepSafe(st7, a, f);
    var st8 := if Live(st7) then DecomposeStep(st7, a, f) else st7;
    hide Ok, Call, BootstrapStep, DecomposeStep, TaskLoop, HandToReview, Watch, DoneCount;
    var st9 := Call(st8, f, At(9));
    TaskLoopSafe(st9, 0, a, f);
    HandToReviewSafe(TaskLoop(st9, 0, a, f), f);
  }

  lemma HandToReviewSafe(st: St, f: Faults)
    requires InLoop(st) && (Live(st) ==> DoneCount(st.run.tasks) == |st.run.tasks|)
    ensures Ok(HandToReview(st, f))
  {
    StateFacts(st);
    hide Ok, Note, Post, SetState, Enqueue, Watch, DoneCount;
  }

  lemma ResumeImplementationSafe(st: St, body: string, f: Faults)
    requires Ok(st) && Live(st)
    ensures Ok(HandleResumeImplementation(st, body, f))
  {
    StateFacts(st);
    hide Ok, Note, CloseWith, AcceptGuidance, SetState, Enqueue, Post, Watch, DoneCount, IsImplAbort;
  }

  lemma ReviewFacts(st: St)
    requires Ok(st) && st.run.state.Reviewing?
    ensures DoneCount(st.run.tasks) == |st.run.tasks| && MayEnter(AwaitingPrReview, st.run)
  {
    hide Watch, DoneCount, Gated, WithinCaps, TasksInOrder, MoneyAdds;
  }

  lemma ReviewBodySafe(st: St, a: Answers, f: Faults)
    requires Ok(st) && Live(st) && st.run.state.Reviewing?
    ensures Ok(ReviewBody(st, a, f))
  {
    hide Ok, Note, Call, Ask, Effect, Post, SetState, Watch, DoneCount, MayEnter;
    var st1 := Ask(Call(st, f, At(0)), a.agent, f, At(1));
    ReviewFacts(st1);
    var st3 := Post(Effect(st1, PrOpened(0, |st.run.tasks|), f, At(2)), f, At(3));
    ReviewFacts(st3);
  }

  lemma ReviewSafe(st: St, a: Answers, f: Faults)
    requires Ok(st) && Live(st)
    ensures Ok(HandleReview(st, a, f))
  {
    hide Ok, ReviewBody, OnBudget;
    if st.run.state.Reviewing? { ReviewBodySafe(st, a, f); }
  }

  // A fix that is not committed leaves nothing; one that is has its round counted exactly if the worker
  // does not die at the count.
  lemma FixRoundCountedIff(st: St, f: Faults, commit: Site, count: Site)
    requires Live(st)
    ensures var r := FixLanded(st, f, commit, count);
      if f(commit).Some? then r.run == st.run
      else
        && Watch(r.run.history).fixCommits == Watch(st.run.history).fixCommits + 1
        && (r.run.ctx.fixRounds == st.run.ctx.fixRounds + 1 <==> f(count) != Some(Died))
  {
    hide Ok, Note, Call, Tolerate, Watch;
  }

  lemma FixInSandboxSafe(st: St, a: Answers, f: Faults)
    requires Ok(st) && Live(st) && MayFix(st.run)
    ensures Ok(FixInSandbox(st, a, f))
  {
    hide Ok, Note, Call, RunTdd, CloseWith, Post, FixLanded, Watch;
  }

  lemma FixActionableSafe(st: St, a: Answers, f: Faults)
    requires Ok(st) && (Live(st) ==> st.run.state.AwaitingPrReview?)
    ensures Ok(FixActionable(st, a, f))
  {
    hide Ok, CloseWith, Call, Closing, FixInSandbox;
    var st13 := Call(Call(st, f, At(12)), f, At(13));
    if Live(st13) && st.run.ctx.fixRounds < FIX_ROUND_CAP { FixInSandboxSafe(st13, a, f); }
  }

  lemma FixBodySafe(st: St, body: string, a: Answers, f: Faults)
    requires Ok(st) && (Live(st) ==> st.run.state.AwaitingPrReview? && MayEnter(AwaitingPlanApproval, st.run))
    ensures Ok(FixBody(st, body, a, f))
  {
    hide Ok, Note, Ask, Post, SetState, Enqueue, FixActionable, Watch, DoneCount;
    FixActionableSafe(Ask(st, a.agent, f, At(0)), a, f);
  }

  lemma FixSafe(st: St, body: string, a: Answers, f: Faults)
    requires Ok(st) && Live(st)
    ensures Ok(HandleFix(st, body, a, f))
  {
    StateFacts(st);
    hide Ok, FixBody, OnBudget, Watch, DoneCount;
    if st.run.state.AwaitingPrReview? { FixBodySafe(st, body, a, f); }
  }

  // A job that may be run against this run: clarifying needs the structured spec.
  predicate Ready(kind: JobKind, r: Run) {
    kind.IssueOpened? || kind.ProduceSpec? || (r.hasSpec && r.ctx.specData.Some?)
  }

  // A job that decides the plan gate carries a comment the run was told.
  predicate Voiced(kind: JobKind, body: string, r: Run) {
    kind.ResumePlanDecision? || kind.Fix? ==> body in r.heard
  }

  lemma HandleSafe(kind: JobKind, body: string, st: St, a: Answers, f: Faults)
    requires Ok(st) && Live(st) && Ready(kind, st.run) && Voiced(kind, body, st.run)
    ensures Ok(Handle(kind, body, st, a, f))
  {
    hide HandleIssueOpened, HandleProduceSpec, HandleClarify, HandleResumeClarification, HandleProducePlan;
    hide HandleResumePlanDecision, HandleImplement, HandleResumeImplementation, HandleReview, HandleFix;
    hide RunInv;
    match kind
    case IssueOpened => IssueOpenedSafe(st, f);
    case ProduceSpec => ProduceSpecSafe(st, a, f);
    case Clarify => ClarifySafe(st, a, f);
    case ResumeClarification => ResumeClarificationSafe(st, a, f);
    case ProducePlan => ProducePlanSafe(st, a, f);
    case ResumePlanDecision => ResumePlanDecisionSafe(st, body, a, f);
    case Implement => ImplementSafe(st, a, f);
    case ResumeImplementation => ResumeImplementationSafe(st, body, f);
    case Review => ReviewSafe(st, a, f);
    case Fix => FixSafe(st, body, a, f);
  }
}
