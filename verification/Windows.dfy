// The two windows in which a throw strands a run, said of what an execution finds and meets alone.
module Windows {
  import opened Wrappers
  import opened Pipeline
  import opened Plan
  import opened RunInvariant
  import opened Steps
  import opened HandlerSpec
  import opened RunSafety
  import opened RunProgress
  import opened Chronicle
  import opened Outcomes
  import opened Endings

  // ---- Between the spec and its announcement ----

  // A model call that is made and answered.
  predicate IsAnswered(left: int, reply: AgentReply, f: Faults, at: Site) {
    left > 0 && f(at).None? && !reply.malformed
  }

  // Everything up to the record of the spec is reached and returns.
  predicate SpecIsRecorded(r: Run, a: Answers, f: Faults) {
    var left := r.budget - r.spent;
    && !r.hasSpec
    && f(At(0)) != Some(Died) && f(At(1)).None? && f(At(2)) != Some(Died)
    && a.supported && f(At(5)).None?
    && IsAnswered(left, a.intake, f, At(6)) && IsAnswered(left - a.intake.cost, a.agent, f, At(7))
    && f(At(8)).None? && f(At(9)) != Some(Died)
  }

  // A retryable throw meets the execution in one of the two windows.
  predicate InWindow(kind: JobKind, body: string, r: Run, a: Answers, f: Faults) {
    match kind
    case ProduceSpec => SpecIsRecorded(r, a, f) && f(At(10)) == Some(Other)
    case ProducePlan =>
      && Acts(ProducePlan, r) && IsReady(r.ctx.specData.value)
      && f(At(5)) != Some(Died) && PlanningEnd(r, a, f) == Threw(Other)
    case ResumePlanDecision =>
      && Acts(ResumePlanDecision, r) && ParsePlanDecision(body).Changes?
      && r.ctx.specData.Some? && r.ctx.revisions < PLAN_REVISION_CAP
      && f(At(6)) != Some(Died) && PlanningEnd(r, a, f) == Threw(Other)
    case _ => false
  }

  // ---- Marks ----

  predicate IsMarked(r: Run) {
    Watch(r.history).stranded
  }

  lemma MarkKept(m: Monitor, e: Event)
    requires !e.Stranded?
    ensures Observe(m, e).stranded == m.stranded
  {
  }

  lemma NoMark(e: Event, s: Scope)
    requires InScope(e, s) && !s.losses
    ensures !e.Stranded?
  {
  }

  lemma {:induction false} MarksAdded(h: History, g: History, s: Scope)
    requires Adds(h, g, s) && !s.losses
    ensures Watch(g).stranded == Watch(h).stranded
  {
    hide Observe, InScope;
    if h != g {
      MarksAdded(h, g.past, s);
      NoMark(g.last, s);
      MarkKept(Watch(g.past), g.last);
    }
  }

  lemma StrandingMarks(st: St)
    requires !IsMarked(st.run)
    ensures IsMarked(Stranding(st).run) <==> st.status == Threw(Other)
  {
    hide Ok, Watch, NoteStep;
  }

  // ---- Specifying ----

  lemma SpecBodyLives(st: St, a: Answers, f: Faults)
    requires Live(st)
    ensures var left := st.run.budget - st.run.spent;
      Live(SpecBody(st, a, f)) <==>
        && IsAnswered(left, a.intake, f, At(6)) && IsAnswered(left - a.intake.cost, a.agent, f, At(7))
        && f(At(8)).None? && f(At(9)) != Some(Died)
  {
    hide Ok, Watch, Note, Ask, Effect, RecordSpec;
  }

  lemma SpecBodyMarks(st: St, a: Answers, f: Faults)
    ensures IsMarked(SpecBody(st, a, f).run) == IsMarked(st.run)
  {
    hide Ok, Watch, Note, Ask, Effect, RecordSpec, Adds;
    var st7 := Ask(Ask(st, a.intake, f, At(6)), a.agent, f, At(7));
    Unchanged(st.run.history, BARE);
    EffectAdds(st.run.history, st7, SpecCommitted, f, At(8), BARE);
    MarksAdded(st.run.history, SpecBody(st, a, f).run.history, BARE);
  }

  lemma AnnounceMarks(st: St, a: Answers, f: Faults)
    requires Live(st) && !IsMarked(st.run)
    ensures IsMarked(AnnounceSpec(st, a, f).run) <==> f(At(10)) == Some(Other)
  {
    hide Ok, Watch, Note, Post, Stranding, SetContext, SetState, Enqueue, Adds, MayEnter;
    var posted := Post(st, f, At(10));
    Unchanged(st.run.history, BARE);
    PostAdds(st.run.history, st, f, At(10), BARE);
    MarksAdded(st.run.history, posted.run.history, BARE);
    PostThrows(st, f, At(10));
    StrandingMarks(posted);
  }

  lemma PostThrows(st: St, f: Faults, at: Site)
    requires Live(st)
    ensures Post(st, f, at).status == if f(at).Some? then Threw(f(at).value) else Running
  {
    hide Ok, Watch, Note;
  }

  lemma BudgetMarks(st: St, f: Faults, post: Site, close: Site)
    ensures IsMarked(OnBudget(st, f, post, close).run) == IsMarked(st.run)
    ensures IsMarked(OnRefusal(st, f, post, close).run) == IsMarked(st.run)
  {
    hide Ok, Watch, OnBudget, OnRefusal;
  }

  lemma SpecMarks(st: St, a: Answers, f: Faults)
    requires Live(st) && !IsMarked(st.run)
    ensures IsMarked(HandleProduceSpec(st, a, f).run) <==> InWindow(ProduceSpec, "", st.run, a, f)
  {
    hide Ok, Watch, Note, SetState, Call, Tolerate, CloseWith, OnBudget, ProduceSpecBody, SpecBody, AnnounceSpec;
    hide IsAnswered, MayEnter, Ask;
    var st2 := Tolerate(Call(SetState(st, Specifying, f, At(0)), f, At(1)), f, At(2));
    var st5 := Call(st2, f, At(5));
    if !st.run.hasSpec && Live(st5) && a.supported {
      SpecBodySplit(st5, a, f);
      SpecBodyLives(st5, a, f);
      SpecBodyMarks(st5, a, f);
      if Live(SpecBody(st5, a, f)) { AnnounceMarks(SpecBody(st5, a, f), a, f); }
      BudgetMarks(ProduceSpecBody(st5, a, f), f, At(14), At(15));
    }
  }

  // ---- Planning ----

  lemma StartPlanMarks(st: St, revisions: nat, a: Answers, f: Faults, at: Site)
    requires Live(st) && !IsMarked(st.run)
    ensures IsMarked(StartPlan(st, revisions, a, f, at).run) <==>
      f(at) != Some(Died) && PlanningEnd(st.run, a, f) == Threw(Other)
  {
    hide Ok, Watch, Note, SetState, PlanAndPark, OnRefusal, Stranding, Adds, MayEnter, PlanningEnd;
    var st5 := SetState(st, Planning, f, at);
    if Live(st5) {
      PlanningEnds(st5, revisions, a, f);
      SamePlanning(st5.run, st.run, a, f);
      Unchanged(st5.run.history, PUTTING);
      PlanAndParkAdds(st5.run.history, st5, revisions, a, f);
      MarksAdded(st5.run.history, PlanAndPark(st5, revisions, a, f).run.history, PUTTING);
      BudgetMarks(PlanAndPark(st5, revisions, a, f), f, At(27), At(28));
      StrandingMarks(OnRefusal(PlanAndPark(st5, revisions, a, f), f, At(27), At(28)));
    }
  }

  lemma RefusalMarks(st: St, spec: Spec, f: Faults)
    ensures IsMarked(DorRefusal(st, spec, f).run) == IsMarked(st.run)
  {
    hide Ok, Watch, Adds, Post, SetContext, SetState, NoteStep, Enqueue, MayEnter;
    var h := st.run.history;
    Unchanged(h, BARE);
    Spoken(BARE);
    PostAdds(h, st, f, At(0), BARE);
    var st0 := Post(st, f, At(0));
    var st2 := SetState(SetContext(st0, st0.run.ctx.(dorReclarified := true), f, At(1)), Specifying, f, At(2));
    NoteAdds(h, st2, Reclarified, BARE);
    MarksAdded(h, DorRefusal(st, spec, f).run.history, BARE);
  }

  lemma PlanMarks(st: St, a: Answers, f: Faults)
    requires Live(st) && !IsMarked(st.run)
    ensures IsMarked(HandleProducePlan(st, a, f).run) <==> InWindow(ProducePlan, "", st.run, a, f)
  {
    hide Ok, Watch, DorRefusal, StartPlan, PlanningEnd;
    StartPlanMarks(st, st.run.ctx.revisions, a, f, At(5));
    if st.run.ctx.specData.Some? { RefusalMarks(st, st.run.ctx.specData.value, f); }
  }

  lemma DecisionMarks(st: St, body: string, a: Answers, f: Faults)
    requires Live(st) && !IsMarked(st.run)
    ensures IsMarked(HandleResumePlanDecision(st, body, a, f).run) <==> InWindow(ResumePlanDecision, body, st.run, a, f)
  {
    hide Ok, Watch, Note, ApprovePlan, CloseWith, StartPlan, Post, PlanningEnd, ParsePlanDecision, Adds;
    var h := st.run.history;
    StartPlanMarks(st, st.run.ctx.revisions + 1, a, f, At(6));
    ApprovePlanAdds(st, body, f);
    MarksAdded(Then(h, Approved(body)), ApprovePlan(st, body, f).run.history, BARE);
    ApprovalMarksNot(h, body);
    Unchanged(h, BARE);
    PostAdds(h, st, f, At(5), BARE);
    MarksAdded(h, Post(st, f, At(5)).run.history, BARE);
  }

  lemma ApprovalMarksNot(h: History, body: string)
    ensures Watch(Then(h, Approved(body))).stranded == Watch(h).stranded
  {
  }

  // ---- All handlers ----

  // An execution strands its run exactly if a retryable throw meets it in one of the two windows.
  lemma StrandedIff(kind: JobKind, body: string, st: St, a: Answers, f: Faults)
    requires Live(st) && !IsMarked(st.run)
    ensures IsMarked(Handle(kind, body, st, a, f).run) <==> InWindow(kind, body, st.run, a, f)
  {
    hide HandleIssueOpened, HandleProduceSpec, HandleClarify, HandleResumeClarification, HandleProducePlan;
    hide HandleResumePlanDecision, HandleImplement, HandleResumeImplementation, HandleReview, HandleFix;
    hide Adds, Watch, HasOpenTasks, SpecIsRecorded, PlanningEnd, ParsePlanDecision, Acts;
    match kind
    case ProduceSpec => SpecMarks(st, a, f);
    case ProducePlan => PlanMarks(st, a, f);
    case ResumePlanDecision => DecisionMarks(st, body, a, f);
    case _ =>
      HandleMoves(kind, body, st, a, f);
      MarksAdded(st.run.history, Handle(kind, body, st, a, f).run.history, ScopeOf(kind, st.run));
  }
}
