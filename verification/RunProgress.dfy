// What a handler execution hands on: which counters it may move, which job it may enqueue, and why a
// run whose handler returned or will be retried is never left without the job its state waits for.
module RunProgress {
  import opened Wrappers
  import opened Pipeline
  import opened Plan
  import opened RunInvariant
  import opened Steps
  import opened HandlerSpec
  import opened RunSafety

  // ---- Counters ----

  // Closed tasks stay closed, no task disappears, and a list once begun gets no more.
  predicate TasksKept(before: seq<Task>, after: seq<Task>) {
    && |before| <= |after| && (|before| > 0 ==> |after| == |before|)
    && forall i | 0 <= i < |before| ::
         after[i].id == before[i].id && (before[i].status.Done? ==> after[i].status.Done?)
  }

  // Help rounds only start over when another task has landed since.
  predicate HelpKept(before: Run, after: Run) {
    || DoneCount(before.tasks) < DoneCount(after.tasks)
    || (DoneCount(before.tasks) == DoneCount(after.tasks) &&
        (before.ctx.implHelp.Some? ==>
           after.ctx.implHelp.Some? && after.ctx.implHelp.value.rounds >= before.ctx.implHelp.value.rounds))
  }

  // The budget stays, and no counter goes back, but for the help rounds of a task that landed.
  predicate CountersKept(before: Run, after: Run) {
    && after.budget == before.budget
    && (before.ctx.dorReclarified ==> after.ctx.dorReclarified)
    && before.ctx.revisions <= after.ctx.revisions
    && before.ctx.fixRounds <= after.ctx.fixRounds
    && before.heard <= after.heard
    && (before.hasSpec ==> after.hasSpec)
    && (before.hasPlan ==> after.hasPlan)
    && (before.ctx.specData.Some? ==> after.ctx.specData.Some?)
    && TasksKept(before.tasks, after.tasks)
    && HelpKept(before, after)
  }

  // A step that left tasks and help alone keeps every counter it did not lower.
  predicate Quiet(before: Run, after: Run) {
    && after.tasks == before.tasks
    && after.ctx.implHelp == before.ctx.implHelp
    && after.budget == before.budget
    && (before.ctx.dorReclarified ==> after.ctx.dorReclarified)
    && before.ctx.revisions <= after.ctx.revisions
    && before.ctx.fixRounds <= after.ctx.fixRounds
    && before.heard <= after.heard
    && (before.hasSpec ==> after.hasSpec)
    && (before.hasPlan ==> after.hasPlan)
    && (before.ctx.specData.Some? ==> after.ctx.specData.Some?)
  }

  lemma QuietKeeps(before: Run, after: Run)
    requires Quiet(before, after)
    ensures CountersKept(before, after)
  {
  }

  lemma CountersKeptTransitive(a: Run, b: Run, c: Run)
    requires CountersKept(a, b) && CountersKept(b, c)
    ensures CountersKept(a, c)
  {
    hide DoneCount;
  }

  lemma SpecKept(before: Run, after: Run)
    requires CountersKept(before, after)
    ensures before.hasSpec && before.ctx.specData.Some? ==> after.hasSpec && after.ctx.specData.Some?
  {
  }

  // ---- Which job may follow which ----

  predicate MayFollow(kind: JobKind, before: Run, next: JobKind, after: Run) {
    match kind
    case IssueOpened => next.ProduceSpec? && before.state.Received? && after.state.Acknowledged?
    case ProduceSpec => next.Clarify?
    case Clarify => next.ProducePlan?
    case ResumeClarification => next.ProducePlan?
    case ProducePlan => next.Clarify? && !before.ctx.dorReclarified && after.ctx.dorReclarified
    case ResumePlanDecision => next.Implement?
    case Implement => next.Review?
    case ResumeImplementation => next.Implement?
    case Review => false
    case Fix => next.ResumePlanDecision?
  }

  // Only a rework request decides the plan gate anew, with its own comment.
  predicate Relays(kind: JobKind, body: string, r: St) {
    r.enq.Some? && r.enq.value.kind.ResumePlanDecision? ==> kind.Fix? && r.enq.value.body == body
  }

  // What an execution leaves, wherever it is cut short.
  predicate Leaves(kind: JobKind, st: St, r: St) {
    && r.status !in {Threw(Budget), Threw(NoRecipe)}
    && r.nextTask >= st.nextTask
    && r.run.budget == st.run.budget
    && MovesOn(st.run, r.run) && Strands(st, r)
    && (r.enq.Some? ==> MayFollow(kind, st.run, r.enq.value.kind, r.run) && Ready(r.enq.value.kind, r.run))
    && (kind.Implement? || r.run.tasks == st.run.tasks)
    && CountersKept(st.run, r.run)
  }

  // ---- What a run's state waits for ----

  datatype Need = Nothing | Wait(kind: JobKind) | Unreachable

  // Gates and terminal states wait for no job, and neither does a run a throw has stranded.
  function Needs(r: Run): Need {
    match r.state
    case Received => Wait(IssueOpened)
    case Acknowledged => Wait(ProduceSpec)
    case Specifying =>
      if !r.hasSpec then Wait(ProduceSpec)
      else if Watch(r.history).stranded then Nothing
      else Wait(Clarify)
    case Specified => Wait(ProducePlan)
    case Planning => if Watch(r.history).stranded then Nothing else Unreachable
    case Implementing => Wait(Implement)
    case Reviewing => Wait(Review)
    case _ => Nothing
  }

  // The run's new need is served by the job just enqueued, by the job itself if it is to be retried, or
  // is an old need that another job serves.
  predicate Served(kind: JobKind, st: St, r: St) {
    var need := Needs(r.run);
    && (PlanIsWhole(st.run) ==> PlanIsWhole(r.run))
    && (r.status.Running? || r.status.Returned? ==>
          || need.Nothing?
          || (need.Wait? && r.enq.Some? && r.enq.value.kind == need.kind)
          || (need == Needs(st.run) && need != Wait(kind)))
    && (r.status == Threw(Other) ==>
          || need.Nothing?
          || need == Wait(kind)
          || (need.Wait? && r.enq.Some? && r.enq.value.kind == need.kind)
          || need == Needs(st.run))
  }

  // A run that still waits for its first spec, or already has it.
  predicate Drafting(r: Run) {
    r.hasSpec || r.state.Acknowledged? || r.state.Specifying?
  }

  // The guard of each handler: whether it does anything to this run.
  predicate Acts(kind: JobKind, r: Run) {
    match kind
    case IssueOpened => r.state.Received?
    case ProduceSpec => !r.hasSpec
    case Clarify => r.state.Specifying? && r.hasSpec
    case ResumeClarification => r.state.AwaitingClarification? && r.hasSpec
    case ProducePlan => r.state.Specified? && !r.hasPlan && r.ctx.specData.Some?
    case ResumePlanDecision => r.state.AwaitingPlanApproval?
    case Implement => r.state.Implementing? && r.hasSpec && r.hasPlan
    case ResumeImplementation => r.state.AwaitingImplHelp?
    case Review => r.state.Reviewing? && r.hasSpec && r.hasPlan && r.ctx.specData.Some? && r.ctx.planData
    case Fix => r.state.AwaitingPrReview?
  }

  lemma IdleIsNoOp(kind: JobKind, body: string, st: St, a: Answers, f: Faults)
    requires !Acts(kind, st.run) && Live(st)
    ensures Handle(kind, body, st, a, f) == st
  {
  }

  // A handler declines only a run that does not wait for it.
  lemma IdleIsNotNeeded(kind: JobKind, st: St)
    requires Ok(st) && Ready(kind, st.run) && !Acts(kind, st.run)
    ensures Needs(st.run) != Wait(kind)
  {
  }

  // A first execution of a job that may be run, on a run it has something to do for.
  predicate Fresh(kind: JobKind, st: St) {
    Ok(st) && Live(st) && st.enq.None? && Ready(kind, st.run) && Acts(kind, st.run)
  }

  // Only the run's first handler takes it out of Received, and nothing takes it back there.
  // No handler records the death of the worker that runs it.
  predicate MovesOn(before: Run, after: Run) {
    && (after.state.Received? ==> before.state.Received?)
    && SameDeaths(before, after)
  }

  // The two shapes from which no job of a run does anything, once no clarify job is left.
  predicate IsStuck(r: Run) {
    r.state.Planning? || (r.state.Specifying? && r.hasSpec)
  }

  // Stuck now: planning, or specifying with a spec that was not there before.
  predicate GetsStuck(before: Run, after: Run) {
    after.state.Planning? || (after.state.Specifying? && after.hasSpec && !before.hasSpec)
  }

  // A run is marked as stranded only by a retryable error that gets it stuck and enqueues nothing.
  predicate Strands(st: St, r: St) {
    Watch(r.run.history).stranded ==>
      Watch(st.run.history).stranded || (r.status == Threw(Other) && GetsStuck(st.run, r.run) && r.enq == st.enq)
  }

  // Every task of the last decomposition is recorded, and was whenever a pull request opened.
  predicate PlanIsWhole(r: Run) {
    var m := Watch(r.history);
    |r.tasks| == m.planned && !m.truncated
  }

  // Everything but the tasks and the recorded help: most handlers leave those alone.
  predicate QuietStep(st: St, r: St) {
    && Quiet(st.run, r.run) && r.nextTask == st.nextTask && MovesOn(st.run, r.run) && Strands(st, r)
    && (PlanIsWhole(st.run) ==> PlanIsWhole(r.run))
  }

  // ---- The handlers, one by one ----

  lemma IssueOpenedProgress(st: St, f: Faults)
    requires Fresh(IssueOpened, st)
    ensures HandleIssueOpened(st, f).enq.Some? ==> Live(HandleIssueOpened(st, f))
    ensures Leaves(IssueOpened, st, HandleIssueOpened(st, f))
    ensures NoDeath(f) ==> HandleIssueOpened(st, f).status != Threw(Died)
    ensures HandleIssueOpened(st, f).status != Threw(Died) ==> Served(IssueOpened, st, HandleIssueOpened(st, f))
  {
    hide Ok, Note, Post, SetState, Enqueue, Watch;
    QuietKeeps(st.run, HandleIssueOpened(st, f).run);
  }

  // The run up to its recorded spec: from there on it is announced.
  function SpecBody(st: St, a: Answers, f: Faults): St {
    RecordSpec(Effect(Ask(Ask(st, a.intake, f, At(6)), a.agent, f, At(7)), SpecCommitted, f, At(8)), f, At(9))
  }

  lemma SpecBodyEnds(st: St, a: Answers, f: Faults)
    requires Live(st) && st.enq.None? && st.run.state.Specifying? && !st.run.hasSpec
    ensures var r := SpecBody(st, a, f);
      && r == st.(run := r.run, status := r.status)
      && r.run == st.run.(hasSpec := r.run.hasSpec, spent := r.run.spent, calls := r.run.calls,
                          updatedAt := r.run.updatedAt, history := r.run.history)
      && SameMarks(st.run, r.run) && r.run.hasSpec == Live(r)
      && (NoDeath(f) ==> r.status != Threw(Died)) && r.status != Threw(NoRecipe) && !r.status.Returned?
  {
    hide Ok, Note, Ask, Effect, RecordSpec, Watch;
  }

  lemma AnnounceSpecEnds(st: St, a: Answers, f: Faults)
    requires Live(st) && st.enq.None? && st.run.state.Specifying? && st.run.hasSpec
    ensures var r := AnnounceSpec(st, a, f);
      && r.run == st.run.(ctx := r.run.ctx, updatedAt := r.run.updatedAt, history := r.run.history)
      && r.run.ctx == st.run.ctx.(specData := r.run.ctx.specData)
      && (st.run.ctx.specData.Some? ==> r.run.ctx.specData.Some?)
      && r.nextTask == st.nextTask && SameDeaths(st.run, r.run) && SamePlan(st.run, r.run)
      && (Watch(r.run.history).stranded ==> Watch(st.run.history).stranded || r.status == Threw(Other))
      && (NoDeath(f) ==> r.status != Threw(Died))
      && r.status !in {Threw(NoRecipe), Threw(Budget), Returned}
      && (r.enq.Some? ==> Live(r) && r.enq.value.kind.Clarify? && Ready(Clarify, r.run))
      && (Live(r) ==> r.enq.Some?)
      && (r.status == Threw(Other) ==> Watch(r.run.history).stranded)
  {
    hide Ok, Note, Post, Effect, SetContext, SetState, Enqueue, Watch;
  }

  lemma ProduceSpecBodyEnds(st: St, a: Answers, f: Faults)
    requires Live(st) && st.enq.None? && st.run.state.Specifying? && !st.run.hasSpec
    ensures NoDeath(f) && st.status != Threw(Died) ==> ProduceSpecBody(st, a, f).status != Threw(Died)
    ensures var r := ProduceSpecBody(st, a, f);
      && QuietStep(st, r) && r.run.state.Specifying?
      && (r.status == Threw(Budget) ==> !r.run.hasSpec && r.enq.None?)
      && r.status != Threw(NoRecipe) && !r.status.Returned?
      && (r.enq.Some? ==> r.enq.value.kind.Clarify? && Ready(Clarify, r.run))
      && (Live(r) ==> r.run.hasSpec && r.enq.Some?)
      && (r.status == Threw(Other) && r.run.hasSpec ==> Watch(r.run.history).stranded)
  {
    hide AnnounceSpec, SpecBody, ProduceSpecBody, Watch;
    SpecBodyEnds(st, a, f);
    SpecBodySplit(st, a, f);
    var st9 := SpecBody(st, a, f);
    if Live(st9) { AnnounceSpecEnds(st9, a, f); }
  }

  lemma SpecBodySplit(st: St, a: Answers, f: Faults)
    ensures var st9 := SpecBody(st, a, f);
      ProduceSpecBody(st, a, f) == if Live(st9) then AnnounceSpec(st9, a, f) else st9
  {
    hide Ask, Effect, RecordSpec, AnnounceSpec;
  }

  lemma ProduceSpecLeaves(st: St, a: Answers, f: Faults)
    requires Fresh(ProduceSpec, st)
    ensures Leaves(ProduceSpec, st, HandleProduceSpec(st, a, f))
  {
    hide Ok, RunInv, MayEnter, Note, SetState, Call, Tolerate, CloseWith, OnBudget, ProduceSpecBody, Watch;
    var st2 := Tolerate(Call(SetState(st, Specifying, f, At(0)), f, At(1)), f, At(2));
    var st5 := Call(st2, f, At(5));
    if Live(st5) { ProduceSpecBodyEnds(st5, a, f); }
    QuietKeeps(st.run, HandleProduceSpec(st, a, f).run);
  }

  lemma ProduceSpecServed(st: St, a: Answers, f: Faults)
    requires Fresh(ProduceSpec, st)
    ensures NoDeath(f) ==> HandleProduceSpec(st, a, f).status != Threw(Died)
    ensures HandleProduceSpec(st, a, f).status != Threw(Died) ==> Served(ProduceSpec, st, HandleProduceSpec(st, a, f))
    ensures HandleProduceSpec(st, a, f).status == Threw(Other) ==> Drafting(HandleProduceSpec(st, a, f).run)
  {
    hide Ok, RunInv, MayEnter, Note, SetState, Call, Tolerate, CloseWith, OnBudget, ProduceSpecBody, Watch;
    var st2 := Tolerate(Call(SetState(st, Specifying, f, At(0)), f, At(1)), f, At(2));
    var st5 := Call(st2, f, At(5));
    if Live(st5) { ProduceSpecBodyEnds(st5, a, f); }
  }

  lemma PassQuiet(st: St, a: Answers, f: Faults)
    requires st.status in {Running, Threw(Died)} && (a.questions == 0 || a.questions > CLARIFY_QUESTION_CAP)
    ensures QuietStep(st, ClarifyBody(st, a, f))
  {
    hide Ok, Note, Ask, SetState, Enqueue, CloseWith, Watch, Faulted, Survived, MayEnter;
  }

  lemma QuestionsQuiet(st: St, a: Answers, f: Faults)
    requires st.status in {Running, Threw(Died)} && 0 < a.questions <= CLARIFY_QUESTION_CAP
    ensures QuietStep(st, ClarifyBody(st, a, f))
  {
    hide Ok, Note, Ask, Post, SetContext, SetState, Watch, Faulted, Survived, MayEnter;
  }

  lemma ClarifyBodyQuiet(st: St, a: Answers, f: Faults)
    requires st.status in {Running, Threw(Died)}
    ensures QuietStep(st, ClarifyBody(st, a, f))
  {
    hide ClarifyBody, QuietStep;
    if 0 < a.questions <= CLARIFY_QUESTION_CAP { QuestionsQuiet(st, a, f); } else { PassQuiet(st, a, f); }
  }

  lemma ClarifyBodyEnds(st: St, a: Answers, f: Faults)
    requires st.enq.None? && st.run.state.Specifying? && st.status in {Running, Threw(Died)}
    ensures NoDeath(f) && st.status != Threw(Died) ==> ClarifyBody(st, a, f).status != Threw(Died)
    ensures var r := ClarifyBody(st, a, f);
      && QuietStep(st, r)
      && r.status != Threw(NoRecipe) && !r.status.Returned?
      && (r.status == Threw(Budget) ==> r.enq.None?)
      && (r.enq.Some? ==> r.enq.value.kind.ProducePlan?)
      && (Live(r) ==> IsGate(r.run.state) || r.run.state.Failed? || (r.run.state.Specified? && r.enq.Some?))
      && (!Live(r) && r.status != Threw(Died) ==> r.run.state.Specifying?)
  {
    hide Ok, Note, Ask, Post, SetContext, SetState, Enqueue, CloseWith, Watch, Observe, QuietStep, SameMarks;
    ClarifyBodyQuiet(st, a, f);
  }

  lemma ClarifyProgress(st: St, a: Answers, f: Faults)
    requires Fresh(Clarify, st)
    ensures Leaves(Clarify, st, HandleClarify(st, a, f))
    ensures NoDeath(f) ==> HandleClarify(st, a, f).status != Threw(Died)
    ensures HandleClarify(st, a, f).status != Threw(Died) ==> Served(Clarify, st, HandleClarify(st, a, f))
  {
    hide Ok, RunInv, MayEnter, Note, Tolerate, OnBudget, ClarifyBody, Watch;
    ClarifyBodyEnds(Tolerate(st, f, At(0)), a, f);
    QuietKeeps(st.run, HandleClarify(st, a, f).run);
  }

  lemma ResumeClarificationBodyQuiet(st: St, a: Answers, f: Faults)
    requires Live(st)
    ensures QuietStep(st, ResumeClarificationBody(st, a, f))
  {
    hide Ok, Note, Ask, Effect, RecordSpec, Post, SetContext, SetState, Enqueue, Watch;
  }

  lemma ResumeClarificationBodyEnds(st: St, a: Answers, f: Faults)
    requires st.enq.None? && st.run.state.AwaitingClarification? && st.status.Running?
    ensures NoDeath(f) && st.status != Threw(Died) ==> ResumeClarificationBody(st, a, f).status != Threw(Died)
    ensures var r := ResumeClarificationBody(st, a, f);
      && QuietStep(st, r)
      && r.status != Threw(NoRecipe) && !r.status.Returned?
      && (r.status == Threw(Budget) ==> r.enq.None?)
      && (r.enq.Some? ==> r.enq.value.kind.ProducePlan? && Ready(ProducePlan, r.run))
      && (Live(r) ==> r.run.state.Specified? && r.enq.Some?)
      && (!Live(r) && r.status != Threw(Died) ==> r.run.state.AwaitingClarification?)
  {
    hide Ok, Note, Ask, Effect, RecordSpec, Post, SetContext, SetState, Enqueue, Watch, Observe, QuietStep;
    ResumeClarificationBodyQuiet(st, a, f);
  }

  lemma ResumeClarificationProgress(st: St, a: Answers, f: Faults)
    requires Fresh(ResumeClarification, st)
    ensures Leaves(ResumeClarification, st, HandleResumeClarification(st, a, f))
    ensures NoDeath(f) ==> HandleResumeClarification(st, a, f).status != Threw(Died)
    ensures HandleResumeClarification(st, a, f).status != Threw(Died) ==>
              Served(ResumeClarification, st, HandleResumeClarification(st, a, f))
  {
    hide Ok, RunInv, MayEnter, Note, Call, OnBudget, ResumeClarificationBody, Watch;
    var st0 := Call(st, f, At(0));
    if Live(st0) {
      ResumeClarificationBodyEnds(st0, a, f);
    } else {
      AnswerStopped(st0, a, f);
    }
    QuietKeeps(st.run, HandleResumeClarification(st, a, f).run);
  }

  // The architect's part of planning moves no state and enqueues nothing.
  lemma ArchitectEnds(st: St, a: Answers, f: Faults)
    requires st.status in {Running}
    ensures NoDeath(f) ==> Architect(st, a, f).status != Threw(Died)
    ensures var r := Architect(st, a, f);
      QuietStep(st, r) && r.enq == st.enq && !r.status.Returned? && r.run.state == st.run.state
      && r.run.ctx == st.run.ctx
  {
    hide Ok, Note, Call, Throw, Ask, Effect, RecordPlan, Watch;
  }

  lemma ParkQuiet(st: St, revisions: nat, setup: Option<SetupAction>, f: Faults)
    requires Live(st) && st.run.ctx.revisions <= revisions
    ensures QuietStep(st, ParkAtPlanGate(st, revisions, setup, f))
  {
    hide Ok, Note, RecordPlanContext, Post, SetState, Watch;
  }

  lemma ParkEnds(st: St, revisions: nat, setup: Option<SetupAction>, f: Faults)
    requires st.status.Running? && st.run.ctx.revisions <= revisions
    ensures NoDeath(f) ==> ParkAtPlanGate(st, revisions, setup, f).status != Threw(Died)
    ensures var r := ParkAtPlanGate(st, revisions, setup, f);
      QuietStep(st, r) && r.enq == st.enq && r.status !in {Returned, Threw(Budget), Threw(NoRecipe)} &&
      r.run.state == if Live(r) then AwaitingPlanApproval else st.run.state
  {
    hide Ok, Note, RecordPlanContext, Post, SetState, Watch, Observe, QuietStep;
    ParkQuiet(st, revisions, setup, f);
  }

  lemma ParkStopped(st: St, revisions: nat, setup: Option<SetupAction>, f: Faults)
    requires !Live(st)
    ensures ParkAtPlanGate(st, revisions, setup, f) == st
  {
    hide RecordPlanContext, Post, SetState;
  }

  lemma PlanAndParkEnds(st: St, revisions: nat, a: Answers, f: Faults)
    requires st.enq.None? && st.run.state.Planning? && Live(st) && st.run.ctx.revisions <= revisions
    ensures NoDeath(f) ==> PlanAndPark(st, revisions, a, f).status != Threw(Died)
    ensures var r := PlanAndPark(st, revisions, a, f);
      && QuietStep(st, r) && r.enq.None? && !r.status.Returned?
      && r.run.state == if Live(r) then AwaitingPlanApproval else Planning
  {
    hide Architect, ParkAtPlanGate, Watch, PlanIsWhole;
    ArchitectEnds(st, a, f);
    var st23 := Architect(st, a, f);
    if Live(st23) { ParkEnds(st23, revisions, a.setup, f); } else { ParkStopped(st23, revisions, a.setup, f); }
  }

  lemma StartPlanEnds(st: St, revisions: nat, a: Answers, f: Faults, at: Site)
    requires st.enq.None? && Live(st) && st.run.ctx.revisions <= revisions
    ensures NoDeath(f) ==> StartPlan(st, revisions, a, f, at).status != Threw(Died)
    ensures var r := StartPlan(st, revisions, a, f, at);
      && QuietStep(st, r) && r.enq.None? && r.status !in {Returned, Threw(Budget), Threw(NoRecipe)}
      && (Live(r) ==> r.run.state.AwaitingPlanApproval? || r.run.state.Failed?)
      && (r.status == Threw(Other) ==> r.run.state.Planning? && Watch(r.run.history).stranded)
  {
    hide Ok, Note, SetState, OnRefusal, PlanAndPark, Stranding, Watch;
    var st5 := SetState(st, Planning, f, at);
    if Live(st5) {
      PlanAndParkEnds(st5, revisions, a, f);
      var parked := PlanAndPark(st5, revisions, a, f);
      assert QuietStep(st, parked);
      assert QuietStep(st, OnRefusal(parked, f, At(27), At(28)));
    } else {
      assert StartPlan(st, revisions, a, f, at) == st5;
    }
  }

  lemma ReclarifyStopped(st: St, f: Faults)
    requires !Live(st)
    ensures Reclarify(st, f) == st
  {
    hide SetContext, SetState, NoteStep, Enqueue;
  }

  lemma ReclarifyEnds(st: St, f: Faults)
    requires st.enq.None? && Live(st) && st.run.hasSpec && st.run.ctx.specData.Some?
    ensures NoDeath(f) ==> Live(Reclarify(st, f))
    ensures var r := Reclarify(st, f);
      && QuietStep(st, r) && (Live(r) || r.status == Threw(Died)) && r.run.hasSpec
      && (r.enq.Some? ==> r.enq.value.kind.Clarify? && r.run.ctx.dorReclarified && Ready(Clarify, r.run))
      && (r.status != Threw(Died) ==> r.run.state.Specifying? && r.enq.Some?)
  {
    hide Ok, Note, SetContext, SetState, NoteStep, Enqueue, Watch;
  }

  lemma DorRefusalEnds(st: St, spec: Spec, f: Faults)
    requires st.enq.None? && Live(st) && st.run.state.Specified? && st.run.hasSpec && st.run.ctx.specData.Some?
    ensures NoDeath(f) && st.status != Threw(Died) ==> DorRefusal(st, spec, f).status != Threw(Died)
    ensures var r := DorRefusal(st, spec, f);
      && QuietStep(st, r) && r.status !in {Returned, Threw(Budget), Threw(NoRecipe)}
      && (r.enq.Some? ==> MayFollow(ProducePlan, st.run, r.enq.value.kind, r.run) && Ready(Clarify, r.run))
      && (Live(r) ==> r.run.state.Failed? || (r.run.state.Specifying? && r.enq.Some?))
      && (!Live(r) && r.status != Threw(Died) ==> r.run.state.Specified?)
      && r.run.hasSpec
  {
    hide Ok, Note, Post, SetState, Reclarify, Watch;
    var st0 := Post(st, f, At(0));
    if !Live(st0) {
      ReclarifyStopped(st0, f);
    } else if !st0.run.ctx.dorReclarified {
      ReclarifyEnds(st0, f);
    }
  }

  lemma ProducePlanProgress(st: St, a: Answers, f: Faults)
    requires Fresh(ProducePlan, st)
    ensures Leaves(ProducePlan, st, HandleProducePlan(st, a, f))
    ensures NoDeath(f) ==> HandleProducePlan(st, a, f).status != Threw(Died)
    ensures HandleProducePlan(st, a, f).status != Threw(Died) ==> Served(ProducePlan, st, HandleProducePlan(st, a, f))
  {
    hide Ok, RunInv, MayEnter, DorRefusal, StartPlan, Watch;
    DorRefusalEnds(st, st.run.ctx.specData.value, f);
    StartPlanEnds(st, st.run.ctx.revisions, a, f, At(5));
    QuietKeeps(st.run, HandleProducePlan(st, a, f).run);
  }

  lemma ApprovePlanEnds(st: St, body: string, f: Faults)
    requires st.enq.None? && Live(st) && st.run.state.AwaitingPlanApproval?
    ensures NoDeath(f) && st.status != Threw(Died) ==> ApprovePlan(st, body, f).status != Threw(Died)
    ensures var r := ApprovePlan(st, body, f);
      && QuietStep(st, r) && r.status !in {Returned, Threw(Budget), Threw(NoRecipe)}
      && (r.enq.Some? ==> r.enq.value.kind.Implement?)
      && (Live(r) ==> r.run.state.Implementing? && r.enq.Some?)
      && (!Live(r) && r.status != Threw(Died) ==> r.run.state.AwaitingPlanApproval?)
  {
    hide Ok, Note, Post, SetState, NoteStep, Enqueue, Watch;
  }

  lemma ReviseEnds(st: St, a: Answers, f: Faults)
    requires st.enq.None? && Live(st) && st.run.state.AwaitingPlanApproval?
    ensures NoDeath(f) && st.status != Threw(Died) ==> Revise(st, a, f).status != Threw(Died)
    ensures var r := Revise(st, a, f);
      && QuietStep(st, r) && r.enq.None? && r.status !in {Returned, Threw(Budget), Threw(NoRecipe)}
      && (Live(r) ==> Needs(r.run).Nothing?)
      && (r.status == Threw(Other) ==> Needs(r.run).Nothing?)
  {
    hide Ok, Note, Post, StartPlan, Watch;
    StartPlanEnds(st, st.run.ctx.revisions + 1, a, f, At(6));
  }

  lemma ResumePlanDecisionProgress(st: St, body: string, a: Answers, f: Faults)
    requires Fresh(ResumePlanDecision, st)
    ensures Leaves(ResumePlanDecision, st, HandleResumePlanDecision(st, body, a, f))
    ensures NoDeath(f) ==> HandleResumePlanDecision(st, body, a, f).status != Threw(Died)
    ensures HandleResumePlanDecision(st, body, a, f).status != Threw(Died) ==>
              Served(ResumePlanDecision, st, HandleResumePlanDecision(st, body, a, f))
  {
    hide Ok, RunInv, MayEnter, ApprovePlan, Revise, CloseWith, Watch, ParsePlanDecision;
    ApprovePlanEnds(st, body, f);
    ReviseEnds(st, a, f);
    QuietKeeps(st.run, HandleResumePlanDecision(st, body, a, f).run);
  }

  lemma ReviewBodyEnds(st: St, a: Answers, f: Faults)
    requires st.enq.None? && Live(st) && st.run.state.Reviewing?
    ensures NoDeath(f) && st.status != Threw(Died) ==> ReviewBody(st, a, f).status != Threw(Died)
    ensures var r := ReviewBody(st, a, f);
      && QuietStep(st, r) && r.enq.None? && r.status !in {Returned, Threw(NoRecipe)}
      && (Live(r) ==> r.run.state.AwaitingPrReview?)
      && (!Live(r) ==> r.run.state.Reviewing?)
  {
    hide Ok, Note, Call, Ask, Effect, Post, SetState, Watch, DoneCount;
  }

  lemma ReviewProgress(st: St, a: Answers, f: Faults)
    requires Fresh(Review, st)
    ensures Leaves(Review, st, HandleReview(st, a, f))
    ensures NoDeath(f) ==> HandleReview(st, a, f).status != Threw(Died)
    ensures HandleReview(st, a, f).status != Threw(Died) ==> Served(Review, st, HandleReview(st, a, f))
  {
    hide Ok, RunInv, MayEnter, ReviewBody, OnBudget, Watch;
    ReviewBodyEnds(st, a, f);
    QuietKeeps(st.run, HandleReview(st, a, f).run);
  }

  lemma FixInSandboxEnds(st: St, a: Answers, f: Faults)
    requires st.enq.None? && Live(st) && st.run.state.AwaitingPrReview?
    ensures var r := FixInSandbox(st, a, f);
      && QuietStep(st, r) && r.enq.None? && r.status !in {Returned, Threw(NoRecipe)}
      && (r.run.state.AwaitingPrReview? || r.run.state.Failed?)
      && (NoDeath(f) && Breathing(a) ==> r.status != Threw(Died))
  {
    hide Ok, Note, Call, RunTdd, CloseWith, Post, FixLanded, Watch;
  }

  lemma FixActionableEnds(st: St, a: Answers, f: Faults)
    requires st.enq.None? && Live(st) && st.run.state.AwaitingPrReview?
    ensures var r := FixActionable(st, a, f);
      && QuietStep(st, r) && r.enq.None? && r.status !in {Returned, Threw(NoRecipe)}
      && (r.run.state.AwaitingPrReview? || r.run.state.Failed?)
      && (NoDeath(f) && Breathing(a) ==> r.status != Threw(Died))
  {
    hide Ok, CloseWith, Call, Closing, FixInSandbox;
    var st13 := Call(Call(st, f, At(12)), f, At(13));
    if Live(st13) { FixInSandboxEnds(st13, a, f); }
  }

  lemma FixActionableStopped(st: St, a: Answers, f: Faults)
    requires !Live(st)
    ensures FixActionable(st, a, f) == st
  {
    hide CloseWith, Call;
  }

  lemma FixBodyEnds(st: St, body: string, a: Answers, f: Faults)
    requires st.enq.None? && Live(st) && st.run.state.AwaitingPrReview? && st.run.hasSpec && st.run.ctx.specData.Some?
    ensures var r := FixBody(st, body, a, f);
      && QuietStep(st, r) && r.status !in {Returned, Threw(NoRecipe)}
      && (r.status == Threw(Budget) ==> r.enq.None?)
      && (r.enq.Some? ==> r.enq.value == NewJob(ResumePlanDecision, body))
      && (IsGate(r.run.state) || r.run.state.Failed?)
      && (NoDeath(f) && Breathing(a) ==> r.status != Threw(Died))
  {
    hide Ok, Note, Ask, Post, SetState, Enqueue, FixActionable, Watch;
    var st0 := Ask(st, a.agent, f, At(0));
    if Live(st0) { FixActionableEnds(st0, a, f); } else { FixActionableStopped(st0, a, f); }
  }

  lemma FixProgress(st: St, body: string, a: Answers, f: Faults)
    requires Fresh(Fix, st)
    ensures Leaves(Fix, st, HandleFix(st, body, a, f))
    ensures Relays(Fix, body, HandleFix(st, body, a, f))
    ensures NoDeath(f) && Breathing(a) ==> HandleFix(st, body, a, f).status != Threw(Died)
    ensures HandleFix(st, body, a, f).status != Threw(Died) ==> Served(Fix, st, HandleFix(st, body, a, f))
  {
    hide Ok, RunInv, MayEnter, FixBody, OnBudget, Watch;
    FixBodyEnds(st, body, a, f);
    QuietKeeps(st.run, HandleFix(st, body, a, f).run);
  }

  // What accepting guidance leaves: the rounds grow by one, and the implement job is enqueued.
  lemma GuideEnds(st: St, help: ImplHelp, f: Faults)
    requires st.enq.None? && Live(st) && st.run.state.AwaitingImplHelp?
    ensures var r := Guide(st, help, f);
      && r.run.tasks == st.run.tasks && r.run.budget == st.run.budget && r.nextTask == st.nextTask
      && MovesOn(st.run, r.run) && r.run.heard == st.run.heard
      && Watch(r.run.history).stranded == Watch(st.run.history).stranded
      && SamePlan(st.run, r.run)
      && r.run.hasSpec == st.run.hasSpec && r.run.hasPlan == st.run.hasPlan
      && r.run.ctx.(implHelp := None) == st.run.ctx.(implHelp := None)
      && (r.run.ctx.implHelp == st.run.ctx.implHelp || r.run.ctx.implHelp == Some(help))
      && r.status !in {Returned, Threw(Budget), Threw(NoRecipe)}
      && (r.enq.Some? ==> r.enq.value.kind.Implement?)
      && (NoDeath(f) ==> r.status != Threw(Died))
      && (r.status != Threw(Died) ==> r.enq.Some? && r.run.state.Implementing?)
  {
    hide Ok, Note, AcceptGuidance, SetState, Enqueue, Post, Watch;
    var st4 := AcceptGuidance(st, help, f, At(4));
    var st5 := SetState(st4, Implementing, f, At(5));
    if !Live(st4) {
      assert Guide(st, help, f) == st4;
    } else if !Live(st5) {
      assert Guide(st, help, f) == st5;
    }
  }

  // The rounds of help the first open task has used.
  function HelpRounds(r: Run): nat {
    if r.ctx.implHelp.Some? then r.ctx.implHelp.value.rounds else 0
  }

  // One accepted resume, or none.
  predicate RoundUsed(before: Run, after: Run) {
    && after.tasks == before.tasks
    && if Watch(after.history).guided == Watch(before.history).guided then after.ctx == before.ctx
       else
         && Watch(after.history).guided == Watch(before.history).guided + 1
         && HelpIsCurrent(after) && HelpRounds(after) == HelpRounds(before) + 1 <= IMPL_HELP_CAP
  }

  lemma RoundTaken(before: Run, after: Run, help: ImplHelp)
    requires HelpIsCurrent(before) && before.ctx.implHelp.value.rounds < IMPL_HELP_CAP
    requires after.tasks == before.tasks && after.ctx.implHelp == Some(help)
    requires help.taskId == before.ctx.implHelp.value.taskId && help.rounds == before.ctx.implHelp.value.rounds + 1
    requires Watch(after.history).guided == Watch(before.history).guided + 1
    ensures RoundUsed(before, after)
  {
    hide Watch, DoneCount;
  }

  // Guidance is accepted by one write; what follows touches neither tasks nor help.
  lemma GuideWrites(st: St, help: ImplHelp, f: Faults)
    requires Live(st)
    ensures var r, saved := Guide(st, help, f).run, AcceptGuidance(st, help, f, At(4));
      && r.tasks == st.run.tasks
      && r.ctx == saved.run.ctx && Watch(r.history).guided == Watch(saved.run.history).guided
      && (!Live(saved) ==> saved.run == st.run)
      && (Live(saved) ==> r.ctx.implHelp == Some(help) && Watch(r.history).guided == Watch(st.run.history).guided + 1)
  {
    hide Ok, Note, AcceptGuidance, SetState, Enqueue, Post, Watch, DoneCount;
    var st4 := AcceptGuidance(st, help, f, At(4));
    var st5 := SetState(st4, Implementing, f, At(5));
    var st6 := Enqueue(st5, Implement, "", f, At(6));
    assert st6.run.ctx == st4.run.ctx && st6.run.tasks == st4.run.tasks && st6.run.history == st4.run.history;
  }

  lemma GuideUsesARound(st: St, body: string, f: Faults)
    requires Live(st) && HelpIsCurrent(st.run) && st.run.ctx.implHelp.value.rounds < IMPL_HELP_CAP
    ensures var help := st.run.ctx.implHelp.value;
      RoundUsed(st.run, Guide(st, help.(rounds := help.rounds + 1, guidance := Some(body)), f).run)
  {
    var help := st.run.ctx.implHelp.value;
    var next := help.(rounds := help.rounds + 1, guidance := Some(body));
    hide Guide, AcceptGuidance, Watch, DoneCount;
    GuideWrites(st, next, f);
    if Live(AcceptGuidance(st, next, f, At(4))) { RoundTaken(st.run, Guide(st, next, f).run, next); }
  }

  lemma HelpGateFacts(st: St)
    requires Ok(st) && st.run.state.AwaitingImplHelp?
    ensures HelpIsCurrent(st.run)
  {
    hide Watch, DoneCount, Gated, WithinCaps, MoneyAdds, TasksInOrder;
  }

  // An accepted resume uses up one round of the first open task, and is counted; one that is not
  // accepted uses none. So (open tasks, rounds left) falls with every accepted resume.
  lemma GuidanceUsesARound(st: St, body: string, f: Faults)
    requires Fresh(ResumeImplementation, st)
    ensures RoundUsed(st.run, HandleResumeImplementation(st, body, f).run)
  {
    hide Ok, CloseWith, Guide, Watch, DoneCount, IsImplAbort;
    HelpGateFacts(st);
    if st.run.ctx.implHelp.value.rounds < IMPL_HELP_CAP { GuideUsesARound(st, body, f); }
  }

  lemma ResumeImplementationProgress(st: St, body: string, f: Faults)
    requires Fresh(ResumeImplementation, st)
    ensures Leaves(ResumeImplementation, st, HandleResumeImplementation(st, body, f))
    ensures NoDeath(f) ==> HandleResumeImplementation(st, body, f).status != Threw(Died)
    ensures HandleResumeImplementation(st, body, f).status != Threw(Died) ==>
              Served(ResumeImplementation, st, HandleResumeImplementation(st, body, f))
  {
    hide Ok, RunInv, MayEnter, CloseWith, Guide, Watch, IsImplAbort, DoneCount;
    var help := st.run.ctx.implHelp.GetOr(ImplHelp(-1, 0, None));
    GuideEnds(st, help.(rounds := help.rounds + 1, guidance := Some(body)), f);
  }

  // ---- The task loop ----

  // What one part of the implement handler leaves of a running execution: it enqueues nothing, and it
  // parks or fails only by returning early.
  ghost predicate LoopPart(st: St, r: St, f: Faults, a: Answers) {
    && CountersKept(st.run, r.run)
    && LoopEnd(st, r, f, a)
  }

  ghost predicate LoopEnd(st: St, r: St, f: Faults, a: Answers) {
    && r.run.budget == st.run.budget && r.enq == st.enq && r.nextTask >= st.nextTask && MovesOn(st.run, r.run)
    && Watch(r.run.history).stranded == Watch(st.run.history).stranded
    && (NoDeath(f) && Breathing(a) ==> r.status != Threw(Died))
    && (r.status != Threw(Died) && PlanIsWhole(st.run) ==> PlanIsWhole(r.run))
    && r.status != Threw(NoRecipe)
    && (r.status.Returned? ==> r.run.state.Failed? || r.run.state.AwaitingImplHelp?)
    && (!r.status.Returned? && r.status != Threw(Died) ==> r.run.state == st.run.state)
  }

  lemma BootstrapStepPart(st: St, a: Answers, f: Faults)
    requires Live(st)
    ensures LoopPart(st, BootstrapStep(st, a, f), f, a)
  {
    hide Ok, Note, Call, ReturnEarly, CloseWith, Effect, Watch;
    QuietKeeps(st.run, BootstrapStep(st, a, f).run);
  }

  // The decomposition is recorded whole exactly if the worker does not die on the way, and exactly then
  // the execution goes on.
  lemma {:induction false} AllRecordedIff(st: St, n: nat, f: Faults)
    requires Live(st)
    ensures var r := RecordTasks(st, n, f);
      && (Live(r) <==> |r.run.tasks| == |st.run.tasks| + n)
      && (Live(r) <==> forall j: nat | 1 <= j <= n :: f(Record(j)) != Some(Died))
      && |st.run.tasks| <= |r.run.tasks| <= |st.run.tasks| + n
    decreases n
  {
    hide Ok, Watch;
    if n > 0 {
      var tried := Tolerate(st, f, Record(n));
      if Live(tried) { AllRecordedIff(RecordTask(tried), n - 1, f); }
    }
  }

  lemma DecomposeRecords(st: St, a: Answers, f: Faults)
    requires Live(st) && PlanIsWhole(st.run) && DecomposeStep(st, a, f).status != Threw(Died)
    ensures PlanIsWhole(DecomposeStep(st, a, f).run)
  {
    hide Ok, Note, Ask, Watch, RecordTasks;
    var noted := NoteStep(Ask(st, a.agent, f, At(8)), Decomposed(a.taskCount));
    if |st.run.tasks| == 0 && Live(noted) { AllRecordedIff(noted, a.taskCount, f); }
  }

  lemma DecomposeCounters(st: St, a: Answers, f: Faults)
    requires Live(st)
    ensures CountersKept(st.run, DecomposeStep(st, a, f).run)
  {
    hide Ok, Note, Ask, RecordTasks, Watch, DoneCount, PlanIsWhole;
    var r := DecomposeStep(st, a, f);
    if |st.run.tasks| == 0 {
      assert DoneCount(st.run.tasks) == 0;
      assert HelpKept(st.run, r.run);
    } else {
      QuietKeeps(st.run, r.run);
    }
  }

  lemma DecomposeEnd(st: St, a: Answers, f: Faults)
    requires Live(st)
    ensures LoopEnd(st, DecomposeStep(st, a, f), f, a)
  {
    if PlanIsWhole(st.run) && DecomposeStep(st, a, f).status != Threw(Died) { DecomposeRecords(st, a, f); }
    hide Ok, Note, Ask, RecordTasks, Watch, PlanIsWhole;
  }

  lemma DecomposeStepPart(st: St, a: Answers, f: Faults)
    requires Live(st)
    ensures LoopPart(st, DecomposeStep(st, a, f), f, a)
  {
    hide DecomposeStep, CountersKept, LoopEnd;
    DecomposeCounters(st, a, f);
    DecomposeEnd(st, a, f);
  }

  lemma ParkStalledEnd(st: St, i: nat, f: Faults, a: Answers)
    requires Live(st) && i < |st.run.tasks|
    ensures LoopEnd(st, ParkStalled(st, i, f), f, a)
  {
    hide Ok, Note, UpdateTask, SetContext, Post, SetState, ReturnEarly, Watch;
  }

  // Giving up the first undone task, or closing it, loses no counter.
  lemma UpdateTaskCounters(r: Run, i: nat, status: TaskStatus)
    requires DonePrefix(r.tasks) && i < |r.tasks| && i == DoneCount(r.tasks)
    ensures DoneCount(WithStatus(r.tasks, i, status)) == if status.Done? then i + 1 else i
    ensures CountersKept(r, r.(tasks := WithStatus(r.tasks, i, status)))
  {
    DoneCountIs(WithStatus(r.tasks, i, status), if status.Done? then i + 1 else i);
    hide DoneCount;
  }

  lemma ParkStalledCounters(st: St, i: nat, f: Faults)
    requires Live(st) && DonePrefix(st.run.tasks) && i < |st.run.tasks| && i == DoneCount(st.run.tasks)
    ensures CountersKept(st.run, ParkStalled(st, i, f).run)
  {
    UpdateTaskCounters(st.run, i, Escalated);
    var r := ParkStalled(st, i, f);
    var st3 := UpdateTask(st, i, Escalated, f, Turn(i, 3));
    hide Ok, Note, UpdateTask, SetContext, Post, SetState, ReturnEarly, Watch, DoneCount, TasksKept;
    if Live(st3) {
      assert CountersKept(st3.run, r.run) by { TasksKeptSame(st3.run.tasks); }
      CountersKeptTransitive(st.run, st3.run, r.run);
    } else {
      assert r.run == st.run;
      TasksKeptSame(st.run.tasks);
    }
  }

  lemma TasksKeptSame(tasks: seq<Task>)
    ensures TasksKept(tasks, tasks)
  {
  }

  lemma CloseTaskPart(st: St, i: nat, f: Faults, at: Site, clear: Site, a: Answers)
    requires Live(st) && DonePrefix(st.run.tasks) && i < |st.run.tasks| && i == DoneCount(st.run.tasks)
    ensures LoopPart(st, ClearHelp(UpdateTask(st, i, Done, f, at), st.run.tasks[i].id, f, clear), f, a)
  {
    UpdateTaskCounters(st.run, i, Done);
    hide Ok, Note, UpdateTask, ClearHelp, Watch, DoneCount, TasksKept;
    TasksKeptSame(st.run.tasks);
    var st1 := UpdateTask(st, i, Done, f, at);
    var r := ClearHelp(st1, st.run.tasks[i].id, f, clear);
    assert LoopEnd(st, r, f, a);
    if !Live(st1) { assert r == st1; }
  }

  lemma LandedPart(st: St, i: nat, f: Faults, a: Answers)
    requires Live(st) && DonePrefix(st.run.tasks) && i < |st.run.tasks| && i == DoneCount(st.run.tasks)
    ensures var taskId := st.run.tasks[i].id;
      var st10 := Effect(Call(st, f, Turn(i, 9)), TaskCommitted(taskId), f, Turn(i, 10));
      LoopPart(st, ClearHelp(UpdateTask(st10, i, Done, f, Turn(i, 11)), taskId, f, Turn(i, 12)), f, a)
  {
    var taskId := st.run.tasks[i].id;
    var st10 := Effect(Call(st, f, Turn(i, 9)), TaskCommitted(taskId), f, Turn(i, 10));
    if Live(st10) { CloseTaskPart(st10, i, f, Turn(i, 11), Turn(i, 12), a); }
    hide Ok, Note, Call, Effect, UpdateTask, ClearHelp, Watch, DoneCount, TasksKept;
    QuietSame(st.run, st10.run);
  }

  lemma SatisfiedPart(st: St, i: nat, f: Faults, a: Answers)
    requires Live(st) && DonePrefix(st.run.tasks) && i < |st.run.tasks| && i == DoneCount(st.run.tasks)
    ensures var taskId := st.run.tasks[i].id;
      var noted := NoteStep(st, FoundSatisfied(taskId));
      LoopPart(st, ClearHelp(UpdateTask(noted, i, Done, f, Turn(i, 7)), taskId, f, Turn(i, 8)), f, a)
  {
    var noted := NoteStep(st, FoundSatisfied(st.run.tasks[i].id));
    CloseTaskPart(noted, i, f, Turn(i, 7), Turn(i, 8), a);
    hide Ok, Note, UpdateTask, ClearHelp, Watch, DoneCount, TasksKept;
    QuietSame(st.run, noted.run);
  }

  lemma QuietSame(before: Run, after: Run)
    requires after == before.(history := after.history)
    ensures CountersKept(before, after)
    ensures forall c :: CountersKept(after, c) ==> CountersKept(before, c)
  {
    hide DoneCount;
  }

  lemma MoneyOnly(before: Run, after: Run)
    requires OnlyMoney(before, after)
    ensures CountersKept(before, after)
    ensures forall c :: CountersKept(after, c) ==> CountersKept(before, c)
  {
    hide DoneCount;
  }

  lemma TaskTurnPart(st: St, i: nat, a: Answers, f: Faults)
    requires Live(st) && DonePrefix(st.run.tasks) && i < |st.run.tasks| && i == DoneCount(st.run.tasks)
    ensures LoopPart(st, TaskTurn(st, i, a, f), f, a)
  {
    hide Ok, Note, RunTdd, ParkStalled, UpdateTask, ClearHelp, Call, Effect, CloseWith, ReturnEarly, Watch, DoneCount;
    hide CountersKept, NoteStep;
    var st1 := RunTdd(st, a.tdd(i));
    MoneyOnly(st.run, st1.run);
    if Exhausted(st.run) {
      QuietKeeps(st.run, TaskTurn(st, i, a, f).run);
    } else if !Live(st1) {
      TurnStopped(st1, i, st.run.tasks[i].id, f);
    } else {
      match a.tdd(i).outcome
      case Stalled =>
        ParkStalledEnd(st1, i, f, a);
        ParkStalledCounters(st1, i, f);
      case AlreadySatisfied =>
        SatisfiedPart(st1, i, f, a);
      case Landed =>
        LandedPart(st1, i, f, a);
    }
  }

  lemma TurnStopped(st: St, i: nat, taskId: nat, f: Faults)
    requires !Live(st) && i < |st.run.tasks|
    ensures ParkStalled(st, i, f) == st
    ensures ClearHelp(UpdateTask(NoteStep(st, FoundSatisfied(taskId)), i, Done, f, Turn(i, 7)), taskId, f, Turn(i, 8)) == st
    ensures Effect(Call(st, f, Turn(i, 9)), TaskCommitted(taskId), f, Turn(i, 10)) == st
    ensures ClearHelp(UpdateTask(st, i, Done, f, Turn(i, 11)), taskId, f, Turn(i, 12)) == st
  {
    hide Note, UpdateTask, SetContext, Post, SetState, ReturnEarly, ClearHelp, Call, Effect;
  }

  lemma {:induction false} TaskLoopPart(st: St, i: nat, a: Answers, f: Faults)
    requires InLoop(st) && Live(st) && i <= |st.run.tasks| && i <= DoneCount(st.run.tasks)
    ensures LoopPart(st, TaskLoop(st, i, a, f), f, a)
    decreases |st.run.tasks| - i
  {
    if i < |st.run.tasks| {
      if st.run.tasks[i].status.Done? {
        assert DonePrefix(st.run.tasks);
        TaskLoopPart(st, i + 1, a, f);
      } else {
        assert DonePrefix(st.run.tasks);
        TaskTurnSafe(st, i, a, f);
        TaskTurnPart(st, i, a, f);
        hide Ok, TaskTurn, CountersKept;
        var next := TaskTurn(st, i, a, f);
        if Live(next) {
          TaskLoopPart(next, i + 1, a, f);
          CountersKeptTransitive(st.run, next.run, TaskLoop(st, i, a, f).run);
        }
      }
    } else {
      QuietKeeps(st.run, st.run);
    }
  }

  lemma LoopPartTransitive(a: St, b: St, c: St, f: Faults, answers: Answers)
    requires LoopPart(a, b, f, answers) && Live(b) && LoopPart(b, c, f, answers)
    ensures LoopPart(a, c, f, answers)
  {
    hide CountersKept, Watch, PlanIsWhole;
    CountersKeptTransitive(a.run, b.run, c.run);
  }

  lemma LoopCall(st: St, a: Answers, f: Faults, at: Site)
    requires Live(st) && st.run.state.Implementing?
    ensures LoopPart(st, Call(st, f, at), f, a)
  {
    hide Ok, Call, CountersKept, Watch;
    QuietKeeps(st.run, st.run);
  }

  lemma StoppedStages(st: St, a: Answers, f: Faults)
    requires !Live(st)
    ensures TaskLoop(Call(st, f, At(9)), 0, a, f) == st
  {
    hide Call;
    TaskLoopStopped(st, a, f);
  }

  lemma CallKeepsLoop(st: St, f: Faults, at: Site)
    requires InLoop(st)
    ensures InLoop(Call(st, f, at))
  {
    hide Ok, Call;
  }

  lemma ImplementBodyStages(st: St, a: Answers, f: Faults)
    requires InLoop(st) && Live(st)
    ensures var st7 := BootstrapStep(st, a, f);
      var st8 := if Live(st7) then DecomposeStep(st7, a, f) else st7;
      LoopPart(st, TaskLoop(Call(st8, f, At(9)), 0, a, f), f, a)
  {
    hide BootstrapStep, DecomposeStep, Call, TaskLoop, LoopPart, Ok;
    var st7 := BootstrapStep(st, a, f);
    BootstrapStepSafe(st, a, f);
    BootstrapStepPart(st, a, f);
    if !Live(st7) {
      StoppedStages(st7, a, f);
    } else {
      var st8 := DecomposeStep(st7, a, f);
      DecomposeStepSafe(st7, a, f);
      DecomposeStepPart(st7, a, f);
      LoopPartTransitive(st, st7, st8, f, a);
      if !Live(st8) {
        StoppedStages(st8, a, f);
      } else {
        var st9 := Call(st8, f, At(9));
        LoopCall(st8, a, f, At(9));
        CallKeepsLoop(st8, f, At(9));
        LoopPartTransitive(st, st8, st9, f, a);
        if Live(st9) {
          TaskLoopPart(st9, 0, a, f);
          LoopPartTransitive(st, st9, TaskLoop(st9, 0, a, f), f, a);
        } else {
          TaskLoopStopped(st9, a, f);
        }
      }
    }
  }

  lemma TaskLoopStopped(st: St, a: Answers, f: Faults)
    requires !Live(st)
    ensures TaskLoop(st, 0, a, f) == st
  {
  }

  // How the body of the implement handler ends.
  ghost predicate ImplementEnd(st: St, r: St, f: Faults, a: Answers) {
    && r.run.budget == st.run.budget && r.nextTask >= st.nextTask && MovesOn(st.run, r.run)
    && Watch(r.run.history).stranded == Watch(st.run.history).stranded
    && (r.status != Threw(Died) && PlanIsWhole(st.run) ==> PlanIsWhole(r.run))
    && r.status != Threw(NoRecipe)
    && (r.status == Threw(Budget) ==> r.enq.None?)
    && (r.enq.Some? ==> r.enq.value.kind.Review?)
    && (NoDeath(f) && Breathing(a) ==> r.status != Threw(Died))
    && (r.status != Threw(Died) ==>
          && (r.status.Returned? ==> Needs(r.run).Nothing?)
          && (Live(r) ==> r.run.state.Reviewing? && r.enq.Some?)
          && (r.status.Threw? ==> r.run.state.Implementing?))
  }

  lemma FinishEnds(st: St, st9: St, f: Faults, a: Answers)
    requires LoopEnd(st, st9, f, a) && st.enq.None? && st.run.state.Implementing?
    ensures ImplementEnd(st, HandToReview(st9, f), f, a)
  {
    HandToReviewEnds(st9, f);
    hide HandToReview, Watch, Quiet;
  }

  lemma FinishCounters(before: Run, st9: St, f: Faults)
    requires CountersKept(before, st9.run) && st9.enq.None?
    ensures CountersKept(before, HandToReview(st9, f).run)
  {
    HandToReviewEnds(st9, f);
    hide HandToReview, CountersKept;
    QuietKeeps(st9.run, HandToReview(st9, f).run);
    CountersKeptTransitive(before, st9.run, HandToReview(st9, f).run);
  }

  lemma ImplementBodyEnds(st: St, a: Answers, f: Faults)
    requires InLoop(st) && Live(st) && st.enq.None?
    ensures CountersKept(st.run, ImplementBody(st, a, f).run)
    ensures ImplementEnd(st, ImplementBody(st, a, f), f, a)
  {
    ImplementBodyStages(st, a, f);
    var st7 := BootstrapStep(st, a, f);
    var st8 := if Live(st7) then DecomposeStep(st7, a, f) else st7;
    var st9 := TaskLoop(Call(st8, f, At(9)), 0, a, f);
    FinishEnds(st, st9, f, a);
    FinishCounters(st.run, st9, f);
    hide BootstrapStep, DecomposeStep, TaskLoop, Call, HandToReview, CountersKept, ImplementEnd;
  }

  lemma HandToReviewEnds(st: St, f: Faults)
    requires st.enq.None?
    ensures var r := HandToReview(st, f);
      && QuietStep(st, r)
      && (!Live(st) ==> r == st)
      && (Live(st) ==> r.status !in {Returned, Threw(NoRecipe), Threw(Budget)})
      && (r.enq.Some? ==> r.enq.value.kind.Review?)
      && (NoDeath(f) && Live(st) ==> r.status != Threw(Died))
      && (Live(r) ==> r.run.state.Reviewing? && r.enq.Some?)
      && (!Live(r) && r.status != Threw(Died) ==> r.run.state == st.run.state)
  {
    hide Ok, Note, Post, SetState, Enqueue, Watch;
  }

  lemma ImplementProgress(st: St, a: Answers, f: Faults)
    requires Fresh(Implement, st)
    ensures Leaves(Implement, st, HandleImplement(st, a, f))
    ensures NoDeath(f) && Breathing(a) ==> HandleImplement(st, a, f).status != Threw(Died)
    ensures HandleImplement(st, a, f).status != Threw(Died) ==> Served(Implement, st, HandleImplement(st, a, f))
  {
    hide Ok, Call, ImplementBody, OnBudget, Closing, CountersKept, Watch;
    var st1 := Call(Call(st, f, At(0)), f, At(1));
    var r := HandleImplement(st, a, f);
    if Live(st1) {
      ImplementBodyEnds(st1, a, f);
      var body := ImplementBody(st1, a, f);
      var caught := OnBudget(body, f, At(13), At(14));
      QuietKeeps(body.run, caught.run);
      CountersKeptTransitive(st.run, body.run, caught.run);
      SpecKept(st.run, caught.run);
    } else {
      QuietKeeps(st.run, r.run);
    }
  }

  // ---- All handlers ----

  lemma HandleProgress(kind: JobKind, body: string, st: St, a: Answers, f: Faults)
    requires Ok(st) && Live(st) && st.enq.None? && Ready(kind, st.run)
    ensures Leaves(kind, st, Handle(kind, body, st, a, f))
    ensures Relays(kind, body, Handle(kind, body, st, a, f))
    ensures NoDeath(f) && Breathing(a) ==> Handle(kind, body, st, a, f).status != Threw(Died)
    ensures Handle(kind, body, st, a, f).status != Threw(Died) ==> Served(kind, st, Handle(kind, body, st, a, f))
    ensures kind.ProduceSpec? && Handle(kind, body, st, a, f).status == Threw(Other) ==>
              Drafting(Handle(kind, body, st, a, f).run)
    ensures kind.IssueOpened? && Handle(kind, body, st, a, f).enq.Some? ==> Live(Handle(kind, body, st, a, f))
    ensures !Handle(kind, body, st, a, f).status.Returned?
  {
    hide HandleIssueOpened, HandleProduceSpec, HandleClarify, HandleResumeClarification, HandleProducePlan;
    hide HandleResumePlanDecision, HandleImplement, HandleResumeImplementation, HandleReview, HandleFix;
    hide RunInv, CountersKept;
    if !Acts(kind, st.run) {
      IdleIsNoOp(kind, body, st, a, f);
      IdleIsNotNeeded(kind, st);
      QuietKeeps(st.run, st.run);
    } else {
      match kind
      case IssueOpened => IssueOpenedProgress(st, f);
      case ProduceSpec =>
        ProduceSpecLeaves(st, a, f);
        ProduceSpecServed(st, a, f);
      case Clarify => ClarifyProgress(st, a, f);
      case ResumeClarification => ResumeClarificationProgress(st, a, f);
      case ProducePlan => ProducePlanProgress(st, a, f);
      case ResumePlanDecision => ResumePlanDecisionProgress(st, body, a, f);
      case Implement => ImplementProgress(st, a, f);
      case ResumeImplementation => ResumeImplementationProgress(st, body, f);
      case Review => ReviewProgress(st, a, f);
      case Fix => FixProgress(st, body, a, f);
    }
  }

  // What the mark means: an execution sets it exactly if a retryable error
  // escapes, the run is left stuck without a new job, and a retry of this job would do nothing.
  lemma StrandedExactly(kind: JobKind, body: string, st: St, a: Answers, f: Faults)
    requires Ok(st) && Live(st) && st.enq.None? && Ready(kind, st.run)
    requires !Watch(st.run.history).stranded
    ensures var r := Handle(kind, body, st, a, f);
      Watch(r.run.history).stranded <==>
        r.status == Threw(Other) && IsStuck(r.run) && r.enq.None? && !Acts(kind, r.run)
  {
    hide Ok, Handle, CountersKept, Watch;
    StateFacts(st);
    HandleProgress(kind, body, st, a, f);
    if !Acts(kind, st.run) { IdleIsNoOp(kind, body, st, a, f); }
  }
}
