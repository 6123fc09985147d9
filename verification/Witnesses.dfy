// What can go wrong does: for every way a run is lost, a run of the system that loses one so.
module Witnesses {
  import opened Wrappers
  import opened Pipeline
  import opened Plan
  import opened RunInvariant
  import opened Steps
  import opened HandlerSpec
  import opened RunProgress
  import opened Retry
  import opened JobQueue
  import opened Orchestration
  import opened WorldSafety
  import opened Locality
  import opened WorldFlow
  import opened Liveness
  import opened Movement
  import opened HumanGate
  import opened Stale
  import opened Scenarios
  import opened QueueSafety
  import opened Chronicle
  import opened PlanGate

  // ---- Lost by a throw ----

  // A retryable error after the spec was recorded.
  lemma SpecifiesThrows(st: St)
    requires Begun(st) && Stage(st.run, Acknowledged, None, false)
    ensures var r := Handle(ProduceSpec, "", st, SILENT, ThrowsAt(At(10)));
      r.status == Threw(Other) && r.enq.None? && r.run.state.Specifying? && r.run.hasSpec
  {
    hide HandleIssueOpened, HandleClarify, HandleResumeClarification, HandleProducePlan, HandleResumePlanDecision;
    hide HandleImplement, HandleResumeImplementation, HandleReview, HandleFix;
    hide Ok, Note, Watch, Ask, Tolerate, SetState, SetContext, Enqueue, RecordSpec, RecordPlan;
    hide OnBudget, OnRefusal, Stranding, CloseWith, Closing, NoteStep;
  }

  // A retryable error once planning has begun.
  lemma PlansThrows(st: St)
    requires Begun(st) && Stage(st.run, Specified, Some(READY), false)
    ensures var r := Handle(ProducePlan, "", st, SILENT, ThrowsAt(At(20)));
      r.status == Threw(Other) && r.enq.None? && r.run.state.Planning? && r.run.hasSpec
  {
    hide HandleIssueOpened, HandleProduceSpec, HandleClarify, HandleResumeClarification, HandleResumePlanDecision;
    hide HandleImplement, HandleResumeImplementation, HandleReview, HandleFix;
    hide Ok, Note, Watch, Ask, Tolerate, Effect, Post, SetState, SetContext, Enqueue, RecordSpec, RecordPlan;
    hide OnBudget, OnRefusal, Stranding, CloseWith, Closing, NoteStep;
  }

  // The retry finds nothing to do, and then no job of the run is left.
  lemma RetriedInVain(w: World, id: nat, kind: JobKind) returns (z: World)
    requires Reached(w, true) && Remains(w, id, kind, "") && KEY in w.runs && !Acts(kind, w.runs[KEY])
    ensures Reached(z, true) && NoneLiveBut(z, None) && KEY in z.runs && z.runs[KEY] == w.runs[KEY]
  {
    hide Reached, NoneLiveBut, Claimable, Handle, Acts;
    var later := Rests(w, id, kind, "", true);
    IdleIsNoOp(kind, "", Open(later, KEY), SILENT, Calm);
    z := Plays(later, id, kind, "", SILENT, true);
  }

  // No worker died, no job is left, and nothing moves the run again: it waits in state `s` for nothing.
  ghost predicate LostAlive(w: World, key: RunKey, s: RunState) {
    && ReachableAlive(w) && key in w.runs && w.runs[key].state == s
    && !HasLiveJob(w.queue, key) && IsStranded(w.runs[key]) && Frozen(w, key)
  }

  lemma AliveUnhurt(w: World, key: RunKey)
    requires FlowInv(w)
    ensures !Hurt(w, key)
  {
    hide Drafted, DraftedOnce, IsServed, Watch;
    assert FlowsFor(w, key);
  }

  lemma Lost(w: World, s: RunState)
    requires Reached(w, true) && NoneLiveBut(w, None) && KEY in w.runs && w.runs[KEY].state == s
    requires !IsGate(s) && !IsTerminal(s)
    ensures LostAlive(w, KEY, s)
  {
    hide Reached, ReachableAlive, WorldInv, FlowInv, Hurt, Frozen, IsStranded;
    ReachedIsReachable(w, true);
    assert !HasLiveJob(w.queue, KEY);
    AliveFlows(w);
    AliveUnhurt(w, KEY);
    NoOrphanedRun(w, KEY);
  }

  // One throw is enough to lose a run for good: in Specifying, with its spec, or in Planning.
  lemma ThrowsLoseRuns()
    ensures exists w :: LostAlive(w, KEY, Specifying)
    ensures exists w :: LostAlive(w, KEY, Planning)
  {
    hide Handle, Reached, Stage, Claimable, NoneLiveBut, LostAlive;
    var w, id := ToSpec(true);
    SpecifiesThrows(Open(w, KEY));
    var broken := Breaks(w, id, ProduceSpec, "", SILENT, At(10));
    var rest := RetriedInVain(broken, id, ProduceSpec);
    Lost(rest, Specifying);
    var v, it := ToPlan(READY, true);
    PlansThrows(Open(v, KEY));
    var cut := Breaks(v, it, ProducePlan, "", SILENT, At(20));
    var left := RetriedInVain(cut, it, ProducePlan);
    Lost(left, Planning);
  }

  // ---- Lost by a death ----

  // A worker died over a job of this kind, which it left in the queue; that job will do nothing, and the
  // run waits in state `s` for nothing.
  ghost predicate LostDead(w: World, key: RunKey, kind: JobKind, s: RunState) {
    && Reachable(w) && key in w.runs && w.runs[key].state == s
    && Awaited(w.queue, key, kind) && Frozen(w, key)
  }

  // The worker died, and the job it held no longer acts on the run it left in state `s`.
  ghost predicate CutShort(kind: JobKind, r: St, s: RunState) {
    r.status == Threw(Died) && r.enq.None? && r.run.state == s && !Acts(kind, r.run)
  }

  lemma AnnouncesDies(st: St)
    requires Begun(st)
    ensures var r := AnnounceSpec(st, SILENT, DiesAt(At(13)));
      r.status == Threw(Died) && r.enq.None? && r.run.state.Specifying? && r.run.hasSpec == st.run.hasSpec
  {
    hide Ok, Note, Watch, Effect, Post, Tolerate, SetState, SetContext, Enqueue, Stranding;
  }

  lemma SpecifiesDies(st: St)
    requires Begun(st) && Stage(st.run, Acknowledged, None, false)
    ensures CutShort(ProduceSpec, Handle(ProduceSpec, "", st, SILENT, DiesAt(At(13))), Specifying)
  {
    hide HandleIssueOpened, HandleClarify, HandleResumeClarification, HandleProducePlan, HandleResumePlanDecision;
    hide HandleImplement, HandleResumeImplementation, HandleReview, HandleFix;
    hide Ok, Note, Watch, Ask, Call, Tolerate, Effect, SetState, RecordSpec, AnnounceSpec, OnBudget, CloseWith;
    var f := DiesAt(At(13));
    var begun := Call(Tolerate(Call(SetState(st, Specifying, f, At(0)), f, At(1)), f, At(2)), f, At(5));
    var asked := Ask(Ask(begun, SILENT.intake, f, At(6)), SILENT.agent, f, At(7));
    AnnouncesDies(RecordSpec(Effect(asked, SpecCommitted, f, At(8)), f, At(9)));
  }

  lemma ClarifiesDies(st: St)
    requires Begun(st) && Stage(st.run, Specifying, Some(READY), false)
    ensures CutShort(Clarify, Handle(Clarify, "", st, SILENT, DiesAt(At(3))), Specified)
  {
    hide HandleIssueOpened, HandleProduceSpec, HandleResumeClarification, HandleProducePlan, HandleResumePlanDecision;
    hide HandleImplement, HandleResumeImplementation, HandleReview, HandleFix;
    hide Ok, Note, Watch, Ask, Call, Tolerate, Effect, Post, SetState, SetContext, Enqueue, RecordSpec, RecordPlan;
    hide OnBudget, OnRefusal, Stranding, CloseWith, Closing, NoteStep;
  }

  lemma AnswersDies(st: St)
    requires Begun(st) && Stage(st.run, AwaitingClarification, Some(READY), false)
    ensures CutShort(ResumeClarification, Handle(ResumeClarification, "", st, SILENT, DiesAt(At(7))), Specified)
  {
    hide HandleIssueOpened, HandleProduceSpec, HandleClarify, HandleProducePlan, HandleResumePlanDecision;
    hide HandleImplement, HandleResumeImplementation, HandleReview, HandleFix;
    hide Ok, Note, Watch, Ask, Call, Tolerate, Effect, Post, SetState, SetContext, Enqueue, RecordSpec, RecordPlan;
    hide OnBudget, OnRefusal, Stranding, CloseWith, Closing, NoteStep;
  }

  lemma ReclarifiesDies(st: St)
    requires Begun(st) && Stage(st.run, Specified, Some(UNREADY), false)
    ensures CutShort(ProducePlan, Handle(ProducePlan, "", st, SILENT, DiesAt(At(3))), Specifying)
  {
    hide HandleIssueOpened, HandleProduceSpec, HandleClarify, HandleResumeClarification, HandleResumePlanDecision;
    hide HandleImplement, HandleResumeImplementation, HandleReview, HandleFix;
    hide Ok, Note, Watch, Ask, Call, Tolerate, Effect, Post, SetState, SetContext, Enqueue, RecordSpec, RecordPlan;
    hide OnBudget, OnRefusal, Stranding, CloseWith, Closing, NoteStep;
  }

  lemma ApprovesDies(st: St)
    requires Begun(st) && Stage(st.run, AwaitingPlanApproval, Some(READY), true)
    ensures CutShort(ResumePlanDecision, Handle(ResumePlanDecision, "/approve", st, SILENT, DiesAt(At(2))), Implementing)
  {
    hide HandleIssueOpened, HandleProduceSpec, HandleClarify, HandleResumeClarification, HandleProducePlan;
    hide HandleImplement, HandleResumeImplementation, HandleReview, HandleFix;
    ApproveReads();
    hide ParsePlanDecision;
    hide Ok, Note, Watch, Ask, Call, Tolerate, Effect, Post, SetState, SetContext, Enqueue, RecordSpec, RecordPlan;
    hide OnBudget, OnRefusal, Stranding, CloseWith, Closing, NoteStep;
  }

  lemma GuidesDies(st: St)
    requires Begun(st) && AtHelpGate(st.run)
    ensures CutShort(ResumeImplementation, Handle(ResumeImplementation, "", st, SILENT, DiesAt(At(6))), Implementing)
  {
    hide HandleIssueOpened, HandleProduceSpec, HandleClarify, HandleResumeClarification, HandleProducePlan;
    hide HandleResumePlanDecision, HandleImplement, HandleReview, HandleFix;
    hide Ok, Note, Watch, Ask, Call, Tolerate, Effect, Post, SetState, SetContext, Enqueue, RecordSpec, RecordPlan;
    hide OnBudget, OnRefusal, Stranding, CloseWith, Closing, NoteStep;
  }

  lemma HandToReviewDies(st: St)
    requires Begun(st)
    ensures var r := HandToReview(st, DiesAt(At(12)));
      r.status == Threw(Died) && r.enq.None? && r.run.state.Reviewing?
  {
    hide Ok, Note, Watch, Post, SetState;
  }

  lemma ImplementDies(st: St, f: Faults, begun: St, done: St)
    requires Begun(st) && st.run.state.Implementing? && st.run.hasSpec && st.run.hasPlan
    requires begun == Call(Call(st, f, At(0)), f, At(1)) && Live(begun)
    requires done == ImplementBody(begun, SILENT, f) && done.status == Threw(Died)
    ensures HandleImplement(st, SILENT, f) == done
  {
    hide Ok, Note, Watch, Call, OnBudget, ImplementBody;
  }

  lemma HandsOnDies(st: St)
    requires Begun(st) && Stage(st.run, Implementing, Some(READY), true)
    ensures CutShort(Implement, Handle(Implement, "", st, SILENT, DiesAt(At(12))), Reviewing)
  {
    hide HandleIssueOpened, HandleProduceSpec, HandleClarify, HandleResumeClarification, HandleProducePlan;
    hide HandleResumePlanDecision, HandleImplement, HandleResumeImplementation, HandleReview, HandleFix;
    hide Ok, Note, Watch, Ask, Call, NoteStep, ImplementBody, HandToReview;
    var f := DiesAt(At(12));
    NothingToImplement(st, f);
    var begun := Call(Call(st, f, At(0)), f, At(1));
    var ready := Call(NoteStep(Ask(begun, SILENT.agent, f, At(8)), Decomposed(0)), f, At(9));
    HandToReviewDies(ready);
    ImplementDies(st, f, begun, HandToReview(ready, f));
  }

  ghost predicate CanBeLost(kind: JobKind, s: RunState) {
    exists z :: LostDead(z, KEY, kind, s)
  }

  lemma FrozenHere(w: World, id: nat, kind: JobKind, body: string)
    requires Remains(w, id, kind, body) && KEY in w.runs && !Acts(kind, w.runs[KEY])
    requires !IsGate(w.runs[KEY].state) && !w.runs[KEY].state.Received?
    ensures Frozen(w, KEY) && Awaited(w.queue, KEY, kind)
  {
    hide Acts;
    assert Serves(w.queue.jobs[id], KEY, kind);
  }

  // The worker dies over the handler's last write, and the run is lost.
  lemma DeathLoses(w: World, id: nat, kind: JobKind, body: string, at: Site, s: RunState)
    requires Reached(w, false) && First(w, id, kind, body) && KEY in w.runs && at !in {At(89), At(90)}
    requires CutShort(kind, Handle(kind, body, Open(w, KEY), SILENT, DiesAt(at)), s)
    requires !IsGate(s) && !s.Received?
    ensures CanBeLost(kind, s)
  {
    hide Handle, Reached, Reachable, Claimable, NoneLiveBut, Acts, WorldInv, Frozen, Awaited;
    var z := Dies(w, id, kind, body, SILENT, at);
    ActsSame(kind, Handle(kind, body, Open(w, KEY), SILENT, DiesAt(at)).run, z.runs[KEY]);
    ReachedIsReachable(z, false);
    FrozenHere(z, id, kind, body);
    assert LostDead(z, KEY, kind, s);
  }

  // The state in which a handler of this kind leaves its run before it enqueues the job that follows.
  function HandOverState(kind: JobKind): RunState
    requires !kind.Review? && !kind.Fix?
  {
    match kind
    case IssueOpened => Acknowledged
    case ProduceSpec => Specifying
    case Clarify => Specified
    case ResumeClarification => Specified
    case ProducePlan => Specifying
    case ResumePlanDecision => Implementing
    case Implement => Reviewing
    case ResumeImplementation => Implementing
  }

  lemma OpenedLost()
    ensures CanBeLost(IssueOpened, Acknowledged)
  {
    hide Handle, Reached, Reachable, Claimable, Dispatch, WorldInv, Frozen, Awaited, Arrived;
    CreatedIs();
    Arrives(false);
    BeginsNew(SILENT, DiesAt(At(2)));
    Acknowledges(Open(Created(), KEY));
    Perishes(Created(), 1, IssueOpened, "", SILENT, DiesAt(At(2)));
    var z := Next(Arrived(), Worked(false, SILENT, DiesAt(At(2))), PLAIN);
    Onward(Arrived(), Worked(false, SILENT, DiesAt(At(2))), false);
    ReachedIsReachable(z, false);
    FrozenHere(z, 1, IssueOpened, "");
    assert LostDead(z, KEY, IssueOpened, Acknowledged);
  }

  // Every handler that hands its run on to another job can lose it, if the worker dies in between: the
  // state is written and the job is not enqueued yet.
  lemma DeathsLoseRuns(kind: JobKind)
    requires !kind.Review? && !kind.Fix?
    ensures CanBeLost(kind, HandOverState(kind))
  {
    hide Handle, Reached, First, Stage, CanBeLost, CutShort;
    match kind
    case IssueOpened => OpenedLost();
    case ProduceSpec =>
      var w, id := ToSpec(false);
      SpecifiesDies(Open(w, KEY));
      DeathLoses(w, id, kind, "", At(13), Specifying);
    case Clarify =>
      var w, id := ToClarify(READY, false);
      ClarifiesDies(Open(w, KEY));
      DeathLoses(w, id, kind, "", At(3), Specified);
    case ResumeClarification =>
      var w, id := ToAnswer(false);
      AnswersDies(Open(w, KEY));
      DeathLoses(w, id, kind, "", At(7), Specified);
    case ProducePlan =>
      var w, id := ToPlan(UNREADY, false);
      ReclarifiesDies(Open(w, KEY));
      DeathLoses(w, id, kind, "", At(3), Specifying);
    case ResumePlanDecision =>
      var w, id := ToDecision(false);
      ApprovesDies(Open(w, KEY));
      DeathLoses(w, id, kind, "/approve", At(2), Implementing);
    case Implement =>
      var w, id := ToImplement(false);
      HandsOnDies(Open(w, KEY));
      DeathLoses(w, id, kind, "", At(12), Reviewing);
    case ResumeImplementation =>
      var w, id := ToGuidance(false);
      GuidesDies(Open(w, KEY));
      DeathLoses(w, id, kind, "", At(6), Implementing);
  }

  // ---- Closed, and open again ----

  lemma RefusesDies(st: St)
    requires Begun(st) && Stage(st.run, Acknowledged, None, false)
    ensures var r := Handle(ProduceSpec, "", st, SILENT.(supported := false), DiesAt(At(91)));
      r.enq.None? && r.run.state.Unsupported? && !r.run.hasSpec
  {
    hide HandleIssueOpened, HandleClarify, HandleResumeClarification, HandleProducePlan, HandleResumePlanDecision;
    hide HandleImplement, HandleResumeImplementation, HandleReview, HandleFix;
    hide Ok, Note, Watch, Call, Tolerate, Effect, Post, SetState;
  }

  // The worker dies after it refused an unsupported repository, before the job is marked done: the run is
  // closed, and some schedule opens it again.
  lemma ClosedRunsReopen()
    ensures exists w ::
      && Reachable(w) && KEY in w.runs && w.runs[KEY].state.Unsupported? && !w.runs[KEY].hasSpec
      && Awaited(w.queue, KEY, ProduceSpec) && !NeverMoves(w, KEY)
  {
    hide Handle, Reached, Reachable, Stage, Claimable, NoneLiveBut, WorldInv, NeverMoves;
    var a := SILENT.(supported := false);
    var before, id := ToSpec(false);
    RefusesDies(Open(before, KEY));
    var w := Dies(before, id, ProduceSpec, "", a, At(91));
    ReachedIsReachable(w, false);
    assert Serves(w.queue.jobs[id], KEY, ProduceSpec);
    ClosedForeverIff(w, KEY);
  }

  // ---- A plan cut short ----

  // Two tasks were planned, one is recorded, and it is still to do.
  predicate Halved(r: Run) {
    && Standing(r, Implementing) && r.ctx.bootstrap.None? && r.ctx.implHelp.None?
    && |r.tasks| == 1 && r.tasks[0].status.Pending? && Watch(r.history).planned == 2
  }

  lemma RecordsHalf(st: St)
    requires Live(st) && st.run.tasks == []
    ensures var r := RecordTasks(st, 2, DiesAt(Record(1)));
      r.status == Threw(Died) && r == RecordTask(st).(status := r.status)
  {
    var f := DiesAt(Record(1));
    hide Tolerate, Ok;
    var one := RecordTask(Tolerate(st, f, Record(2)));
    assert RecordTasks(one, 1, f) == Tolerate(one, f, Record(1));
  }

  lemma PlanHalved(st: St)
    requires Begun(st) && Stage(st.run, Implementing, Some(READY), true)
    ensures var a, f := Telling(READY, 2, Landed), DiesAt(Record(1));
      var r := ImplementBody(Call(Call(st, f, At(0)), f, At(1)), a, f);
      r.status == Threw(Died) && r.enq.None? && Halved(r.run)
  {
    hide Ok, Note, Watch, Ask, Call, NoteStep, HandToReview, RecordTasks;
    var a, f := Telling(READY, 2, Landed), DiesAt(Record(1));
    var begun := Call(Call(st, f, At(0)), f, At(1));
    var noted := NoteStep(Ask(begun, a.agent, f, At(8)), Decomposed(2));
    RecordsHalf(noted);
    var cut := RecordTasks(noted, 2, f);
    assert BootstrapStep(begun, a, f) == begun;
    assert DecomposeStep(begun, a, f) == cut;
    assert TaskLoop(Call(cut, f, At(9)), 0, a, f) == cut;
    HandToReviewEnds(cut, f);
  }

  lemma ImplementsHalf(st: St)
    requires Begun(st) && Stage(st.run, Implementing, Some(READY), true)
    ensures var r := Handle(Implement, "", st, Telling(READY, 2, Landed), DiesAt(Record(1)));
      r.status == Threw(Died) && r.enq.None? && Halved(r.run)
  {
    hide HandleIssueOpened, HandleProduceSpec, HandleClarify, HandleResumeClarification, HandleProducePlan;
    hide HandleResumePlanDecision, HandleResumeImplementation, HandleReview, HandleFix;
    hide Ok, Note, Watch, Call, ImplementBody, OnBudget, Halved;
    PlanHalved(st);
  }

  lemma LandsTurn(st: St)
    requires Live(st) && Halved(st.run)
    ensures var r := TaskTurn(st, 0, SILENT, Calm);
      && Live(r) && r.enq == st.enq && |r.run.tasks| == 1 && r.run.tasks[0].status.Done?
      && Standing(r.run, Implementing) && Watch(r.run.history).planned == 2
  {
    hide Ok, Note, Watch, Tolerate, Call, Effect, SetContext;
  }

  lemma FinishesHalf(st: St)
    requires Begun(st) && Halved(st.run)
    ensures var r := Handle(Implement, "", st, SILENT, Calm);
      && Live(r) && r.enq == Some(NewJob(Review, "")) && Standing(r.run, Reviewing)
      && |r.run.tasks| == 1 && Watch(r.run.history).planned == 2
  {
    hide HandleIssueOpened, HandleProduceSpec, HandleClarify, HandleResumeClarification, HandleProducePlan;
    hide HandleResumePlanDecision, HandleResumeImplementation, HandleReview, HandleFix;
    hide Ok, Note, Watch, Call, TaskTurn, HandToReview, OnBudget;
    var begun := Call(Call(st, Calm, At(0)), Calm, At(1));
    var ready := Call(begun, Calm, At(9));
    LandsTurn(ready);
    var landed := TaskTurn(ready, 0, SILENT, Calm);
    assert TaskLoop(ready, 0, SILENT, Calm) == TaskLoop(landed, 1, SILENT, Calm) == landed;
    assert ImplementBody(begun, SILENT, Calm) == HandToReview(landed, Calm);
    HandsOn(landed);
  }

  // A worker that dies while it records the tasks of a plan truncates it for good: the pull request opens
  // over the tasks that were recorded.
  lemma DeathTruncatesPlan()
    ensures exists w, past, e ::
      && Reachable(w) && KEY in w.runs && Happened(w.runs[KEY].history, past, e)
      && e.PrOpened? && e.recorded != LastDecomposition(past)
  {
    hide Handle, Reached, Reachable, Stage, Claimable, NoneLiveBut, WorldInv, Standing, Watch, Happened, LastDecomposition;
    var w, id := ToImplement(false);
    ImplementsHalf(Open(w, KEY));
    var dead := Dies(w, id, Implement, "", Telling(READY, 2, Landed), Record(1));
    SameStanding(Handle(Implement, "", Open(w, KEY), Telling(READY, 2, Landed), DiesAt(Record(1))).run);
    var again := Rests(dead, id, Implement, "", false);
    FinishesHalf(Open(again, KEY));
    var handed := Plays(again, id, Implement, "", SILENT, false);
    Reviews(Open(handed, KEY));
    var z := Plays(handed, again.queue.next, Review, "", SILENT, false);
    ReachedIsReachable(z, false);
    TruncatedIff(z.runs[KEY].history);
  }

  lemma SameStanding(r: Run)
    requires Halved(r)
    ensures Halved(Note(r, WorkerDied))
  {
    hide Note, Watch;
  }

  // ---- A fix without its round ----

  lemma FixesDies(st: St, body: string)
    requires Begun(st) && Standing(st.run, AwaitingPrReview)
    ensures var r := Handle(Fix, body, st, SILENT, DiesAt(At(10)));
      && r.status == Threw(Died) && r.enq.None? && r.run.ctx.fixRounds == 0
      && Watch(r.run.history).fixCommits == Watch(st.run.history).fixCommits + 1
  {
    hide HandleIssueOpened, HandleProduceSpec, HandleClarify, HandleResumeClarification, HandleProducePlan;
    hide HandleResumePlanDecision, HandleImplement, HandleResumeImplementation, HandleReview;
    hide Ok, Note, Watch, Observe, Ask, Call, Post, SetState, Enqueue, OnBudget, CloseWith, FixLanded, FixInSandbox;
    var f := DiesAt(At(10));
    var begun := Call(Call(Ask(st, SILENT.agent, f, At(0)), f, At(12)), f, At(13));
    FixCut(begun);
  }

  lemma FixCut(st: St)
    requires Begun(st) && st.run.ctx.fixRounds == 0
    ensures var r := FixInSandbox(st, SILENT, DiesAt(At(10)));
      && r.status == Threw(Died) && r.enq.None? && r.run.ctx.fixRounds == 0
      && Watch(r.run.history).fixCommits == Watch(st.run.history).fixCommits + 1
  {
    hide Ok, Note, Watch, Call, Post, SetState, Enqueue, CloseWith;
  }

  // A worker that dies between a fix commit and the count of its round leaves a commit no round stands for.
  lemma FixWithoutItsRound()
    ensures exists w ::
      && Reachable(w) && KEY in w.runs
      && Count(w.runs[KEY].history, IsFixCommit) > w.runs[KEY].ctx.fixRounds
  {
    hide Handle, Reached, Reachable, Stage, Claimable, NoneLiveBut, WorldInv, Standing, Watch, Count;
    var w, id := ToFix("", false);
    FixesDies(Open(w, KEY), "");
    var z := Dies(w, id, Fix, "", SILENT, At(10));
    ReachedIsReachable(z, false);
    CommitsCounted(z.runs[KEY].history);
  }

  // ---- Two reminders, one recorded ----

  // Only this run's reminder is cut.
  const CUTTING: RunKey -> PostOutcome := (key: RunKey) => if key == KEY then Cut else Failing

  const POSTING: RunKey -> PostOutcome := (key: RunKey) => Posted

  lemma SweptAs(w: World, posts: RunKey -> PostOutcome)
    requires WorldInv(w) && KEY in w.runs && posts in {CUTTING, POSTING}
    ensures KEY in Sweep(w, posts).runs && Sweep(w, posts).runs[KEY] == SweptRun(w.runs[KEY], w.now, posts(KEY))
  {
    hide QueueInv, JobsFit, RunInv, SweptRun, Speaks;
  }

  lemma Due(r: Run, now: int)
    requires r.state.AwaitingPlanApproval? && r.updatedAt == now - PING_AFTER_MS - 1 && r.pingedAt.None?
    ensures var cut := SweptRun(r, now, Cut);
      var done := SweptRun(cut, now, Posted);
      && done.pingedAt.Some? && Watch(done.history).reminders == Watch(r.history).reminders + 2
  {
    hide Watch, Observe, Note, Ping;
    RemindersPosted(r, now);
    RemindersPosted(Note(Note(r, Reminded), SweepDied), now);
    SameGate(r, Note(Note(r, Reminded), SweepDied));
  }

  lemma SameGate(r: Run, t: Run)
    requires t == Note(Note(r, Reminded), SweepDied)
    ensures t == r.(history := t.history)
  {
    hide Watch;
  }

  // A sweep that dies between the reminder and its record leaves a run that is reminded again.
  lemma RemindedTwice()
    ensures exists w ::
      && Reachable(w) && KEY in w.runs
      && Count(w.runs[KEY].history, IsPing) == 1 && Count(w.runs[KEY].history, IsReminder) >= 2
  {
    hide Reached, Reachable, NoneLiveBut, WorldInv, Watch, Count, Sweep, SweptRun;
    var gate := ToPlanGate(false);
    var due := Next(gate, Waited(PING_AFTER_MS + 1), PLAIN);
    Onward(gate, Waited(PING_AFTER_MS + 1), false);
    ReachedIsReachable(due, false);
    SweptAs(due, CUTTING);
    Due(gate.runs[KEY], due.now);
    var cut := Next(due, Swept(CUTTING), PLAIN);
    Onward(due, Swept(CUTTING), false);
    ReachedIsReachable(cut, false);
    assert cut.now == due.now by { SweepKeepsTime(due, CUTTING); }
    SweptAs(cut, POSTING);
    var w := Next(cut, Swept(POSTING), PLAIN);
    Onward(cut, Swept(POSTING), false);
    ReachedIsReachable(w, false);
    SweepsCounted(w.runs[KEY].history);
    PingedOnce(w, KEY);
  }

  lemma SweepKeepsTime(w: World, posts: RunKey -> PostOutcome)
    ensures Sweep(w, posts).now == w.now
  {
  }

  lemma PingedOnce(w: World, key: RunKey)
    requires WorldInv(w) && key in w.runs && w.runs[key].pingedAt.Some?
    ensures Watch(w.runs[key].history).pings == 1
  {
    hide WorldInv, Watch, MayEnter, Gated, TasksInOrder, MoneyAdds;
    RunOk(w, key);
  }

  // ---- Attempts without a run ----

  // The job of an opened issue has been claimed `n` times, and each time the worker died before there was a
  // run: no run records any of it.
  ghost predicate ClaimedInVain(w: World, n: nat) {
    && Reached(w, false) && w.runs == map[] && w.deaths == multiset{}[KEY := n]
    && 1 in w.queue.jobs && IsLive(w.queue.jobs[1]) && w.queue.jobs[1].key == KEY && w.queue.jobs[1].attempts == n
    && NoneLiveBut(w, Some(1))
  }

  // The bound on attempts is reached: there is a job with as many as there were deaths, however many.
  lemma {:induction false} AttemptsWithoutRun(n: nat) returns (w: World)
    ensures ClaimedInVain(w, n)
    decreases n
  {
    hide WorldInv, Reached;
    if n == 0 {
      ArrivedIs();
      Arrives(false);
      return Arrived();
    }
    var before := AttemptsWithoutRun(n - 1);
    w := ClaimedOnceMore(before, n);
  }

  lemma ClaimedOnceMore(before: World, n: nat) returns (w: World)
    requires n > 0 && ClaimedInVain(before, n - 1)
    ensures ClaimedInVain(w, n)
  {
    hide WorldInv, Reached, ProcessClaimed;
    ReachedIsReachable(before, false);
    LiveIsTimed(before, 1);
    var due := before.queue.jobs[1].availableAt;
    var ms := DEFAULT_JOB_LEASE_MS + 1 + if due > before.now then due - before.now else 0;
    var ready := Next(before, Waited(ms), PLAIN);
    Onward(before, Waited(ms), false);
    ReachedIsReachable(ready, false);
    OnlyNext(ready);
    w := Next(ready, Worked(false, SILENT, DiesAt(At(89))), PLAIN);
    Onward(ready, Worked(false, SILENT, DiesAt(At(89))), false);
  }

  lemma OnlyNext(w: World)
    requires WorldInv(w) && 1 in w.queue.jobs && Claimable(w.queue.jobs[1], w.now) && NoneLiveBut(w, Some(1))
    ensures NextClaimable(w.queue, 0, w.now) == Some(1)
  {
    JobIdBelow(w, 1);
    hide WorldInv;
  }

  // ---- An approval overtaken by a plan ----

  predicate Waits(j: Job, now: int, body: string) {
    j.key == KEY && j.kind.ResumePlanDecision? && j.body == body && IsLive(j) && Claimable(j, now) && j.attempts == 0
  }

  // Two replies at the plan gate wait for the worker.
  ghost predicate TwoWait(w: World, first: nat, second: nat, body: string, later: string) {
    && first < second && first in w.queue.jobs && second in w.queue.jobs
    && Waits(w.queue.jobs[first], w.now, body) && Waits(w.queue.jobs[second], w.now, later)
    && forall other | other in w.queue.jobs && other != first && other != second :: !IsLive(w.queue.jobs[other])
  }

  lemma RepliesAgain(w: World, id: nat, body: string, later: string, alive: bool) returns (z: World)
    requires Reached(w, alive) && First(w, id, ResumePlanDecision, body)
    requires KEY in w.runs && w.runs[KEY].state.AwaitingPlanApproval?
    ensures Reached(z, alive) && TwoWait(z, id, w.queue.next, body, later)
    ensures KEY in z.runs && z.runs[KEY] == Hear(w.runs[KEY], later)
  {
    hide WorldInv, Reached, Deliver, Hear;
    ReachedIsReachable(w, alive);
    JobIdBelow(w, id);
    var name := NewId(w.processed);
    var d := IssueCommented(name, Some(1), "owner", "repo", 1, false, Some(later));
    DeliveryEnqueues(w, d);
    DeliveredRun(w, d, KEY);
    z := Next(w, Delivered(d), PLAIN);
    Onward(w, Delivered(d), alive);
  }

  // The worker takes the first of them.
  lemma PlaysFirst(w: World, first: nat, second: nat, body: string, later: string, a: Answers) returns (z: World)
    requires Reached(w, true) && TwoWait(w, first, second, body, later) && KEY in w.runs && Breathing(a)
    requires var st := Handle(ResumePlanDecision, body, Open(w, KEY), a, Calm);
      st.status.Running? && st.enq.None?
    ensures Reached(z, true) && First(z, second, ResumePlanDecision, later)
    ensures KEY in z.runs && z.runs[KEY] == Handle(ResumePlanDecision, body, Open(w, KEY), a, Calm).run
  {
    hide WorldInv, Handle, Reached, Settle, Put, Next, Claimable;
    ReachedIsReachable(w, true);
    FirstIsNext(w, first, second, body, later);
    var claimed := w.(queue := ClaimJob(w.queue, first, w.now));
    ClaimSafe(w, first);
    var st := Handle(ResumePlanDecision, body, Open(w, KEY), a, Calm);
    z := Next(w, Worked(false, a, Calm), PLAIN);
    Onward(w, Worked(false, a, Calm), true);
    assert z == Dispatch(claimed, first, a, Calm) by { hide Dispatch; NextDispatches(w, first, a); }
    PutKeepsJob(claimed, KEY, st, first);
    PutsRun(claimed, KEY, st);
    SettleOrDies(Put(claimed, KEY, st), first, KEY, st.status, Calm);
    SettleShape(claimed, first, KEY, st);
  }

  lemma FirstIsNext(w: World, first: nat, second: nat, body: string, later: string)
    requires WorldInv(w) && TwoWait(w, first, second, body, later)
    ensures NextClaimable(w.queue, 0, w.now) == Some(first)
  {
    JobIdBelow(w, first);
    hide WorldInv;
  }

  lemma NextDispatches(w: World, id: nat, a: Answers)
    requires id in w.queue.jobs && NextClaimable(w.queue, 0, w.now) == Some(id) && w.queue.jobs[id].key in w.runs
    ensures Next(w, Worked(false, a, Calm), PLAIN) == Dispatch(w.(queue := ClaimJob(w.queue, id, w.now)), id, a, Calm)
  {
    hide Dispatch, NextClaimable;
    ExistingAdmitted(w.(queue := ClaimJob(w.queue, id, w.now)), w.queue.jobs[id], PLAIN, false, false);
  }

  lemma ChangesReads()
    ensures ParsePlanDecision("use X").Changes?
  {
  }

  // A revision that announces a test set-up, as a human asked for something else.
  const REVISING: Answers := SILENT.(setup := Some(Full), setupMissing := true, setupGreen := true)

  // Back at the plan gate, under a new plan nobody has seen yet.
  predicate Revised(r: Run, before: Run) {
    && r.state.AwaitingPlanApproval? && r.hasSpec && r.hasPlan && r.tasks == [] && r.spent == 0
    && r.budget == DEFAULT_RUN_BUDGET_NANO_USD && r.ctx.bootstrap == Some(Full)
    && GateOf(r.history) == Gate(GateOf(before.history).plans + 1, {}, false, false, GateOf(before.history).kept)
  }

  lemma Revises(st: St)
    requires Begun(st) && Stage(st.run, AwaitingPlanApproval, Some(READY), true)
    ensures var r := Handle(ResumePlanDecision, "use X", st, REVISING, Calm);
      Live(r) && r.enq.None? && Revised(r.run, st.run)
  {
    hide HandleIssueOpened, HandleProduceSpec, HandleClarify, HandleResumeClarification, HandleProducePlan;
    hide HandleImplement, HandleResumeImplementation, HandleReview, HandleFix;
    ChangesReads();
    hide ParsePlanDecision;
    hide Ok, Watch, Ask, Call, Tolerate, Effect, Post, SetState, SetContext, Enqueue, RecordSpec, RecordPlan;
    hide OnBudget, OnRefusal, Stranding, CloseWith, Closing, NoteStep;
    hide GateOf;
    PlanPutBefore(SetState(st, Planning, Calm, At(6)), 1, REVISING);
  }

  // A plan that is made without a fault is a new one for the gate.
  lemma PlanPutBefore(st: St, revisions: nat, a: Answers)
    requires Live(PlanAndPark(st, revisions, a, Calm))
    ensures GateOf(PlanAndPark(st, revisions, a, Calm).run.history) ==
      Gate(GateOf(st.run.history).plans + 1, {}, false, false, GateOf(st.run.history).kept)
  {
    hide Ok, Watch, Adds, Architect, RecordPlanContext, Post, SetState, MayEnter, GateOf;
    var h := st.run.history;
    var made := Architect(st, a, Calm);
    var put := RecordPlanContext(made, a.setup, revisions, Calm, At(24));
    Unchanged(h, BARE);
    ArchitectAdds(h, st, a, Calm, BARE);
    CodeHeeds(h, made.run.history, BARE);
    GateStep(put.run.history);
    Unchanged(put.run.history, BARE);
    PostAdds(put.run.history, put, Calm, At(25), BARE);
    CodeHeeds(put.run.history, Post(put, Calm, At(25)).run.history, BARE);
  }

  // Approved by a comment that was told before the plan it approves.
  predicate Overtaken(r: Run) {
    && r.state.Implementing? && r.hasSpec && r.hasPlan && r.tasks == [] && r.spent == 0
    && r.budget == DEFAULT_RUN_BUDGET_NANO_USD && r.ctx.bootstrap == Some(Full)
    && GateOf(r.history).approved && !GateOf(r.history).seen
  }

  lemma ApprovesOvertaken(st: St, before: Run)
    requires Begun(st) && Revised(st.run, before)
    ensures var r := Handle(ResumePlanDecision, "/approve", st, SILENT, Calm);
      Live(r) && r.enq == Some(NewJob(Implement, "")) && Overtaken(r.run)
  {
    hide HandleIssueOpened, HandleProduceSpec, HandleClarify, HandleResumeClarification, HandleProducePlan;
    hide HandleImplement, HandleResumeImplementation, HandleReview, HandleFix;
    ApproveReads();
    hide ParsePlanDecision;
    hide Ok, Watch, Ask, Call, Tolerate, Effect, Post, SetState, SetContext, Enqueue, RecordSpec, RecordPlan;
    hide OnBudget, OnRefusal, Stranding, CloseWith, Closing, NoteStep, GateOf, Adds;
    var told := Then(st.run.history, Approved("/approve"));
    var r := Handle(ResumePlanDecision, "/approve", st, SILENT, Calm);
    ApprovePlanAdds(st, "/approve", Calm);
    CodeHeeds(told, r.run.history, BARE);
    GateStep(told);
  }

  lemma {:induction false} AddsHappened(h: History, g: History, past: History, e: Event, s: Scope)
    requires Adds(h, g, s) && Happened(h, past, e)
    ensures Happened(g, past, e)
  {
    if h != g { AddsHappened(h, g.past, past, e, s); }
  }

  lemma SetsUp(st: St)
    requires Begun(st) && Overtaken(st.run)
    ensures var r := BootstrapStep(st, REVISING, Calm);
      Live(r) && r.run == st.run.(history := Then(st.run.history, SetupCommitted)) && r.enq.None?
  {
    hide Ok, Watch, Call, Effect, GateOf;
  }

  lemma ImplementsSetup(st: St)
    requires Begun(st) && Overtaken(st.run)
    ensures var r := Handle(Implement, "", st, REVISING, Calm);
      Live(r) && Happened(r.run.history, st.run.history, SetupCommitted)
  {
    hide HandleIssueOpened, HandleProduceSpec, HandleClarify, HandleResumeClarification, HandleProducePlan;
    hide HandleResumePlanDecision, HandleResumeImplementation, HandleReview, HandleFix;
    hide Ok, Watch, Ask, Call, NoteStep, BootstrapStep, HandToReview, OnBudget, TaskTurn, GateOf, Adds, Happened;
    var begun := Call(Call(st, Calm, At(0)), Calm, At(1));
    SetsUp(begun);
    var st7 := BootstrapStep(begun, REVISING, Calm);
    var noted := NoteStep(Ask(st7, REVISING.agent, Calm, At(8)), Decomposed(0));
    assert RecordTasks(noted, 0, Calm) == noted;
    assert DecomposeStep(st7, REVISING, Calm) == noted;
    var ready := Call(noted, Calm, At(9));
    assert TaskLoop(ready, 0, REVISING, Calm) == ready;
    HandsOn(ready);
    assert ImplementBody(begun, REVISING, Calm) == HandToReview(ready, Calm);
    Unchanged(st7.run.history, CODING);
    ImplementRestAdds(st7.run.history, st7, REVISING, Calm, CODING);
    assert Happened(st7.run.history, st.run.history, SetupCommitted) by { JustHappened(st.run.history, SetupCommitted); }
    AddsHappened(st7.run.history, HandToReview(ready, Calm).run.history, st.run.history, SetupCommitted, CODING);
  }

  lemma JustHappened(h: History, e: Event)
    ensures Happened(Then(h, e), h, e)
  {
  }

  // The run was told "use X" and "/approve" while one plan was before the gate. The first reply put another
  // plan there, with a test set-up; the second approved it, and the set-up was committed.
  ghost predicate SetUpUnseen(w: World, past: History) {
    && ReachableAlive(w) && KEY in w.runs && Happened(w.runs[KEY].history, past, SetupCommitted)
    && GateOf(past).approved && !ApprovedSince(past)
  }

  // Code reaches the branch under a plan that nobody approved who could have seen it, and no process died.
  lemma ApprovalOvertaken()
    ensures exists w, past :: SetUpUnseen(w, past)
  {
    hide Handle, Reached, Stage, Claimable, NoneLiveBut, WorldInv, Hear, Happened, GateOf, ApprovedSince, ReachableAlive;
    var gate := ToPlanGate(true);
    StillAtGate(gate.runs[KEY], "use X");
    var asked := Replies(gate, ResumePlanDecision, "use X", true);
    var both := RepliesAgain(asked, gate.queue.next, "use X", "/approve", true);
    StillAtGate(asked.runs[KEY], "/approve");
    Revises(Open(both, KEY));
    var revised := PlaysFirst(both, gate.queue.next, asked.queue.next, "use X", "/approve", REVISING);
    ApprovesOvertaken(Open(revised, KEY), both.runs[KEY]);
    var approved := Plays(revised, asked.queue.next, ResumePlanDecision, "/approve", SILENT, true);
    var past := approved.runs[KEY].history;
    ImplementsSetup(Open(approved, KEY));
    var w := Plays(approved, revised.queue.next, Implement, "", REVISING, true);
    ReachedIsReachable(w, true);
    SeenIff(past);
    assert SetUpUnseen(w, past);
  }

  lemma StillAtGate(r: Run, body: string)
    requires Stage(r, AwaitingPlanApproval, Some(READY), true)
    ensures Stage(Hear(r, body), AwaitingPlanApproval, Some(READY), true)
    ensures r.state.AwaitingPlanApproval? && Hear(r, body).state.AwaitingPlanApproval?
  {
  }
}
