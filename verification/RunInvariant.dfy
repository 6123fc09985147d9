// What holds of a run between any two awaits of the pipeline.
module RunInvariant {
  import opened Wrappers
  import opened Pipeline
  import opened Plan

  // ---- A run's history, summed up ----

  // `approved`: the last decision at the plan gate is an approval of the last plan put before it.
  // `consent`: the last plan put before the gate announced a test setup.
  // `approvals`: the comments taken as approvals.
  // `planned`: how many tasks the last decomposition of the plan had.
  // `pings`, `reminders`: the reminders recorded, and those posted.
  // `truncated`: some pull request opened when the recorded tasks were not as many as planned.
  // `sound`: no commit and no pull request so far broke the rules of Observe.
  datatype Monitor = Monitor(
    approved: bool,
    consent: bool,
    sound: bool,
    planCommits: nat,
    fixCommits: nat,
    reclarified: nat,
    guided: nat,
    deaths: nat,
    stranded: bool,
    pings: nat,
    reminders: nat,
    sweepDeaths: nat,
    planned: nat,
    truncated: bool,
    approvals: set<string>)

  function Observe(m: Monitor, e: Event): Monitor {
    match e
    case PlanCommitted => m.(planCommits := m.planCommits + 1)
    case PlanRecorded(consent) => m.(approved := false, consent := consent)
    case Approved(body) => m.(approved := true, approvals := m.approvals + {body})
    case Decomposed(tasks) => m.(planned := tasks)
    case SetupCommitted => m.(sound := m.sound && m.approved && m.consent)
    case TaskCommitted(_) => m.(sound := m.sound && m.approved)
    case FixCommitted => m.(sound := m.sound && m.approved, fixCommits := m.fixCommits + 1)
    case PrOpened(undone, recorded) =>
      m.(sound := m.sound && undone == 0, truncated := m.truncated || recorded != m.planned)
    case Reclarified => m.(reclarified := m.reclarified + 1)
    case Guided => m.(guided := m.guided + 1)
    case Stranded => m.(stranded := true)
    case Reminded => m.(reminders := m.reminders + 1)
    case Pinged => m.(pings := m.pings + 1)
    case SweepDied => m.(sweepDeaths := m.sweepDeaths + 1)
    case WorkerDied => m.(deaths := m.deaths + 1)
    case Commented => m
    case SpecCommitted => m
    case FoundSatisfied(_) => m
    case Told(_) => m
  }

  function Watch(h: History): Monitor {
    match h
    case Start => Monitor(false, false, true, 0, 0, 0, 0, 0, false, 0, 0, 0, 0, false, {})
    case Then(past, e) => Observe(Watch(past), e)
  }

  // ---- The invariant ----

  // States a run can be in only once its spec is recorded.
  predicate HasData(s: RunState) {
    s.Specified? || s.AwaitingClarification? || s.Planning? || IsPlanned(s)
  }

  // States a run can be in only once a plan is recorded.
  predicate IsPlanned(s: RunState) {
    s.AwaitingPlanApproval? || IsCoding(s)
  }

  // States in which code may be committed, or from which such a state is entered without the plan gate.
  predicate IsCoding(s: RunState) {
    s.Implementing? || s.AwaitingImplHelp? || s.Reviewing? || s.AwaitingPrReview?
  }

  // States before any plan.
  predicate IsEarly(s: RunState) {
    s.Received? || s.Acknowledged? || s.Specifying? || s.Specified? || s.Unsupported? || s.AwaitingClarification?
  }

  // The recorded help is for the first task that is not done.
  predicate HelpIsCurrent(r: Run) {
    var n := DoneCount(r.tasks);
    r.ctx.implHelp.Some? && n < |r.tasks| && r.ctx.implHelp.value.taskId == r.tasks[n].id
  }

  // What must hold of a run for it to be in state `s`.
  predicate MayEnter(s: RunState, r: Run) {
    var m := Watch(r.history);
    var n := r.ctx.revisions;
    && (HasData(s) ==> r.hasSpec && r.ctx.specData.Some?)
    && (s.Received? || s.Acknowledged? ==> !r.hasSpec)
    && (IsPlanned(s) ==> r.hasPlan && r.ctx.planData && m.planCommits <= n + 1)
    && (IsCoding(s) ==> m.approved)
    && (IsEarly(s) ==> m.planCommits == 0 && n == 0 && !r.hasPlan)
    && (s.Planning? ==> m.planCommits <= n + 1 || (n < PLAN_REVISION_CAP && m.planCommits <= n + 2))
    && (s.Reviewing? || s.AwaitingPrReview? ==> DoneCount(r.tasks) == |r.tasks|)
    && (s.AwaitingImplHelp? ==> HelpIsCurrent(r))
  }

  predicate DonePrefix(tasks: seq<Task>) {
    forall i | DoneCount(tasks) <= i < |tasks| :: !tasks[i].status.Done?
  }

  predicate GrowingIds(tasks: seq<Task>, next: nat) {
    && (forall i | 0 <= i < |tasks| :: tasks[i].id < next)
    && (forall i, j | 0 <= i < j < |tasks| :: tasks[i].id < tasks[j].id)
  }

  predicate TasksInOrder(r: Run, next: nat) {
    && DonePrefix(r.tasks)
    && GrowingIds(r.tasks, next)
    && (r.ctx.implHelp.Some? ==> r.ctx.implHelp.value.rounds <= IMPL_HELP_CAP)
    && Watch(r.history).guided
       <= IMPL_HELP_CAP * DoneCount(r.tasks) + (if HelpIsCurrent(r) then r.ctx.implHelp.value.rounds else 0)
  }

  // `owed` is 1 while a fix commit may have landed whose round the dying worker never counted.
  predicate WithinCaps(r: Run, owed: nat) {
    var m := Watch(r.history);
    && r.ctx.revisions <= PLAN_REVISION_CAP
    && m.planCommits <= 1 + PLAN_REVISION_CAP
    && r.ctx.fixRounds <= FIX_ROUND_CAP
    && r.ctx.fixRounds <= m.fixCommits <= r.ctx.fixRounds + m.deaths + owed
    && m.reclarified <= (if r.ctx.dorReclarified then 1 else 0)
    && m.pings == (if r.pingedAt.Some? then 1 else 0)
    && m.pings <= m.reminders <= m.pings + m.sweepDeaths
  }

  predicate Gated(r: Run) {
    var m := Watch(r.history);
    && m.sound
    && m.consent == r.ctx.bootstrap.Some?
    && m.approvals <= r.heard
    && (forall body | body in m.approvals :: ParsePlanDecision(body).Approve?)
    && (r.hasPlan ==> r.hasSpec)
    && (!r.hasSpec ==> r.ctx == EmptyContext && r.tasks == [] && m.planCommits == 0)
  }

  predicate MoneyAdds(r: Run) {
    && r.spent == Sum(r.calls)
    && (r.calls != [] ==> Sum(r.calls[..|r.calls| - 1]) < r.budget)
  }

  predicate RunInv(r: Run, next: nat, owed: nat) {
    MayEnter(r.state, r) && Gated(r) && WithinCaps(r, owed) && TasksInOrder(r, next) && MoneyAdds(r)
  }
}
