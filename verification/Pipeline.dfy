// The values a run is made of: its states, its persisted context, its tasks and its history.
module Pipeline {
  import opened Wrappers

  datatype RunKey = RunKey(installationId: int, owner: string, repo: string, issueNumber: nat)

  datatype RunState =
    | Received
    | Acknowledged
    | Specifying
    | Specified
    | Unsupported
    | AwaitingClarification
    | Planning
    | AwaitingPlanApproval
    | Implementing
    | AwaitingImplHelp
    | Reviewing
    | AwaitingPrReview
    | Failed
    | Aborted

  datatype JobKind =
    | IssueOpened
    | ProduceSpec
    | Clarify
    | ResumeClarification
    | ProducePlan
    | ResumePlanDecision
    | Implement
    | ResumeImplementation
    | Review
    | Fix

  const CLARIFY_QUESTION_CAP := 4
  const PLAN_REVISION_CAP := 3
  const IMPL_HELP_CAP := 3
  const FIX_ROUND_CAP := 3
  const DEFAULT_RUN_BUDGET_NANO_USD := 1_000_000_000

  // What the pipeline reads from a structured spec: how many entries its lists hold.
  datatype Spec = Spec(openQuestions: nat, acceptanceCriteria: nat, nonGoals: nat)

  datatype SetupAction = Full | RunnerOnly

  datatype ImplHelp = ImplHelp(taskId: int, rounds: nat, guidance: Option<string>)

  datatype Context = Context(
    specData: Option<Spec>,
    planData: bool,
    dorReclarified: bool,
    questions: nat,
    revisions: nat,
    fixRounds: nat,
    implHelp: Option<ImplHelp>,
    bootstrap: Option<SetupAction>)

  const EmptyContext := Context(None, false, false, 0, 0, 0, None, None)

  datatype TaskStatus = Pending | Done | Escalated

  datatype Task = Task(id: nat, status: TaskStatus)

  // What a run's history records. No handler ever reads it.
  datatype Event =
    | Commented
    | SpecCommitted
    | PlanCommitted
    | PlanRecorded(consent: bool)
    | Approved(body: string)
    | Decomposed(tasks: nat)
    | SetupCommitted
    | TaskCommitted(taskId: nat)
    | FoundSatisfied(taskId: nat)
    | FixCommitted
    | PrOpened(undone: nat, recorded: nat)
    | Reclarified
    | Guided
    | Stranded
    | Told(body: string)
    | Reminded
    | Pinged
    | SweepDied
    | WorkerDied

  // A history, oldest event innermost.
  datatype History = Start | Then(past: History, last: Event)

  // `heard` and `history` are history variables: what humans told this run at its gates, and what the
  // run was told and did. The budget, the calls paid for and the artifacts are kept with the run they belong to.
  datatype Run = Run(
    state: RunState,
    ctx: Context,
    hasSpec: bool,
    hasPlan: bool,
    tasks: seq<Task>,
    budget: int,
    spent: nat,
    calls: seq<nat>,
    updatedAt: int,
    pingedAt: Option<int>,
    heard: set<string>,
    history: History)

  function NewRun(now: int, budget: int): Run {
    Run(Received, EmptyContext, false, false, [], budget, 0, [], now, None, {}, Start)
  }

  predicate IsGate(s: RunState) {
    s.AwaitingClarification? || s.AwaitingPlanApproval? || s.AwaitingImplHelp? || s.AwaitingPrReview?
  }

  predicate IsTerminal(s: RunState) {
    s.Failed? || s.Aborted? || s.Unsupported?
  }

  // How many tasks stand done before the first one that does not.
  function DoneCount(tasks: seq<Task>): (n: nat)
    ensures n <= |tasks|
    ensures forall i | 0 <= i < n :: tasks[i].status.Done?
    ensures n < |tasks| ==> !tasks[n].status.Done?
  {
    if tasks == [] || !tasks[0].status.Done? then 0 else 1 + DoneCount(tasks[1..])
  }

  lemma DoneCountIs(tasks: seq<Task>, n: nat)
    requires n <= |tasks|
    requires forall i | 0 <= i < n :: tasks[i].status.Done?
    requires n < |tasks| ==> !tasks[n].status.Done?
    ensures DoneCount(tasks) == n
  {
    hide DoneCount;
  }

  function Sum(costs: seq<nat>): nat {
    if costs == [] then 0 else Sum(costs[..|costs| - 1]) + costs[|costs| - 1]
  }
}
