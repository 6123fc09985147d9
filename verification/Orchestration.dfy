// The whole system as a state machine: webhooks are delivered, the one worker processes jobs, the
// sweep visits abandoned runs, and time passes. One handler execution is one step, which a throw or
// the death of the worker may cut short at any await.
module Orchestration {
  import opened Wrappers
  import opened Pipeline
  import opened Plan
  import opened RunInvariant
  import opened Steps
  import opened HandlerSpec
  import opened Retry
  import opened JobQueue
  import opened Branch

  const PING_AFTER_MS := 259_200_000
  const CLOSE_AFTER_MS := 604_800_000

  // The deployment's optional budget ceilings.
  datatype Config = Config(runBudget: Option<int>, subscriptionRunBudget: Option<int>)

  // `deaths` is a history variable: over the jobs of which issues the worker died, and how often.
  datatype World = World(
    now: int,
    queue: Queue,
    runs: map<RunKey, Run>,
    order: seq<RunKey>,
    nextTask: nat,
    processed: set<string>,
    deaths: multiset<RunKey>)

  function Initial(now: int): World {
    World(now, EmptyQueue, map[], [], 1, {}, multiset{})
  }

  // ---- Webhooks ----

  datatype Delivery =
    | Opened(id: string, installation: Option<int>, owner: string, repo: string, issue: nat)
    | IssueCommented(id: string, installation: Option<int>, owner: string, repo: string, issue: nat,
                     fromBot: bool, body: Option<string>)
    | ReviewCommented(id: string, installation: Option<int>, owner: string, repo: string, branch: string,
                      fromBot: bool, body: Option<string>)
    | ReviewSubmitted(id: string, installation: Option<int>, owner: string, repo: string, branch: string,
                      fromBot: bool, body: Option<string>, changesRequested: bool)
    | Uninstalled(id: string)

  function AddJob(w: World, key: RunKey, kind: JobKind, body: string): World {
    w.(queue := EnqueueJob(w.queue, key, kind, body, w.now))
  }

  function Hear(run: Run, body: string): Run {
    Note(run.(heard := run.heard + {body}), Told(body))
  }

  // The gate the run is parked at takes the comment as its reply.
  function Reply(w: World, key: RunKey, kind: JobKind, body: string): World
    requires key in w.runs
  {
    AddJob(w.(runs := w.runs[key := Hear(w.runs[key], body)]), key, kind, body)
  }

  function GateJob(s: RunState): Option<JobKind> {
    match s
    case AwaitingClarification => Some(ResumeClarification)
    case AwaitingPlanApproval => Some(ResumePlanDecision)
    case AwaitingImplHelp => Some(ResumeImplementation)
    case _ => None
  }

  function RouteComment(w: World, key: RunKey, body: string): World {
    if key in w.runs && GateJob(w.runs[key].state).Some?
    then Reply(w, key, GateJob(w.runs[key].state).value, body)
    else w
  }

  // The run a branch belongs to, if its tail is a number any issue can have.
  function BranchKey(installation: int, owner: string, repo: string, number: Number): Option<RunKey> {
    match number
    case Finite(n) => Some(RunKey(installation, owner, repo, n))
    case Infinite => None
  }

  function RouteReview(w: World, key: Option<RunKey>, body: string): World {
    if key.Some? && key.value in w.runs && w.runs[key.value].state.AwaitingPrReview?
    then Reply(w, key.value, Fix, body)
    else w
  }

  // The delivery is not filtered out before it is marked as processed.
  predicate Accepted(d: Delivery) {
    match d
    case Opened(_, installation, _, _, _) => installation.Some?
    case IssueCommented(_, installation, _, _, _, fromBot, _) => !fromBot && installation.Some?
    case ReviewCommented(_, installation, _, _, branch, fromBot, _) =>
      !fromBot && IssueNumberFromBranch(branch).Some? && installation.Some?
    case ReviewSubmitted(_, installation, _, _, branch, fromBot, _, changesRequested) =>
      changesRequested && !fromBot && IssueNumberFromBranch(branch).Some? && installation.Some?
    case Uninstalled(_) => true
  }

  function Route(w: World, d: Delivery): World
    requires Accepted(d)
  {
    match d
    case Opened(_, installation, owner, repo, issue) =>
      AddJob(w, RunKey(installation.value, owner, repo, issue), IssueOpened, "")
    case IssueCommented(_, installation, owner, repo, issue, _, body) =>
      RouteComment(w, RunKey(installation.value, owner, repo, issue), body.GetOr(""))
    case ReviewCommented(_, installation, owner, repo, branch, _, body) =>
      RouteReview(w, BranchKey(installation.value, owner, repo, IssueNumberFromBranch(branch).value), body.GetOr(""))
    case ReviewSubmitted(_, installation, owner, repo, branch, _, body, _) =>
      RouteReview(w, BranchKey(installation.value, owner, repo, IssueNumberFromBranch(branch).value), body.GetOr(""))
    case Uninstalled(_) => w
  }

  // The process dies after it marked the delivery and before it enqueued the job.
  function Mark(w: World, d: Delivery): World {
    if Accepted(d) then w.(processed := w.processed + {d.id}) else w
  }

  function Deliver(w: World, d: Delivery): World {
    if !Accepted(d) || d.id in w.processed then w
    else Route(w.(processed := w.processed + {d.id}), d)
  }

  // ---- The worker ----

  function FindOrCreateRun(w: World, key: RunKey): World {
    if key in w.runs then w
    else w.(runs := w.runs[key := NewRun(w.now, DEFAULT_RUN_BUDGET_NANO_USD)], order := w.order + [key])
  }

  // Subscription installations get their own ceiling, where one is configured.
  function BirthBudget(c: Config, onSubscription: bool): int {
    var ceiling :=
      if onSubscription && c.subscriptionRunBudget.Some? then c.subscriptionRunBudget else c.runBudget;
    ceiling.GetOr(DEFAULT_RUN_BUDGET_NANO_USD)
  }

  // The store calls that precede the handler's own work. The budget of a run is set once, right after
  // it is created, unless the worker dies in between.
  function Admit(w: World, job: Job, c: Config, onSubscription: bool, dies: bool): World {
    if job.kind.ResumeImplementation? then w
    else if job.kind.IssueOpened? && job.key !in w.runs && !dies then
      var w := FindOrCreateRun(w, job.key);
      w.(runs := w.runs[job.key := w.runs[job.key].(budget := BirthBudget(c, onSubscription))])
    else FindOrCreateRun(w, job.key)
  }

  function Open(w: World, key: RunKey): St
    requires key in w.runs
  {
    St(w.runs[key], None, w.nextTask, w.now, Running)
  }

  // What one handler execution leaves in the store.
  function Put(w: World, key: RunKey, st: St): World {
    var w := w.(runs := w.runs[key := st.run], nextTask := st.nextTask);
    if st.enq.Some? then AddJob(w, key, st.enq.value.kind, st.enq.value.body) else w
  }

  // The worker dies over a job of this issue, whose run may not exist yet.
  function Die(w: World, key: RunKey): World {
    var w := w.(deaths := w.deaths + multiset{key});
    if key in w.runs then w.(runs := w.runs[key := Note(w.runs[key], WorkerDied)]) else w
  }

  function CloseRun(w: World, key: RunKey): World {
    if key in w.runs then w.(runs := w.runs[key := w.runs[key].(state := Failed, updatedAt := w.now)]) else w
  }

  function Finish(w: World, id: nat): World
    requires id in w.queue.jobs
  {
    w.(queue := MarkJobDone(w.queue, id))
  }

  // A refusal is terminal: the run is closed and the job is done.
  function Refuse(w: World, id: nat, key: RunKey, f: Faults): World
    requires id in w.queue.jobs
  {
    var w := CloseRun(w, key);
    if f(At(92)) == Some(Died) then Die(w, key) else Finish(w, id)
  }

  // An exhausted job closes its run unless that has already failed.
  function CloseDeadLettered(w: World, key: RunKey, f: Faults): World {
    if f(At(93)) == Some(Died) then Die(w, key)
    else if key in w.runs && w.runs[key].state.Failed? then w
    else CloseRun(w, key)
  }

  function RetryOrBury(w: World, id: nat, key: RunKey, f: Faults): World
    requires id in w.queue.jobs
  {
    var w := w.(queue := FailOrRetryJob(w.queue, id, w.now));
    if w.queue.jobs[id].status.Dead? then CloseDeadLettered(w, key, f) else w
  }

  predicate IsRefusal(e: Error) {
    e.MissingKey? || e.RateLimit? || e.SandboxSetup?
  }

  function Settle(w: World, id: nat, key: RunKey, status: Status, f: Faults): World
    requires id in w.queue.jobs
  {
    if status == Threw(Died) || f(At(91)) == Some(Died) then Die(w, key)
    else if !status.Threw? then Finish(w, id)
    else if IsRefusal(status.err) then Refuse(w, id, key, f)
    else RetryOrBury(w, id, key, f)
  }

  // The claimed job `id` of an open run is dispatched to its handler and then settled.
  function Dispatch(w: World, id: nat, a: Answers, f: Faults): World
    requires id in w.queue.jobs && w.queue.jobs[id].key in w.runs
  {
    var job := w.queue.jobs[id];
    var r := Handle(job.kind, job.body, Open(w, job.key), a, f);
    Settle(Put(w, job.key, r), id, job.key, r.status, f)
  }

  // The job is in progress; what it is about is known since before.
  function ProcessClaimed(w: World, id: nat, job: Job, c: Config, onSubscription: bool, a: Answers, f: Faults): World
    requires id in w.queue.jobs && w.queue.jobs[id].key == job.key
  {
    var dies := f(At(90)) == Some(Died);
    var w := Admit(w, job, c, onSubscription, dies);
    if dies then Die(w, job.key)
    else if job.key !in w.runs then Settle(w, id, job.key, Running, f)
    else Dispatch(w, id, a, f)
  }

  function ProcessJob(w: World, id: nat, c: Config, onSubscription: bool, a: Answers, f: Faults): World
    requires id in w.queue.jobs
  {
    var job := w.queue.jobs[id];
    var w := w.(queue := ClaimJob(w.queue, id, w.now));
    if f(At(89)) == Some(Died) then Die(w, job.key) else ProcessClaimed(w, id, job, c, onSubscription, a, f)
  }

  function ProcessNextJob(w: World, c: Config, onSubscription: bool, a: Answers, f: Faults): World {
    match NextClaimable(w.queue, 0, w.now)
    case None => w
    case Some(id) => ProcessJob(w, id, c, onSubscription, a, f)
  }

  // ---- The stale-run sweep ----

  // How the comment on one run ended. Missing: its installation or issue is gone. Cut: it was posted, and
  // the process died before it recorded that.
  datatype PostOutcome = Posted | Missing | Failing | Cut

  function Abandon(r: Run, now: int): Run {
    r.(state := Aborted, updatedAt := now)
  }

  function Ping(r: Run, now: int): Run {
    Note(r.(pingedAt := Some(now)), Pinged)
  }

  predicate IsStale(r: Run, now: int) {
    IsGate(r.state) && r.updatedAt < now - PING_AFTER_MS
  }

  // The sweep has something to say to the run.
  predicate Speaks(r: Run, now: int) {
    IsStale(r, now) && (r.updatedAt < now - CLOSE_AFTER_MS || r.pingedAt.None?)
  }

  // What the sweep does to one of its candidates.
  function SweepRun(r: Run, now: int, post: PostOutcome): Run {
    if r.updatedAt < now - CLOSE_AFTER_MS then
      match post
      case Posted => Abandon(r, now)
      case Missing => Abandon(r, now)
      case Failing => r
      case Cut => Note(r, SweepDied)
    else if r.pingedAt.None? then
      match post
      case Posted => Ping(Note(r, Reminded), now)
      case Missing => Abandon(r, now)
      case Failing => r
      case Cut => Note(Note(r, Reminded), SweepDied)
    else r
  }

  function SweptRun(r: Run, now: int, post: PostOutcome): Run {
    if IsStale(r, now) then SweepRun(r, now, post) else r
  }

  // The sweep takes the oldest run first, and died over one it took before this.
  predicate CutBefore(w: World, posts: RunKey -> PostOutcome, key: RunKey) {
    exists i, j | 0 <= i < j < |w.order| ::
      w.order[j] == key && w.order[i] in w.runs && Speaks(w.runs[w.order[i]], w.now) && posts(w.order[i]).Cut?
  }

  // A run the sweep no longer got to stays as it is.
  function Outcome(w: World, posts: RunKey -> PostOutcome, key: RunKey): PostOutcome {
    if CutBefore(w, posts, key) then Failing else posts(key)
  }

  function Sweep(w: World, posts: RunKey -> PostOutcome): World {
    w.(runs := map k | k in w.runs :: SweptRun(w.runs[k], w.now, Outcome(w, posts, k)))
  }

  // ---- Runs of the system ----

  datatype Step =
    | Delivered(d: Delivery)
    | Worked(onSubscription: bool, a: Answers, f: Faults)
    | Swept(posts: RunKey -> PostOutcome)
    | Waited(ms: nat)
    | Crashed(d: Delivery)

  function Next(w: World, s: Step, c: Config): World {
    match s
    case Delivered(d) => Deliver(w, d)
    case Worked(onSubscription, a, f) => ProcessNextJob(w, c, onSubscription, a, f)
    case Swept(posts) => Sweep(w, posts)
    case Waited(ms) => w.(now := w.now + ms)
    case Crashed(d) => Mark(w, d)
  }

  function After(w: World, steps: seq<Step>, c: Config): World {
    if steps == [] then w else Next(After(w, steps[..|steps| - 1], c), steps[|steps| - 1], c)
  }

  // The process does not die during this step.
  ghost predicate Survives(s: Step) {
    && !s.Crashed?
    && (s.Worked? ==> NoDeath(s.f) && Breathing(s.a))
    && (s.Swept? ==> forall k :: !s.posts(k).Cut?)
  }

  ghost predicate AllSurvive(steps: seq<Step>) {
    forall i | 0 <= i < |steps| :: Survives(steps[i])
  }

  // Some run of the system, with whatever throws and deaths, leads here.
  ghost predicate Reachable(w: World) {
    exists now, steps, c :: w == After(Initial(now), steps, c)
  }

  // Some run of the system in which no process ever died leads here.
  ghost predicate ReachableAlive(w: World) {
    exists now, steps, c :: AllSurvive(steps) && w == After(Initial(now), steps, c)
  }

  ghost predicate LeadsTo(w: World, later: World) {
    exists steps, c :: later == After(w, steps, c)
  }
}
