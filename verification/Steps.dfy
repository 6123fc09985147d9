// The vocabulary handlers are written in. A handler is a sequence of awaited calls; each call sits at
// a numbered site, and an oracle decides whether the call at that site throws. A store call never
// throws, but the worker may die at any site. Once an execution has stopped, further calls do nothing.
module Steps {
  import opened Wrappers
  import opened Pipeline
  import opened Plan
  import opened RunInvariant

  datatype Error = Other | MissingKey | RateLimit | SandboxSetup | Died | Budget | NoRecipe

  // What a foreign call may throw. Budget and NoRecipe are thrown by the pipeline's own code only.
  type Fault = e: Error | !e.Budget? && !e.NoRecipe? witness Other

  // The call sites of one handler execution. Loops over tasks number theirs per task.
  datatype Site = At(n: nat) | Record(i: nat) | Turn(i: nat, n: nat)

  type Faults = Site -> Option<Fault>

  // No await of this execution is cut by the death of the worker process.
  ghost predicate NoDeath(f: Faults) {
    forall s :: f(s) != Some(Died)
  }

  // Every call returns.
  const Calm: Faults := s => None

  // The worker dies at one call, and every other returns.
  function DiesAt(site: Site): Faults {
    s => if s == site then Some(Died) else None
  }

  // One call throws, with an error that is worth a retry.
  function ThrowsAt(site: Site): Faults {
    s => if s == site then Some(Other) else None
  }

  datatype NewJob = NewJob(kind: JobKind, body: string)

  datatype Status = Running | Returned | Threw(err: Error) {

    predicate IsFailure() {
      !Running?
    }

    function PropagateFailure(): Status
      requires IsFailure()
    {
      this
    }
  }

  // What one execution works on: its own run, the one job it may enqueue, the task id counter.
  datatype St = St(run: Run, enq: Option<NewJob>, nextTask: nat, now: int, status: Status)

  predicate Live(st: St) {
    st.status.Running?
  }

  // The run keeps its invariant; a worker that died may owe the count of one fix round.
  predicate Ok(st: St) {
    RunInv(st.run, st.nextTask, if st.status == Threw(Died) then 1 else 0)
  }

  // `r` is `st` stopped, or `st` untouched.
  predicate Stopped(st: St, r: St) {
    r == st.(status := r.status) && !Live(r)
  }

  // A call that changed nothing but, possibly, whether the execution goes on.
  predicate Paused(st: St, r: St) {
    r == st.(status := r.status) && (Live(r) ==> Live(st)) && (!Live(st) ==> r == st)
  }

  // If the execution stopped here, a fault stopped it.
  ghost predicate Faulted(st: St, r: St, f: Faults) {
    || r.status == st.status
    || (r.status.Threw? && !r.status.err.Budget? && !r.status.err.NoRecipe?
        && (NoDeath(f) ==> !r.status.err.Died?))
  }

  // If the execution stopped here, the worker died.
  ghost predicate Survived(st: St, r: St, f: Faults) {
    r.status == st.status || (r.status == Threw(Died) && !NoDeath(f))
  }

  // No death of the worker was recorded in between.
  predicate SameDeaths(before: Run, after: Run) {
    Watch(after.history).deaths == Watch(before.history).deaths
  }

  // Neither was a stranding throw, a decomposition, a pull request or an accepted resume.
  predicate SameMarks(before: Run, after: Run) {
    var m, n := Watch(before.history), Watch(after.history);
    && n.deaths == m.deaths && n.stranded == m.stranded && n.guided == m.guided
    && n.planned == m.planned && n.truncated == m.truncated
  }

  // Neither was a decomposition nor a pull request.
  predicate SamePlan(before: Run, after: Run) {
    var m, n := Watch(before.history), Watch(after.history);
    n.planned == m.planned && n.truncated == m.truncated
  }

  // ---- History ----

  function Note(run: Run, e: Event): (r: Run)
    ensures r == run.(history := r.history)
    ensures Watch(r.history) == Observe(Watch(run.history), e)
  {
    run.(history := Then(run.history, e))
  }

  // ---- Foreign calls ----

  function Throw(st: St, e: Error): (r: St)
    ensures Paused(st, r) && !Live(r)
    ensures r.status == if Live(st) then Threw(e) else st.status
    ensures Ok(st) ==> Ok(r)
  {
    if Live(st) then st.(status := Threw(e)) else st
  }

  // A foreign call that leaves nothing behind in the store.
  function Call(st: St, f: Faults, at: Site): (r: St)
    ensures Live(r) <==> Live(st) && f(at).None?
    ensures Paused(st, r) && Faulted(st, r, f)
    ensures Ok(st) ==> Ok(r)
  {
    if f(at).Some? then Throw(st, f(at).value) else st
  }

  // A foreign call whose failure the handler swallows. Death is not a failure anyone can swallow.
  function Tolerate(st: St, f: Faults, at: Site): (r: St)
    ensures Live(r) <==> Live(st) && f(at) != Some(Died)
    ensures Paused(st, r) && Survived(st, r, f)
    ensures Ok(st) ==> Ok(r)
  {
    if f(at) == Some(Died) then Throw(st, Died) else st
  }

  // What an event may be noted on without breaking the invariant.
  predicate MayNote(e: Event, r: Run) {
    var m := Watch(r.history);
    match e
    case PlanCommitted => r.hasSpec && r.state.Planning? && m.planCommits <= r.ctx.revisions + 1
                          && (m.planCommits == 0 || r.ctx.revisions < PLAN_REVISION_CAP)
    case Approved(body) => body in r.heard && ParsePlanDecision(body).Approve?
    case SetupCommitted => m.approved && m.consent
    case TaskCommitted(_) => m.approved
    case PrOpened(undone, _) => undone == 0
    case Reclarified => r.ctx.dorReclarified && m.reclarified == 0
    case Commented => true
    case Told(_) => true
    case SweepDied => true
    case SpecCommitted => true
    case FoundSatisfied(_) => true
    case Stranded => true
    case WorkerDied => true
    case Decomposed(_) => true
    case _ => false
  }

  lemma NoteKeeps(r: Run, e: Event, next: nat)
    requires RunInv(r, next, 0) && MayNote(e, r)
    ensures RunInv(Note(r, e), next, 0)
  {
    hide Watch, DoneCount, Sum, ParsePlanDecision;
    assert HelpIsCurrent(Note(r, e)) == HelpIsCurrent(r);
  }

  // `e` joins the run's history.
  function NoteStep(st: St, e: Event): (r: St)
    ensures Live(r) <==> Live(st)
    ensures Live(st) ==> r == st.(run := Note(st.run, e))
    ensures !Live(st) ==> r == st
    ensures Ok(st) && (Live(st) ==> MayNote(e, st.run)) ==> Ok(r)
  {
    assert Live(st) && Ok(st) && MayNote(e, st.run) ==> RunInv(Note(st.run, e), st.nextTask, 0) by {
      if Live(st) && Ok(st) && MayNote(e, st.run) { NoteKeeps(st.run, e, st.nextTask); }
    }
    if Live(st) then st.(run := Note(st.run, e)) else st
  }

  // A foreign call that leaves `e` in the run's history when it returns.
  function Effect(st: St, e: Event, f: Faults, at: Site): (r: St)
    ensures Live(r) <==> Live(st) && f(at).None?
    ensures Faulted(st, r, f)
    ensures Live(r) ==> Live(st) && r == st.(run := Note(st.run, e))
    ensures !Live(r) ==> Stopped(st, r)
    ensures !Live(st) ==> r == st
    ensures Ok(st) && (Live(r) ==> MayNote(e, st.run)) ==> Ok(r)
  {
    NoteStep(Call(st, f, at), e)
  }

  function Post(st: St, f: Faults, at: Site): (r: St)
    ensures Live(r) <==> Live(st) && f(at).None?
    ensures Faulted(st, r, f)
    ensures Live(r) ==> Live(st) && r == st.(run := Note(st.run, Commented))
    ensures !Live(r) ==> Stopped(st, r)
    ensures !Live(st) ==> r == st
    ensures Ok(st) ==> Ok(r)
  {
    Effect(st, Commented, f, at)
  }

  // ---- Model calls ----

  datatype AgentReply = AgentReply(cost: nat, malformed: bool)

  function Charge(run: Run, cost: nat, now: int): (r: Run)
    ensures MoneyAdds(run) && !Exhausted(run) ==> MoneyAdds(r)
  {
    assert (run.calls + [cost])[..|run.calls|] == run.calls;
    run.(spent := run.spent + cost, calls := run.calls + [cost], updatedAt := now)
  }

  predicate Exhausted(run: Run) {
    run.budget - run.spent <= 0
  }

  // Only the run's money moved.
  predicate OnlyMoney(before: Run, after: Run) {
    after == before.(spent := after.spent, calls := after.calls, updatedAt := after.updatedAt)
  }

  function Pay(st: St, cost: nat): (r: St)
    requires !Exhausted(st.run)
    ensures r == st.(run := r.run) && OnlyMoney(st.run, r.run)
    ensures Ok(st) ==> Ok(r)
  {
    st.(run := Charge(st.run, cost, st.now))
  }

  // One agent call through the gateway: refused when the budget is spent, charged once the provider
  // has answered, and only then parsed.
  function Ask(st: St, reply: AgentReply, f: Faults, at: Site): (r: St)
    ensures r.status == Threw(Budget) || Faulted(st, r, f)
    ensures Live(r) <==> Live(st) && !Exhausted(st.run) && f(at).None? && !reply.malformed
    ensures Live(r) ==> r.run.spent == st.run.spent + reply.cost
    ensures r == st.(run := r.run, status := r.status) && OnlyMoney(st.run, r.run)
    ensures Live(r) ==> Live(st)
    ensures !Live(st) ==> r == st
    ensures Ok(st) ==> Ok(r)
  {
    if !Live(st) then st
    else if Exhausted(st.run) then Throw(st, Budget)
    else if f(at).Some? then Throw(st, f(at).value)
    else
      var st := Pay(st, reply.cost);
      if reply.malformed then Throw(st, Other) else st
  }

  // A stretch of answered model calls with nothing else in between that the store could see.
  function Spend(st: St, costs: seq<nat>): (r: St)
    ensures r.status == st.status || r.status == Threw(Budget)
    ensures r == st.(run := r.run, status := r.status) && OnlyMoney(st.run, r.run)
    ensures Live(r) ==> Live(st)
    ensures !Live(st) ==> r == st
    ensures Ok(st) ==> Ok(r)
    decreases |costs|
  {
    if costs == [] || !Live(st) then st
    else if Exhausted(st.run) then Throw(st, Budget)
    else Spend(Pay(st, costs[0]), costs[1..])
  }

  // ---- Store calls ----

  function SetState(st: St, s: RunState, f: Faults, at: Site): (r: St)
    ensures Live(r) <==> Live(st) && f(at) != Some(Died)
    ensures Live(r) ==> Live(st) && r == st.(run := st.run.(state := s, updatedAt := st.now))
    ensures !Live(r) ==> Stopped(st, r)
    ensures !Live(st) ==> r == st
    ensures Survived(st, r, f)
    ensures Ok(st) && (Live(r) ==> MayEnter(s, st.run)) ==> Ok(r)
  {
    var st := Tolerate(st, f, at);
    if Live(st) then st.(run := st.run.(state := s, updatedAt := st.now)) else st
  }

  function SetContext(st: St, ctx: Context, f: Faults, at: Site): (r: St)
    ensures Live(r) <==> Live(st) && f(at) != Some(Died)
    ensures Live(r) ==> Live(st) && r == st.(run := st.run.(ctx := ctx, updatedAt := st.now))
    ensures !Live(r) ==> Stopped(st, r)
    ensures !Live(st) ==> r == st
    ensures Survived(st, r, f)
    ensures Ok(st) && (Live(r) ==> Ok(st.(run := st.run.(ctx := ctx)))) ==> Ok(r)
  {
    var st := Tolerate(st, f, at);
    if Live(st) then st.(run := st.run.(ctx := ctx, updatedAt := st.now)) else st
  }

  function Enqueue(st: St, kind: JobKind, body: string, f: Faults, at: Site): (r: St)
    ensures Live(r) <==> Live(st) && f(at) != Some(Died)
    ensures Live(r) ==> Live(st) && r == st.(enq := Some(NewJob(kind, body)))
    ensures !Live(r) ==> Stopped(st, r)
    ensures !Live(st) ==> r == st
    ensures Survived(st, r, f)
    ensures Ok(st) ==> Ok(r)
  {
    var st := Tolerate(st, f, at);
    if Live(st) then st.(enq := Some(NewJob(kind, body))) else st
  }

  function RecordSpec(st: St, f: Faults, at: Site): (r: St)
    ensures Live(r) <==> Live(st) && f(at) != Some(Died)
    ensures Live(r) ==> Live(st) && r == st.(run := st.run.(hasSpec := true))
    ensures !Live(r) ==> Stopped(st, r)
    ensures !Live(st) ==> r == st
    ensures Survived(st, r, f)
    ensures Ok(st) && (Live(r) ==> !st.run.state.Received? && !st.run.state.Acknowledged?) ==> Ok(r)
  {
    var st := Tolerate(st, f, at);
    if Live(st) then st.(run := st.run.(hasSpec := true)) else st
  }

  function RecordPlan(st: St, f: Faults, at: Site): (r: St)
    ensures Live(r) <==> Live(st) && f(at) != Some(Died)
    ensures Live(r) ==> Live(st) && r == st.(run := st.run.(hasPlan := true))
    ensures !Live(r) ==> Stopped(st, r)
    ensures !Live(st) ==> r == st
    ensures Survived(st, r, f)
    ensures Ok(st) && (Live(r) ==> st.run.state.Planning?) ==> Ok(r)
  {
    var st := Tolerate(st, f, at);
    if Live(st) then st.(run := st.run.(hasPlan := true)) else st
  }

  function WithStatus(tasks: seq<Task>, i: nat, status: TaskStatus): seq<Task>
    requires i < |tasks|
  {
    tasks[i := tasks[i].(status := status)]
  }

  // Only the first task that is not done may be closed or given up.
  function UpdateTask(st: St, i: nat, status: TaskStatus, f: Faults, at: Site): (r: St)
    requires i < |st.run.tasks|
    ensures Live(r) ==> Live(st) && r == st.(run := st.run.(tasks := WithStatus(st.run.tasks, i, status)))
    ensures !Live(r) ==> Stopped(st, r)
    ensures !Live(st) ==> r == st
    ensures Survived(st, r, f)
    ensures |r.run.tasks| == |st.run.tasks|
    ensures Ok(st) && i == DoneCount(st.run.tasks) && st.run.state.Implementing? ==> Ok(r)
  {
    var st1 := Tolerate(st, f, at);
    if Live(st1) then st1.(run := st1.run.(tasks := WithStatus(st.run.tasks, i, status))) else st1
  }
}
