// What the pipeline is for: an issue whose collaborators answer well, within its budget, is carried to the
// plan gate, and from its approval to a pull request over every task of the plan.
module Journey {
  import opened Wrappers
  import opened Pipeline
  import opened Plan
  import opened RunInvariant
  import opened Steps
  import opened HandlerSpec
  import opened RunProgress
  import opened Outcomes

  // Each job is executed as its answers call for, with no faults, until none is enqueued or the script ends.
  function Carry(r: Run, job: NewJob, first: nat, script: seq<Answers>): Result
    decreases |script|
  {
    if script == [] then Result(r, Some(job))
    else
      var e := Reference(job.kind, job.body, r, first, script[0]);
      if e.enq.None? then e else Carry(e.run, e.enq.value, first, script[1..])
  }

  predicate IsNew(r: Run) {
    r.state.Received? && !r.hasSpec && !r.hasPlan && r.ctx == EmptyContext && r.tasks == [] && r.spent == 0
  }

  // ---- To the plan gate ----

  // The repository is supported, the drafted spec leaves nothing open, and the set-up it needs has a recipe.
  predicate Welcome(draft: Answers, review: Answers, plan: Answers) {
    && draft.supported && IsReady(draft.spec) && review.questions == 0
    && (plan.setup.Some? ==> plan.recipe)
  }

  function CostToPlan(draft: Answers, review: Answers, plan: Answers): nat {
    draft.intake.cost + draft.agent.cost + review.agent.cost + plan.agent.cost
  }

  lemma IssueReachesPlanGate(r: Run, first: nat, any: Answers, draft: Answers, review: Answers, plan: Answers)
    requires IsNew(r) && Welcome(draft, review, plan) && CostToPlan(draft, review, plan) < r.budget
    ensures var e := Carry(r, NewJob(IssueOpened, ""), first, [any, draft, review, plan]);
      && e.enq.None? && e.run.state.AwaitingPlanApproval? && e.run.hasSpec && e.run.hasPlan
      && e.run.ctx == EmptyContext.(specData := Some(draft.spec), planData := true, bootstrap := plan.setup)
      && e.run.tasks == [] && e.run.budget == r.budget && e.run.spent == CostToPlan(draft, review, plan)
  {
    hide IsReady, Commands;
    var script := [any, draft, review, plan];
    assert script[1..] == [draft, review, plan] && script[1..][1..] == [review, plan];
    assert script[1..][1..][1..] == [plan] && script[1..][1..][1..][1..] == [];
    var acknowledged := Acknowledgement(r);
    var drafted := Specification(acknowledged.run, draft);
    var cleared := Clarification(drafted.run, review);
    var planned := FirstPlan(cleared.run, plan);
    assert Carry(cleared.run, NewJob(ProducePlan, ""), first, [plan]) == planned;
    assert Carry(drafted.run, NewJob(Clarify, ""), first, [review, plan]) == planned;
    assert Carry(acknowledged.run, NewJob(ProduceSpec, ""), first, [draft, review, plan]) == planned;
  }

  // ---- What attempts cost ----

  lemma {:induction false} SumPrefix(costs: seq<nat>, k: nat)
    requires k <= |costs|
    ensures Sum(costs[..k]) <= Sum(costs)
    decreases |costs|
  {
    if k < |costs| {
      SumPrefix(costs[..|costs| - 1], k);
      assert costs[..|costs| - 1][..k] == costs[..k];
    } else {
      assert costs[..k] == costs;
    }
  }

  lemma {:induction false} AllSpent(r: Run, costs: seq<nat>)
    requires r.spent + Sum(costs) < r.budget
    ensures CanSpend(r, costs) && Spent(r, costs).spent == r.spent + Sum(costs)
    decreases |costs|
  {
    forall k | 0 <= k < |costs| ensures r.spent + Sum(costs[..k]) < r.budget {
      SumPrefix(costs, k);
    }
    if costs != [] {
      SumHead(costs, |costs|);
      assert costs[..|costs|] == costs && costs[1..][..|costs| - 1] == costs[1..];
      AllSpent(Paid(r, costs[0]), costs[1..]);
    }
  }

  function AttemptCosts(a: Answers, from: nat, to: nat): nat
    decreases to - from
  {
    if from >= to then 0 else Sum(a.tdd(from).costs) + AttemptCosts(a, from + 1, to)
  }

  // ---- To the pull request ----

  ghost predicate NeverStalls(a: Answers) {
    forall i :: !a.tdd(i).outcome.Stalled?
  }

  // The first `i` tasks are closed, and nobody has been asked for help.
  predicate WorkedTo(r: Run, i: nat) {
    && i <= |r.tasks| && r.ctx.implHelp.None?
    && forall k | 0 <= k < |r.tasks| :: r.tasks[k].status == if k < i then Done else Pending
  }

  lemma TurnCloses(r: Run, i: nat, t: TddReply)
    requires WorkedTo(r, i) && i < |r.tasks| && !t.outcome.Stalled? && r.spent + Sum(t.costs) < r.budget
    ensures var p := Turned(r, i, t);
      && !p.over && WorkedTo(p.run, i + 1) && p.run.spent == r.spent + Sum(t.costs)
      && p.run == r.(tasks := p.run.tasks, spent := p.run.spent, calls := p.run.calls, history := p.run.history)
      && |p.run.tasks| == |r.tasks|
  {
    hide Sum, CanSpend, Spent;
    AllSpent(r, t.costs);
    SpentIsMoney(r, t.costs);
  }

  lemma {:induction false} LoopCloses(r: Run, i: nat, a: Answers)
    requires WorkedTo(r, i) && NeverStalls(a) && r.spent + AttemptCosts(a, i, |r.tasks|) < r.budget
    ensures var p := WorkedOff(r, i, a);
      && !p.over && WorkedTo(p.run, |r.tasks|) && p.run.spent == r.spent + AttemptCosts(a, i, |r.tasks|)
      && p.run == r.(tasks := p.run.tasks, spent := p.run.spent, calls := p.run.calls, history := p.run.history)
      && |p.run.tasks| == |r.tasks|
    decreases |r.tasks| - i
  {
    hide Turned, Sum;
    if i < |r.tasks| {
      TurnCloses(r, i, a.tdd(i));
      LoopCloses(Turned(r, i, a.tdd(i)).run, i + 1, a);
    }
  }

  // The plan was approved and is still to be taken apart; the set-up it announced, if it is missing, turns green.
  predicate ReadyToBuild(r: Run, build: Answers) {
    && r.state.AwaitingPlanApproval? && r.hasSpec && r.hasPlan && r.ctx.specData.Some? && r.ctx.planData
    && r.ctx.implHelp.None? && r.tasks == []
    && (r.ctx.bootstrap.Some? && build.setupMissing ==> build.setupGreen)
  }

  function CostToReview(build: Answers, review: Answers): nat {
    build.agent.cost + AttemptCosts(build, 0, build.taskCount) + review.agent.cost
  }

  lemma Builds(r: Run, first: nat, build: Answers)
    requires Acts(Implement, r) && r.ctx.implHelp.None? && r.tasks == [] && NeverStalls(build)
    requires r.ctx.bootstrap.Some? && build.setupMissing ==> build.setupGreen
    requires r.spent + build.agent.cost + AttemptCosts(build, 0, build.taskCount) < r.budget
    ensures var e := Implementation(r, first, build);
      && e.enq == Some(NewJob(Review, "")) && e.run.state.Reviewing?
      && |e.run.tasks| == build.taskCount && WorkedTo(e.run, build.taskCount)
      && e.run.spent == r.spent + build.agent.cost + AttemptCosts(build, 0, build.taskCount)
      && e.run == r.(state := Reviewing, tasks := e.run.tasks, spent := e.run.spent, calls := e.run.calls,
                     history := e.run.history)
  {
    hide WorkedOff, AttemptCosts, NeverStalls;
    var begun := if r.ctx.bootstrap.Some? && build.setupMissing then After(r, SetupCommitted) else r;
    var taken := After(Paid(begun, build.agent.cost), Decomposed(build.taskCount));
    LoopCloses(taken.(tasks := NewTasks(first, build.taskCount)), 0, build);
  }

  // From the approval on: every task is closed, and the pull request opens over all of them.
  lemma ApprovalReachesReview(r: Run, body: string, first: nat, any: Answers, build: Answers, review: Answers)
    requires ReadyToBuild(r, build) && NeverStalls(build) && Commands(body, "approve")
    requires r.spent + CostToReview(build, review) < r.budget
    ensures var e := Carry(r, NewJob(ResumePlanDecision, body), first, [any, build, review]);
      && e.enq.None? && e.run.state.AwaitingPrReview? && e.run.spent == r.spent + CostToReview(build, review)
      && |e.run.tasks| == build.taskCount && (forall i | 0 <= i < |e.run.tasks| :: e.run.tasks[i].status.Done?)
      && exists past :: e.run.history == Then(Then(past, PrOpened(0, build.taskCount)), Commented)
  {
    hide Commands, Implementation, AttemptCosts, NeverStalls, DoneCount;
    var script := [any, build, review];
    assert script[1..] == [build, review] && script[1..][1..] == [review] && script[1..][1..][1..] == [];
    var approved := Decision(r, body, any);
    Builds(approved.run, first, build);
    var built := Implementation(approved.run, first, build);
    var done := Reviewed(built.run, review);
    DoneCountIs(built.run.tasks, build.taskCount);
    assert Carry(built.run, NewJob(Review, ""), first, [review]) == done;
    assert Carry(approved.run, NewJob(Implement, ""), first, [build, review]) == done;
    assert done.run.history == Then(Then(built.run.history, PrOpened(0, build.taskCount)), Commented);
  }
}
