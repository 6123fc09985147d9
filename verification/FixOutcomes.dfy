// What triage decides: how a review comment is asked about, sent back to the plan gate or fixed, and which
// calls that takes. All of it is read off what the execution finds, its answers and its faults.
module FixOutcomes {
  import opened Wrappers
  import opened Pipeline
  import opened RunInvariant
  import opened Steps
  import opened HandlerSpec
  import opened RunSafety
  import opened RunProgress
  import opened Outcomes

  // The budget is not spent, the call returns, and its answer parses.
  predicate Triaged(r: Run, a: Answers, f: Faults) {
    !Exhausted(r) && f(At(0)).None? && !a.agent.malformed
  }

  predicate SentBack(r: Run, a: Answers, f: Faults) {
    Triaged(r, a, f) && a.triage.Rework? && f(At(1)).None? && f(At(2)) != Some(Died)
  }

  // The attempt is paid for, lands, and every call up to its commit returns.
  predicate CommitsInSandbox(r: Run, t: TddReply, f: Faults) {
    && f(At(4)).None? && CanSpend(r, t.costs) && t.fault.None? && t.outcome.Landed?
    && f(At(8)).None? && f(At(9)).None?
  }

  // It is begun within the cap, in a sandbox that opened.
  predicate Commits(r: Run, a: Answers, f: Faults) {
    && Triaged(r, a, f) && a.triage.Actionable? && r.ctx.fixRounds < FIX_ROUND_CAP
    && f(At(12)).None? && f(At(13)).None? && CommitsInSandbox(Paid(r, a.agent.cost), a.tdd(0), f)
  }

  // Fix commits in the history.
  function Fixes(r: Run): nat {
    Watch(r.history).fixCommits
  }

  lemma TriageAnswered(st: St, a: Answers, f: Faults)
    requires Live(st)
    ensures Live(Ask(st, a.agent, f, At(0))) <==> Triaged(st.run, a, f)
    ensures Ask(st, a.agent, f, At(0)).status == Threw(Budget) <==> Exhausted(st.run)
    ensures Live(Ask(st, a.agent, f, At(0))) ==> Same(Ask(st, a.agent, f, At(0)).run, Paid(st.run, a.agent.cost))
  {
    hide Ok, Watch, Ask;
    AskLeaves(st, a.agent, f, At(0));
  }

  // A comment that asks nothing definite costs its model call and one question back.
  lemma VagueAsksBack(st: St, body: string, a: Answers, f: Faults)
    requires Live(st) && Acts(Fix, st.run) && a.triage.Vague?
    ensures var r := HandleFix(st, body, a, f);
      && r.enq == st.enq && r.nextTask == st.nextTask
      && r.run == st.run.(state := r.run.state, spent := r.run.spent, calls := r.run.calls,
                          updatedAt := r.run.updatedAt, history := r.run.history)
      && (r.run.history == st.run.history || r.run.history == Then(st.run.history, Commented))
      && (r.run.state == st.run.state || (r.run.state.Failed? && Exhausted(st.run)))
      && (!Exhausted(st.run) ==>
            (r.run.history == Then(st.run.history, Commented) <==> Triaged(st.run, a, f) && f(At(1)).None?))
  {
    hide Ok, Watch, Ask, Post, SetState, MayEnter, SameMarks;
    TriageAnswered(st, a, f);
  }

  lemma ClosingKeepsFixes(st: St, s: RunState, f: Faults, post: Site, close: Site)
    ensures Fixes(CloseWith(st, s, f, post, close).run) == Fixes(st.run)
    ensures Fixes(OnBudget(st, f, post, close).run) == Fixes(st.run)
  {
    hide Ok, Watch, Post, SetState, MayEnter, SameMarks;
  }

  lemma PostKeepsFixes(st: St, f: Faults, at: Site)
    ensures Fixes(Post(st, f, at).run) == Fixes(st.run)
  {
    hide Ok, Watch, Effect;
  }

  lemma SentBackBody(st: St, body: string, a: Answers, f: Faults)
    requires Live(st) && st.enq.None? && Acts(Fix, st.run)
    ensures var r := FixBody(st, body, a, f);
      && (r.run.state.AwaitingPlanApproval? <==> SentBack(st.run, a, f))
      && (r.enq.Some? <==> SentBack(st.run, a, f) && f(At(3)) != Some(Died))
      && (r.enq.Some? ==> Live(r) && r.enq.value == NewJob(ResumePlanDecision, body))
      && (a.triage.Rework? ==> r.run.ctx == st.run.ctx && Fixes(r.run) == Fixes(st.run))
      && (r.status == Threw(Budget) ==> !r.run.state.AwaitingPlanApproval?)
  {
    hide Ok, Watch, Ask, Post, SetState, Enqueue, FixActionable, MayEnter, Triaged;
    TriageAnswered(st, a, f);
    var asked := Ask(st, a.agent, f, At(0));
    PostKeepsFixes(asked, f, At(1));
    if Live(asked) { FixActionableEnds(asked, a, f); } else { FixActionableStopped(asked, a, f); }
  }

  // The run goes back to the plan gate, with this comment as its next decision, exactly if triage asks for a
  // rework and nothing goes wrong on the way.
  lemma SentBackIff(st: St, body: string, a: Answers, f: Faults)
    requires Live(st) && st.enq.None? && Acts(Fix, st.run)
    ensures var r := HandleFix(st, body, a, f);
      && (r.run.state.AwaitingPlanApproval? <==> SentBack(st.run, a, f))
      && (r.enq == Some(NewJob(ResumePlanDecision, body)) <==> SentBack(st.run, a, f) && f(At(3)) != Some(Died))
      && (r.enq.Some? ==> r.enq.value == NewJob(ResumePlanDecision, body))
      && (a.triage.Rework? ==> r.run.ctx == st.run.ctx && Fixes(r.run) == Fixes(st.run))
  {
    hide Ok, Watch, FixBody, OnBudget, SentBack;
    SentBackBody(st, body, a, f);
    ClosingKeepsFixes(FixBody(st, body, a, f), Failed, f, At(15), At(16));
  }

  lemma LandedFixes(st: St, f: Faults)
    ensures var r := FixLanded(st, f, At(9), At(10));
      var done := Live(st) && f(At(9)).None?;
      && Fixes(r.run) == Fixes(st.run) + (if done then 1 else 0)
      && r.run.ctx == (if done && f(At(10)) != Some(Died)
                       then st.run.ctx.(fixRounds := st.run.ctx.fixRounds + 1) else st.run.ctx)
  {
    hide Ok, Watch, Call, Tolerate, SameMarks, MayFix;
  }

  lemma SandboxFixes(st: St, base: Run, a: Answers, f: Faults)
    requires Live(st) && Same(st.run, base)
    ensures var r := FixInSandbox(st, a, f);
      var done := CommitsInSandbox(base, a.tdd(0), f);
      && Fixes(r.run) == Fixes(st.run) + (if done then 1 else 0)
      && r.run.ctx == (if done && f(At(10)) != Some(Died)
                       then st.run.ctx.(fixRounds := st.run.ctx.fixRounds + 1) else st.run.ctx)
  {
    hide Ok, Watch, Call, RunTdd, FixLanded, CloseWith, Post, CanSpend, SameMarks, MayFix, MayEnter;
    var begun := Call(st, f, At(4));
    var tried := RunTdd(begun, a.tdd(0));
    if Live(begun) { AttemptLeaves(begun, base, a.tdd(0)); }
    ClosingKeepsFixes(tried, Failed, f, At(5), At(6));
    PostKeepsFixes(tried, f, At(7));
    LandedFixes(Call(tried, f, At(8)), f);
    PostKeepsFixes(FixLanded(Call(tried, f, At(8)), f, At(9), At(10)), f, At(11));
  }

  lemma ActionableFixes(st: St, base: Run, a: Answers, f: Faults)
    requires Live(st) && Same(st.run, base)
    ensures var r := FixActionable(st, a, f);
      var begun := base.ctx.fixRounds < FIX_ROUND_CAP && f(At(12)).None? && f(At(13)).None?;
      var done := begun && CommitsInSandbox(base, a.tdd(0), f);
      && Fixes(r.run) == Fixes(st.run) + (if done then 1 else 0)
      && r.run.ctx == (if done && f(At(10)) != Some(Died)
                       then st.run.ctx.(fixRounds := st.run.ctx.fixRounds + 1) else st.run.ctx)
  {
    hide Ok, Watch, Call, CloseWith, Closing, FixInSandbox, CommitsInSandbox, SameMarks, MayEnter;
    ClosingKeepsFixes(st, Failed, f, At(1), At(2));
    var begun := Call(Call(st, f, At(12)), f, At(13));
    if Live(begun) { SandboxFixes(begun, base, a, f); }
  }

  lemma BodyFixes(st: St, body: string, a: Answers, f: Faults)
    requires Live(st)
    ensures var r := FixBody(st, body, a, f);
      var done := Commits(st.run, a, f);
      && Fixes(r.run) == Fixes(st.run) + (if done then 1 else 0)
      && r.run.ctx == (if done && f(At(10)) != Some(Died)
                       then st.run.ctx.(fixRounds := st.run.ctx.fixRounds + 1) else st.run.ctx)
  {
    hide Ok, Watch, Ask, Post, SetState, Enqueue, FixActionable, MayEnter, Triaged, CanSpend;
    TriageAnswered(st, a, f);
    var asked := Ask(st, a.agent, f, At(0));
    PostKeepsFixes(asked, f, At(1));
    if Live(asked) { ActionableFixes(asked, Paid(st.run, a.agent.cost), a, f); } else { FixActionableStopped(asked, a, f); }
  }

  // A fix is committed exactly if the comment is actionable, the attempt lands within cap and budget, and
  // nothing goes wrong up to the commit; its round is counted exactly if the worker does not die just then,
  // and nothing else of the context ever changes.
  lemma FixCommittedIff(st: St, body: string, a: Answers, f: Faults)
    requires Live(st) && Acts(Fix, st.run)
    ensures var r := HandleFix(st, body, a, f);
      var done := Commits(st.run, a, f);
      && Fixes(r.run) == Fixes(st.run) + (if done then 1 else 0)
      && r.run.ctx == (if done && f(At(10)) != Some(Died)
                       then st.run.ctx.(fixRounds := st.run.ctx.fixRounds + 1) else st.run.ctx)
  {
    hide Ok, Watch, FixBody, OnBudget, Commits;
    BodyFixes(st, body, a, f);
    ClosingKeepsFixes(FixBody(st, body, a, f), Failed, f, At(15), At(16));
  }
}
