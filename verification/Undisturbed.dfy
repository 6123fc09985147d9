// Executions in which every call returns and every model answer parses: they return, and leave what the
// reference results say.
module Undisturbed {
  import opened Wrappers
  import opened Pipeline
  import opened Plan
  import opened RunInvariant
  import opened Steps
  import opened HandlerSpec
  import opened RunProgress
  import opened Outcomes
  import opened Endings

  ghost predicate AllReturn(f: Faults) {
    forall s :: f(s).None?
  }

  // Every model answer parses, and no attempt throws.
  ghost predicate Answering(a: Answers) {
    && !a.intake.malformed && !a.agent.malformed
    && forall i :: a.tdd(i).fault.None?
  }

  // Nothing but a spent budget stops the loop.
  lemma {:induction false} LoopPasses(r: Run, i: nat, a: Answers, f: Faults)
    requires i <= |r.tasks| && AllReturn(f) && Answering(a)
    ensures TasksEnd(r, i, a, f) in {Running, Threw(Budget)}
    decreases |r.tasks| - i
  {
    hide CanSpend, Turned;
    if i < |r.tasks| {
      if r.tasks[i].status.Done? {
        LoopPasses(r, i + 1, a, f);
      } else if TurnEnd(r, i, a.tdd(i), f).Running? {
        LoopPasses(Turned(r, i, a.tdd(i)).run, i + 1, a, f);
      }
    }
  }

  lemma BuildPasses(r: Run, first: nat, a: Answers, f: Faults)
    requires AllReturn(f) && Answering(a)
    ensures BuildEnd(r, first, a, f) in {Running, Threw(Budget)}
  {
    hide TasksEnd;
    var begun := if r.ctx.bootstrap.Some? && a.setupMissing then After(r, SetupCommitted) else r;
    var taken := After(Paid(begun, a.agent.cost), Decomposed(a.taskCount)).(tasks := NewTasks(first, a.taskCount));
    LoopPasses(if r.tasks == [] then taken else begun, 0, a, f);
  }

  lemma EndPasses(kind: JobKind, body: string, r: Run, first: nat, a: Answers, f: Faults)
    requires AllReturn(f) && Answering(a)
    ensures End(kind, body, r, first, a, f).Running?
  {
    hide BuildEnd, CanSpend, Commands, IsImplAbort, IsReady;
    BuildPasses(r, first, a, f);
  }

  // Such an execution returns, and its run, its history and its job are those its answers call for.
  lemma HandleCompletes(kind: JobKind, body: string, st: St, a: Answers, f: Faults)
    requires Live(st) && st.enq.None? && AllReturn(f) && Answering(a)
    ensures Live(Handle(kind, body, st, a, f))
    ensures Gives(Handle(kind, body, st, a, f), Reference(kind, body, st.run, st.nextTask, a))
  {
    hide Handle, Gives, Reference, AllReturn, Answering, End;
    HandleEnds(kind, body, st, a, f);
    EndPasses(kind, body, st.run, st.nextTask, a, f);
    HandleReturns(kind, body, st, a, f);
  }
}
