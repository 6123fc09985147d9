// Steps of the worker in which nothing goes wrong, and what the answers to a clarification lead to.
module SmoothSteps {
  import opened Wrappers
  import opened Pipeline
  import opened Plan
  import opened RunInvariant
  import opened Steps
  import opened HandlerSpec
  import opened RunSafety
  import opened RunProgress
  import opened JobQueue
  import opened Orchestration
  import opened WorldSafety
  import opened Locality
  import opened WorldFlow
  import opened Liveness
  import opened Outcomes
  import opened Undisturbed

  // The worker's next job is `id`.
  predicate IsNext(w: World, id: nat) {
    NextClaimable(w.queue, 0, w.now) == Some(id)
  }

  function Due(w: World, id: nat, a: Answers): Result
    requires id in w.queue.jobs && w.queue.jobs[id].key in w.runs
  {
    var job := w.queue.jobs[id];
    Reference(job.kind, job.body, w.runs[job.key], w.nextTask, a)
  }

  // The job is done, its run is as it should be, the job that follows waits, and nothing else has moved.
  ghost predicate Completed(w: World, z: World, id: nat, e: Result)
    requires id in w.queue.jobs
  {
    var key := w.queue.jobs[id].key;
    && key in z.runs && z.runs == w.runs[key := z.runs[key]] && Same(z.runs[key], e.run)
    && id in z.queue.jobs && z.queue.jobs[id].status.Finished? && z.now == w.now
    && (forall other | other in w.queue.jobs && other != id ::
          other in z.queue.jobs && z.queue.jobs[other] == w.queue.jobs[other])
    && (forall other | other in z.queue.jobs && other !in w.queue.jobs :: other == w.queue.next && e.enq.Some?)
    && (e.enq.Some? ==>
          && w.queue.next !in w.queue.jobs && w.queue.next in z.queue.jobs
          && z.queue.jobs[w.queue.next] == Job(key, e.enq.value.kind, e.enq.value.body, Queued, 0, w.now, None))
  }

  // Where every call returns and every answer parses, the worker does exactly what the answers call for.
  lemma StepCompletes(w: World, id: nat, c: Config, onSubscription: bool, a: Answers, f: Faults)
    requires WorldInv(w) && IsNext(w, id) && w.queue.jobs[id].key in w.runs
    requires AllReturn(f) && Answering(a)
    ensures Completed(w, ProcessNextJob(w, c, onSubscription, a, f), id, Due(w, id, a))
  {
    hide WorldInv, Handle, Reference, Put, Settle, Answering, NextClaimable;
    var job := w.queue.jobs[id];
    var claimed := w.(queue := ClaimJob(w.queue, id, w.now));
    ClaimSafe(w, id);
    ExistingAdmitted(claimed, job, c, onSubscription, false);
    var st := Open(claimed, job.key);
    var r := Handle(job.kind, job.body, st, a, f);
    HandleCompletes(job.kind, job.body, st, a, f);
    SettleShape(claimed, id, job.key, r);
    PutKeepsJob(claimed, job.key, r, id);
    PutsRun(claimed, job.key, r);
    assert NoDeath(f);
    SettleOrDies(Put(claimed, job.key, r), id, job.key, r.status, f);
  }

  // ---- After an answered clarification ----

  // The context is what it was, or has the spec re-emitted from the answers and is otherwise what it was;
  // and that is what a run goes on to planning with.
  predicate Replanned(before: Run, after: Run, spec: Spec) {
    var answered := before.ctx.(specData := Some(spec));
    && (after.ctx == before.ctx || after.ctx == answered)
    && (after.state.Specified? ==> after.ctx == answered)
  }

  // However the execution ended.
  lemma AnsweredSpec(st: St, a: Answers, f: Faults)
    requires Live(st) && st.enq.None? && Acts(ResumeClarification, st.run)
    ensures var r := HandleResumeClarification(st, a, f);
      && Replanned(st.run, r.run, a.spec)
      && (r.enq.Some? ==> Live(r) && r.run.state.Specified? && r.enq.value.kind.ProducePlan?)
  {
    hide Ok, Watch, Call, ResumeClarificationBody, OnBudget;
    var st0 := Call(st, f, At(0));
    if Live(st0) { AnsweredSpecBody(st0, a, f); } else { AnswerStopped(st0, a, f); }
  }

  lemma AnsweredSpecBody(st: St, a: Answers, f: Faults)
    requires Live(st) && st.enq.None? && Acts(ResumeClarification, st.run)
    ensures var r := ResumeClarificationBody(st, a, f);
      && Replanned(st.run, r.run, a.spec)
      && (r.status == Threw(Budget) ==> r.enq.None? && r.run.state.AwaitingClarification?)
      && (r.enq.Some? ==> Live(r) && r.run.state.Specified? && r.enq.value.kind.ProducePlan?)
  {
    hide Ok, Watch, Ask, Effect, RecordSpec, Post, SetContext, SetState, Enqueue, MayEnter;
  }

  lemma SettleKeepsContext(w: World, id: nat, key: RunKey, status: Status, f: Faults)
    requires id in w.queue.jobs && key in w.runs
    ensures var z := Settle(w, id, key, status, f);
      key in z.runs && z.runs[key].ctx == w.runs[key].ctx && z.runs[key].state in {w.runs[key].state, Failed}
  {
    hide FailOrRetryJob, MarkJobDone, Note;
  }

  // Whatever threw or died in the step, a run that has been answered goes on to planning with the spec
  // re-emitted from the answers, whatever its spec was before.
  lemma AnswersReplaceSpec(w: World, id: nat, c: Config, onSubscription: bool, a: Answers, f: Faults)
    requires WorldInv(w) && IsNext(w, id) && w.queue.jobs[id].key in w.runs
    requires w.queue.jobs[id].kind.ResumeClarification? && w.runs[w.queue.jobs[id].key].state.AwaitingClarification?
    ensures var key := w.queue.jobs[id].key;
      var z := ProcessNextJob(w, c, onSubscription, a, f);
      && key in z.runs && Replanned(w.runs[key], z.runs[key], a.spec)
      && (z.runs[key].state.Specified? ==> !z.runs[key].hasPlan)
  {
    hide WorldInv, HandleResumeClarification, Put, Settle, NextClaimable, Note, RunInv;
    var job := w.queue.jobs[id];
    var z := ProcessNextJob(w, c, onSubscription, a, f);
    ProcessJobSafe(w, id, c, onSubscription, a, f);
    NoPlanYet(w, job.key);
    var claimed := w.(queue := ClaimJob(w.queue, id, w.now));
    ClaimSafe(w, id);
    ExistingAdmitted(claimed, job, c, onSubscription, f(At(90)) == Some(Died));
    if Some(Died) !in {f(At(89)), f(At(90))} {
      var r := Handle(job.kind, job.body, Open(claimed, job.key), a, f);
      AnsweredSpec(Open(claimed, job.key), a, f);
      PutKeepsJob(claimed, job.key, r, id);
      PutsRun(claimed, job.key, r);
      SettleKeepsContext(Put(claimed, job.key, r), id, job.key, r.status, f);
    }
    NoPlanYet(z, job.key);
  }

  // A run that waits to be planned, or for answers, has its spec and no plan.
  lemma NoPlanYet(w: World, key: RunKey)
    requires WorldInv(w) && key in w.runs
    ensures var r := w.runs[key];
      r.state.Specified? || r.state.AwaitingClarification? ==> r.hasSpec && r.ctx.specData.Some? && !r.hasPlan
  {
    hide WorldInv, Watch, DoneCount, Gated, WithinCaps, TasksInOrder, MoneyAdds;
    RunOk(w, key);
  }

  // A plan may be drawn up: its set-up, if it needs one, has a recipe, and there is budget left.
  predicate Plannable(r: Run, a: Answers) {
    (a.setup.Some? ==> a.recipe) && !Exhausted(r)
  }

  // A planning step in which nothing goes wrong takes the run to the plan gate, back to clarification or to
  // its end, and which of the three is read off its spec and the answers.
  lemma PlanningGoes(w: World, id: nat, c: Config, onSubscription: bool, a: Answers, f: Faults)
    requires WorldInv(w) && IsNext(w, id) && w.queue.jobs[id].key in w.runs
    requires w.queue.jobs[id].kind.ProducePlan? && w.runs[w.queue.jobs[id].key].state.Specified?
    requires AllReturn(f) && Answering(a)
    ensures var key := w.queue.jobs[id].key;
      var before := w.runs[key];
      var z := ProcessNextJob(w, c, onSubscription, a, f);
      && before.ctx.specData.Some? && key in z.runs && z.runs[key].ctx.specData == before.ctx.specData
      && var spec := before.ctx.specData.value;
         var asks := !before.ctx.dorReclarified && spec.openQuestions > 0;
      && (z.runs[key].state.AwaitingPlanApproval? <==> IsReady(spec) && Plannable(before, a))
      && (z.runs[key].state.Specifying? <==> !IsReady(spec) && asks)
      && (z.runs[key].state.Failed? <==> if IsReady(spec) then !Plannable(before, a) else !asks)
  {
    hide WorldInv, ProcessNextJob, NextClaimable, Answering, AllReturn;
    NoPlanYet(w, w.queue.jobs[id].key);
    StepCompletes(w, id, c, onSubscription, a, f);
  }

  // So a ready spec re-emitted from the answers reaches the plan gate in two steps, whatever the run had before.
  lemma AnswersReachTheGate(w: World, id: nat, c: Config, first: bool, a: Answers, f: Faults,
                            v: World, next: nat, second: bool, b: Answers, g: Faults)
    requires WorldInv(w) && IsNext(w, id) && w.queue.jobs[id].key in w.runs
    requires w.queue.jobs[id].kind.ResumeClarification? && w.runs[w.queue.jobs[id].key].state.AwaitingClarification?
    requires WorldInv(v) && IsNext(v, next) && v.queue.jobs[next].key == w.queue.jobs[id].key
    requires v.queue.jobs[next].kind.ProducePlan? && v.queue.jobs[next].key in v.runs
    requires var key := w.queue.jobs[id].key;
      var z := ProcessNextJob(w, c, first, a, f);
      key in z.runs && z.runs[key].state.Specified? && v.runs[key] == z.runs[key]
    requires AllReturn(g) && Answering(b) && Plannable(v.runs[w.queue.jobs[id].key], b)
    ensures var key := w.queue.jobs[id].key;
      var z := ProcessNextJob(v, c, second, b, g);
      && key in z.runs && z.runs[key].ctx.specData == Some(a.spec)
      && (z.runs[key].state.AwaitingPlanApproval? <==> IsReady(a.spec))
  {
    hide WorldInv, ProcessNextJob, IsNext, AllReturn, Answering;
    AnswersReplaceSpec(w, id, c, first, a, f);
    PlanningGoes(v, next, c, second, b, g);
  }
}
